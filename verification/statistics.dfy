/**
 * `getDashboardEntity` of LPVSStatisticsService: the dashboard of the pull
 * requests a viewer may see, grouped by calendar day and tallied by risk
 * grade, license, issue flag, sender and repository.
 *
 * The repositories and the session are parameters: `detections` stands for
 * `findNotNullDLByPR`, `spdxIds` for `takeAllSpdxId()`, `dayOf` for
 * `new Date(time).toLocalDate()`.
 */
module Statistics {
  import opened Wrappers
  import opened Exceptions
  import opened Grades
  import opened Records
  import opened Access

  /** DashboardElementsByDate: one calendar day of the dashboard. */
  datatype DayElement = DayElement(date: Day, participantCount: int, pullRequestCount: int, riskGrades: map<Grade, int>)

  datatype Dashboard = Dashboard(
    name: string,
    licenseCounts: map<string, int>,
    totalDetectionCount: int,
    highSimilarityCount: int,
    totalIssueCount: int,
    totalParticipantsCount: int,
    totalRepositoryCount: int,
    byDates: seq<DayElement>)

  /** The running counters of the detection loop (lines 117-134). */
  datatype Tally = Tally(grades: map<Grade, int>, licenses: map<string, int>, high: int, issues: int)

  /** What one day's pass (lines 107-136) hands back to the day loop. */
  datatype DayOutcome = DayOutcome(tally: Tally, detectionCount: int, senders: set<string>)

  // ---------------------------------------------------------------------------
  // Reference definitions

  function KnownIds(spdxIds: seq<string>): set<string> {
    set id | id in spdxIds
  }

  /** The exception counting detection `d` raises, if any: an unparseable
      match first (line 120), then a license id with no counter (line 124). */
  function Fault(d: Detection, known: set<string>): Option<Exception> {
    if d.matchPercent.Some? && GetGrade(d.matchPercent.value).Failure? then
      Some(GetGrade(d.matchPercent.value).error)
    else if d.license.Some? && d.license.value.spdxId !in known then
      Some(NullPointer)
    else
      None
  }

  /** No detection of the records raises anything. */
  predicate Sound(prs: seq<PullRequest>, detections: PullRequest -> seq<Detection>, known: set<string>) {
    forall pr, d :: pr in prs && d in detections(pr) ==> Fault(d, known) == None
  }

  /** `e` is what counting some detection of the records raises. */
  predicate RaisedBy(prs: seq<PullRequest>, detections: PullRequest -> seq<Detection>, known: set<string>, e: Exception) {
    exists pr, d :: pr in prs && d in detections(pr) && Fault(d, known) == Some(e)
  }

  /** The exception of the first faulty detection, in list order. */
  function FirstFault(ds: seq<Detection>, known: set<string>): Option<Exception> {
    if |ds| == 0 then None
    else
      match FirstFault(ds[..|ds| - 1], known)
      case Some(e) => Some(e)
      case None => Fault(ds[|ds| - 1], known)
  }

  /** The exception of the first faulty detection of the records, in order. */
  function FirstFaultOf(prs: seq<PullRequest>, detections: PullRequest -> seq<Detection>, known: set<string>): Option<Exception> {
    if |prs| == 0 then None
    else
      match FirstFaultOf(prs[..|prs| - 1], detections, known)
      case Some(e) => Some(e)
      case None => FirstFault(detections(prs[|prs| - 1]), known)
  }

  /** The first fault is a fault of some detection, and there is none exactly
      when no detection is faulty. */
  lemma {:induction false} FirstFaultIsFault(ds: seq<Detection>, known: set<string>)
    ensures FirstFault(ds, known).None? <==> forall d :: d in ds ==> Fault(d, known).None?
    ensures FirstFault(ds, known).Some? ==> exists d :: d in ds && Fault(d, known) == FirstFault(ds, known)
  {
    if |ds| > 0 {
      var init := ds[..|ds| - 1];
      FirstFaultIsFault(init, known);
      assert ds == init + [ds[|ds| - 1]];
      if FirstFault(init, known).Some? {
        var d :| d in init && Fault(d, known) == FirstFault(init, known);
        assert d in ds;
      }
    }
  }

  /** The records are sound exactly when they have no first fault; a first
      fault belongs to one of their detections. */
  lemma {:induction false} FirstFaultOfIsFault(prs: seq<PullRequest>, detections: PullRequest -> seq<Detection>, known: set<string>)
    ensures FirstFaultOf(prs, detections, known).None? <==> Sound(prs, detections, known)
    ensures FirstFaultOf(prs, detections, known).Some? ==>
      exists pr, d :: pr in prs && d in detections(pr) && Fault(d, known) == FirstFaultOf(prs, detections, known)
  {
    if |prs| > 0 {
      var init := prs[..|prs| - 1];
      var last := prs[|prs| - 1];
      FirstFaultOfIsFault(init, detections, known);
      FirstFaultIsFault(detections(last), known);
      assert prs == init + [last];
      if FirstFaultOf(init, detections, known).Some? {
        var pr, d :| pr in init && d in detections(pr) && Fault(d, known) == FirstFaultOf(init, detections, known);
        assert pr in prs;
      } else if FirstFault(detections(last), known).Some? {
        var d :| d in detections(last) && Fault(d, known) == FirstFault(detections(last), known);
        assert last in prs;
      }
    }
  }

  /** The grade counts of a set of records, every grade present. */
  function GradeTally(prs: seq<PullRequest>, detections: PullRequest -> seq<Detection>): map<Grade, int> {
    map[High := Total(prs, Weigh(detections, GradedAs(High))),
        Middle := Total(prs, Weigh(detections, GradedAs(Middle))),
        Low := Total(prs, Weigh(detections, GradedAs(Low))),
        NoRisk := Total(prs, Weigh(detections, GradedAs(NoRisk)))]
  }

  /** The element a day must get: its distinct senders of records that name a
      repository, its number of records and its grade counts. */
  function ExpectedDay(prs: seq<PullRequest>, detections: PullRequest -> seq<Detection>,
                       dayOf: Timestamp -> Day, d: Day): DayElement {
    var group := Group(prs, dayOf, d);
    DayElement(d, |RepositorySenders(group)|, |group|, GradeTally(group, detections))
  }

  function DatesOf(es: seq<DayElement>): set<Day> {
    set e | e in es :: e.date
  }

  predicate DistinctDates(es: seq<DayElement>) {
    forall i, j :: 0 <= i < j < |es| ==> es[i].date != es[j].date
  }

  /** `dash` is the dashboard of `prs`: every total, and one element per day. */
  predicate Summarises(dash: Dashboard, name: string, prs: seq<PullRequest>,
                       detections: PullRequest -> seq<Detection>, dayOf: Timestamp -> Day, spdxIds: seq<string>) {
    && dash.name == name
    && dash.licenseCounts.Keys == KnownIds(spdxIds)
    && (forall id :: id in dash.licenseCounts ==>
          dash.licenseCounts[id] == Total(prs, Weigh(detections, LicensedAs(id))))
    && dash.totalDetectionCount == Total(prs, DetectionsOf(detections))
    && dash.highSimilarityCount == Total(prs, Weigh(detections, GradedAs(High)))
    && dash.totalIssueCount == Total(prs, Weigh(detections, Issue))
    && dash.totalParticipantsCount == |Senders(prs)|
    && dash.totalRepositoryCount == |Repositories(prs)|
    && |dash.byDates| == |Days(prs, dayOf)|
    && DatesOf(dash.byDates) == Days(prs, dayOf)
    && DistinctDates(dash.byDates)
    && (forall i :: 0 <= i < |dash.byDates| ==>
          dash.byDates[i] == ExpectedDay(prs, detections, dayOf, dash.byDates[i].date))
  }

  // ---------------------------------------------------------------------------
  // The computation

  /** Lines 83-86: a zero counter for every known SPDX id. */
  function ZeroCounts(spdxIds: seq<string>): (m: map<string, int>)
    ensures m.Keys == KnownIds(spdxIds)
    ensures forall id :: id in m ==> m[id] == 0
  {
    if |spdxIds| == 0 then map[]
    else
      var init := spdxIds[..|spdxIds| - 1];
      assert spdxIds == init + [spdxIds[|spdxIds| - 1]];
      ZeroCounts(init)[spdxIds[|spdxIds| - 1] := 0]
  }

  /** Line 120: the grade of a present match; a null match has none. */
  function GradeOfMatch(matchPercent: Option<string>): (r: Result<Option<Grade>, Exception>)
    ensures r.Failure? <==> matchPercent.Some? && GetGrade(matchPercent.value).Failure?
    ensures r.Success? ==> (r.value.Some? <==> matchPercent.Some?)
    ensures r.Success? && r.value.Some? ==> GetGrade(matchPercent.value) == Success(r.value.value)
  {
    match matchPercent
    case None => Success(None)
    case Some(percent) =>
      var grade :- GetGrade(percent);
      Success(Some(grade))
  }

  /** Lines 124-125: `put(id, get(id) + 1)`; unboxing the null of a missing id throws. */
  function IncrementLicense(counts: map<string, int>, spdxId: string): (r: Result<map<string, int>, Exception>)
    ensures r.Failure? <==> spdxId !in counts
    ensures r.Success? ==> r.value.Keys == counts.Keys
    ensures r.Success? ==> forall id :: id in counts ==>
      r.value[id] == counts[id] + (if id == spdxId then 1 else 0)
  {
    if spdxId in counts then Success(counts[spdxId := counts[spdxId] + 1])
    else Failure(NullPointer)
  }

  /** Lines 118-133 for one detection. */
  function CountDetection(t: Tally, d: Detection): (r: Result<Tally, Exception>)
    ensures r.Failure? <==> Fault(d, t.licenses.Keys).Some?
    ensures r.Failure? ==> Fault(d, t.licenses.Keys) == Some(r.error)
  {
    var grade :- GradeOfMatch(d.matchPercent);
    var grades := if grade.Some? then t.grades[grade.value := GradeCount(t.grades, grade.value) + 1] else t.grades;
    var licenses :- if d.license.Some? then IncrementLicense(t.licenses, d.license.value.spdxId) else Success(t.licenses);
    Success(Tally(grades, licenses,
                  t.high + (if grade == Some(High) then 1 else 0),
                  t.issues + (if d.issue then 1 else 0)))
  }

  /** What counting one detection adds to each counter. */
  lemma CountDetectionAdds(t: Tally, d: Detection, t': Tally)
    requires CountDetection(t, d) == Success(t')
    ensures t'.licenses.Keys == t.licenses.Keys && t.grades.Keys <= t'.grades.Keys
    ensures forall g :: GradeCount(t'.grades, g) == GradeCount(t.grades, g) + (if Hits(d, GradedAs(g)) then 1 else 0)
    ensures forall id :: id in t.licenses ==>
      t'.licenses[id] == t.licenses[id] + (if Hits(d, LicensedAs(id)) then 1 else 0)
    ensures t'.high == t.high + (if Hits(d, GradedAs(High)) then 1 else 0)
    ensures t'.issues == t.issues + (if Hits(d, Issue) then 1 else 0)
  {
  }

  /** Lines 117-134: the detections of one record, in order; the first
      exception aborts. */
  function TallyDetections(ds: seq<Detection>, t: Tally): (r: Result<Tally, Exception>)
    ensures r.Failure? <==> FirstFault(ds, t.licenses.Keys).Some?
    ensures r.Failure? ==> FirstFault(ds, t.licenses.Keys) == Some(r.error)
    ensures r.Success? ==> r.value.licenses.Keys == t.licenses.Keys
  {
    if |ds| == 0 then Success(t)
    else
      var init := ds[..|ds| - 1];
      assert ds == init + [ds[|ds| - 1]];
      var t' :- TallyDetections(init, t);
      var r := CountDetection(t', ds[|ds| - 1]);
      if r.Success? then CountDetectionAdds(t', ds[|ds| - 1], r.value); r else r
  }

  /** What counting a record's detections adds to each counter. */
  lemma {:induction false} TallyDetectionsAdds(ds: seq<Detection>, t: Tally, t': Tally)
    requires TallyDetections(ds, t) == Success(t')
    ensures t.grades.Keys <= t'.grades.Keys
    ensures forall g :: GradeCount(t'.grades, g) == GradeCount(t.grades, g) + Count(ds, GradedAs(g))
    ensures forall id :: id in t.licenses ==>
      t'.licenses[id] == t.licenses[id] + Count(ds, LicensedAs(id))
    ensures t'.high == t.high + Count(ds, GradedAs(High))
    ensures t'.issues == t.issues + Count(ds, Issue)
  {
    if |ds| > 0 {
      var init := ds[..|ds| - 1];
      var mid := TallyDetections(init, t).value;
      TallyDetectionsAdds(init, t, mid);
      CountDetectionAdds(mid, ds[|ds| - 1], t');
    }
  }

  /** The state of the first pass after records `done`. */
  predicate Grouped(done: seq<PullRequest>, dayOf: Timestamp -> Day,
                    groups: map<Day, seq<PullRequest>>, senders: set<string>, repositories: set<string>) {
    && groups.Keys == Days(done, dayOf)
    && (forall d :: d in groups ==> groups[d] == Group(done, dayOf, d))
    && senders == Senders(done)
    && repositories == Repositories(done)
  }

  lemma GroupedStep(done: seq<PullRequest>, pr: PullRequest, dayOf: Timestamp -> Day,
                    groups: map<Day, seq<PullRequest>>, senders: set<string>, repositories: set<string>)
    requires Grouped(done, dayOf, groups, senders, repositories)
    ensures var day := dayOf(pr.date);
      Grouped(done + [pr], dayOf,
              groups[day := (if day in groups then groups[day] else []) + [pr]],
              senders + (if pr.sender.Some? then {pr.sender.value} else {}),
              repositories + (if HasRepository(pr) then {pr.repositoryName.value} else {}))
  {
    var day := dayOf(pr.date);
    SnocDays(done, pr, dayOf);
    SnocSenders(done, pr);
    SnocRepositories(done, pr);
    if day !in groups {
      GroupOfAbsentDay(done, dayOf, day);
    }
    var groups' := groups[day := (if day in groups then groups[day] else []) + [pr]];
    forall d | d in groups'
      ensures groups'[d] == Group(done + [pr], dayOf, d)
    {
      SnocWithin(done, pr, dayOf, {d});
    }
  }

  /** Lines 88-104: the records grouped by day, and the global distinct
      senders and repository names. */
  method GroupByDay(prs: seq<PullRequest>, dayOf: Timestamp -> Day)
    returns (groups: map<Day, seq<PullRequest>>, senders: set<string>, repositories: set<string>)
    ensures groups.Keys == Days(prs, dayOf)
    ensures forall d :: d in groups ==> groups[d] == Group(prs, dayOf, d)
    ensures senders == Senders(prs)
    ensures repositories == Repositories(prs)
  {
    groups, senders, repositories := map[], {}, {};
    for i := 0 to |prs|
      invariant Grouped(prs[..i], dayOf, groups, senders, repositories)
    {
      var pr := prs[i];
      assert prs[..i + 1] == prs[..i] + [pr];
      GroupedStep(prs[..i], pr, dayOf, groups, senders, repositories);
      var day := dayOf(pr.date);
      var forDay := if day in groups then groups[day] else [];
      groups := groups[day := forDay + [pr]];
      if pr.sender.Some? {
        senders := senders + {pr.sender.value};
      }
      if HasRepository(pr) {
        repositories := repositories + {pr.repositoryName.value};
      }
    }
    assert prs[..|prs|] == prs;
  }

  /** The grade counts of records `done`. */
  predicate GradesCounted(done: seq<PullRequest>, detections: PullRequest -> seq<Detection>, grades: map<Grade, int>) {
    && grades.Keys == AllGrades
    && forall g :: g in grades ==> grades[g] == Total(done, Weigh(detections, GradedAs(g)))
  }

  /** `counts` is `start` advanced by the licenses of records `done`. */
  predicate LicensesCounted(done: seq<PullRequest>, detections: PullRequest -> seq<Detection>,
                            start: map<string, int>, counts: map<string, int>) {
    && counts.Keys == start.Keys
    && forall id :: id in start ==> counts[id] == start[id] + Total(done, Weigh(detections, LicensedAs(id)))
  }

  /** The HIGH, issue and detection counters advanced by records `done`. */
  predicate CountersAdvanced(done: seq<PullRequest>, detections: PullRequest -> seq<Detection>,
                             high: int, issues: int, count: int, high': int, issues': int, count': int) {
    && high' == high + Total(done, Weigh(detections, GradedAs(High)))
    && issues' == issues + Total(done, Weigh(detections, Issue))
    && count' == count + Total(done, DetectionsOf(detections))
  }

  /** Lines 117-134 for one record: its detections counted into the day's
      outcome `o`, and its sender added when it names a repository. */
  function CountRecord(o: DayOutcome, pr: PullRequest, detections: PullRequest -> seq<Detection>): (r: Result<DayOutcome, Exception>)
    ensures r.Failure? <==> FirstFault(detections(pr), o.tally.licenses.Keys).Some?
    ensures r.Success? ==> r.value.tally.licenses.Keys == o.tally.licenses.Keys
  {
    var t :- TallyDetections(detections(pr), o.tally);
    var senders := o.senders + (if HasRepository(pr) && pr.sender.Some? then {pr.sender.value} else {});
    Success(DayOutcome(t, o.detectionCount + |detections(pr)|, senders))
  }

  /** Lines 107-136 for one day, record by record: the day's grade counts
      and senders, and the global counters carried forward. The first faulty
      detection aborts the count with its exception. */
  function CountGroup(group: seq<PullRequest>, detections: PullRequest -> seq<Detection>,
                      licenses: map<string, int>, high: int, issues: int, count: int): (r: Result<DayOutcome, Exception>)
    ensures r.Failure? <==> FirstFaultOf(group, detections, licenses.Keys).Some?
    ensures r.Failure? ==> FirstFaultOf(group, detections, licenses.Keys) == Some(r.error)
    ensures r.Success? ==> r.value.tally.licenses.Keys == licenses.Keys
  {
    if |group| == 0 then Success(DayOutcome(Tally(PutDefaultGrades(map[]), licenses, high, issues), count, {}))
    else
      var o :- CountGroup(group[..|group| - 1], detections, licenses, high, issues, count);
      CountRecord(o, group[|group| - 1], detections)
  }

  /** The outcome of a day's pass after its records `done`. */
  predicate DayCounted(done: seq<PullRequest>, detections: PullRequest -> seq<Detection>,
                       licenses: map<string, int>, high: int, issues: int, count: int, o: DayOutcome)
  {
    && GradesCounted(done, detections, o.tally.grades)
    && LicensesCounted(done, detections, licenses, o.tally.licenses)
    && CountersAdvanced(done, detections, high, issues, count, o.tally.high, o.tally.issues, o.detectionCount)
    && o.senders == RepositorySenders(done)
  }

  lemma GradesCountedStep(done: seq<PullRequest>, pr: PullRequest, detections: PullRequest -> seq<Detection>, o: DayOutcome, o': DayOutcome)
    requires GradesCounted(done, detections, o.tally.grades)
    requires CountRecord(o, pr, detections) == Success(o')
    ensures GradesCounted(done + [pr], detections, o'.tally.grades)
  {
    GradesExhaustive();
    TallyDetectionsAdds(detections(pr), o.tally, o'.tally);
    forall g | g in o'.tally.grades
      ensures o'.tally.grades[g] == Total(done + [pr], Weigh(detections, GradedAs(g)))
    {
      SnocWeigh(done, pr, detections, GradedAs(g));
      assert GradeCount(o'.tally.grades, g) == GradeCount(o.tally.grades, g) + Count(detections(pr), GradedAs(g));
    }
  }

  lemma LicensesCountedStep(done: seq<PullRequest>, pr: PullRequest, detections: PullRequest -> seq<Detection>,
                            start: map<string, int>, o: DayOutcome, o': DayOutcome)
    requires LicensesCounted(done, detections, start, o.tally.licenses)
    requires CountRecord(o, pr, detections) == Success(o')
    ensures LicensesCounted(done + [pr], detections, start, o'.tally.licenses)
  {
    TallyDetectionsAdds(detections(pr), o.tally, o'.tally);
    forall id | id in start
      ensures o'.tally.licenses[id] == start[id] + Total(done + [pr], Weigh(detections, LicensedAs(id)))
    {
      SnocWeigh(done, pr, detections, LicensedAs(id));
    }
  }

  lemma CountersAdvancedStep(done: seq<PullRequest>, pr: PullRequest, detections: PullRequest -> seq<Detection>,
                             high: int, issues: int, count: int, o: DayOutcome, o': DayOutcome)
    requires CountersAdvanced(done, detections, high, issues, count, o.tally.high, o.tally.issues, o.detectionCount)
    requires CountRecord(o, pr, detections) == Success(o')
    ensures CountersAdvanced(done + [pr], detections, high, issues, count, o'.tally.high, o'.tally.issues, o'.detectionCount)
  {
    TallyDetectionsAdds(detections(pr), o.tally, o'.tally);
    SnocWeigh(done, pr, detections, GradedAs(High));
    SnocWeigh(done, pr, detections, Issue);
    SnocTotal(done, pr, DetectionsOf(detections));
  }

  /** One more record of the day counted without an exception. */
  lemma CountRecordStep(done: seq<PullRequest>, pr: PullRequest, detections: PullRequest -> seq<Detection>,
                        licenses: map<string, int>, high: int, issues: int, count: int, o: DayOutcome, o': DayOutcome)
    requires DayCounted(done, detections, licenses, high, issues, count, o)
    requires CountRecord(o, pr, detections) == Success(o')
    ensures DayCounted(done + [pr], detections, licenses, high, issues, count, o')
  {
    GradesCountedStep(done, pr, detections, o, o');
    LicensesCountedStep(done, pr, detections, licenses, o, o');
    CountersAdvancedStep(done, pr, detections, high, issues, count, o, o');
    SnocRepositorySenders(done, pr);
  }

  /** A successful count of a day holds the day's totals so far. */
  lemma {:induction false} CountGroupCounts(group: seq<PullRequest>, detections: PullRequest -> seq<Detection>,
                                            licenses: map<string, int>, high: int, issues: int, count: int, o: DayOutcome)
    requires CountGroup(group, detections, licenses, high, issues, count) == Success(o)
    ensures DayCounted(group, detections, licenses, high, issues, count, o)
  {
    if |group| == 0 {
      GradesExhaustive();
    } else {
      var init := group[..|group| - 1];
      var pr := group[|group| - 1];
      assert group == init + [pr];
      var o0 := CountGroup(init, detections, licenses, high, issues, count).value;
      assert CountGroup(init, detections, licenses, high, issues, count) == Success(o0);
      assert CountRecord(o0, pr, detections) == Success(o);
      CountGroupCounts(init, detections, licenses, high, issues, count, o0);
      CountRecordStep(init, pr, detections, licenses, high, issues, count, o0, o);
      assert DayCounted(init + [pr], detections, licenses, high, issues, count, o);
    }
  }

  /** Once a prefix of the day fails, the whole day fails the same way. */
  lemma {:induction false} CountGroupFailurePersists(group: seq<PullRequest>, k: nat, detections: PullRequest -> seq<Detection>,
                                                     licenses: map<string, int>, high: int, issues: int, count: int)
    requires k <= |group|
    requires CountGroup(group[..k], detections, licenses, high, issues, count).Failure?
    ensures CountGroup(group, detections, licenses, high, issues, count) == CountGroup(group[..k], detections, licenses, high, issues, count)
    decreases |group|
  {
    if k < |group| {
      var init := group[..|group| - 1];
      assert init[..k] == group[..k];
      CountGroupFailurePersists(init, k, detections, licenses, high, issues, count);
    } else {
      assert group[..k] == group;
    }
  }

  /** The outcome of a day's pass: the day's grade counts, distinct senders
      and detection count, and the global counters advanced by the day. */
  predicate DayTotals(group: seq<PullRequest>, detections: PullRequest -> seq<Detection>,
                      licenses: map<string, int>, high: int, issues: int, count: int, o: DayOutcome) {
    && o.tally.grades == GradeTally(group, detections)
    && LicensesCounted(group, detections, licenses, o.tally.licenses)
    && CountersAdvanced(group, detections, high, issues, count, o.tally.high, o.tally.issues, o.detectionCount)
    && o.senders == RepositorySenders(group)
  }

  /** Grade counts with every grade present are the grade tally. */
  lemma GradesCountedTally(done: seq<PullRequest>, detections: PullRequest -> seq<Detection>, grades: map<Grade, int>)
    requires GradesCounted(done, detections, grades)
    ensures grades == GradeTally(done, detections)
  {
    GradesExhaustive();
  }

  /** A successful count of the whole day is exactly the day's totals, and
      the count fails exactly at the day's first faulty detection. */
  lemma CountGroupTotals(group: seq<PullRequest>, detections: PullRequest -> seq<Detection>,
                         licenses: map<string, int>, high: int, issues: int, count: int)
    ensures var r := CountGroup(group, detections, licenses, high, issues, count);
      r.Success? ==> DayTotals(group, detections, licenses, high, issues, count, r.value)
  {
    var r := CountGroup(group, detections, licenses, high, issues, count);
    if r.Success? {
      CountGroupCounts(group, detections, licenses, high, issues, count, r.value);
      GradesCountedTally(group, detections, r.value.tally.grades);
    }
  }

  /** The loop of lines 107-136 for one day, leaving at the first exception. */
  method CountDay(group: seq<PullRequest>, detections: PullRequest -> seq<Detection>,
                  licenses: map<string, int>, high: int, issues: int, count: int)
    returns (r: Result<DayOutcome, Exception>)
    ensures r == CountGroup(group, detections, licenses, high, issues, count)
  {
    var o := DayOutcome(Tally(PutDefaultGrades(map[]), licenses, high, issues), count, {});
    for j := 0 to |group|
      invariant CountGroup(group[..j], detections, licenses, high, issues, count) == Success(o)
    {
      assert group[..j + 1][..j] == group[..j];
      var next := CountRecord(o, group[j], detections);
      if next.Failure? {
        CountGroupFailurePersists(group, j + 1, detections, licenses, high, issues, count);
        return Failure(next.error);
      }
      o := next.value;
    }
    assert group[..|group|] == group;
    return Success(o);
  }

  // ---------------------------------------------------------------------------
  // The day loop (lines 106-142)

  /** The global license and detection counters after the days `done`. */
  predicate TotalsCounted(prs: seq<PullRequest>, detections: PullRequest -> seq<Detection>, dayOf: Timestamp -> Day,
                          spdxIds: seq<string>, done: set<Day>,
                          licenses: map<string, int>, high: int, issues: int, count: int) {
    var counted := Within(prs, dayOf, done);
    && LicensesCounted(counted, detections, ZeroCounts(spdxIds), licenses)
    && CountersAdvanced(counted, detections, 0, 0, 0, high, issues, count)
  }

  /** The elements added for the days `done`, one per day. */
  predicate ElementsFor(prs: seq<PullRequest>, detections: PullRequest -> seq<Detection>, dayOf: Timestamp -> Day,
                        done: set<Day>, byDates: seq<DayElement>) {
    && |byDates| == |done|
    && DatesOf(byDates) == done
    && DistinctDates(byDates)
    && forall i :: 0 <= i < |byDates| ==> byDates[i] == ExpectedDay(prs, detections, dayOf, byDates[i].date)
  }

  lemma TotalsCountedStep(prs: seq<PullRequest>, detections: PullRequest -> seq<Detection>, dayOf: Timestamp -> Day,
                          spdxIds: seq<string>, done: set<Day>, day: Day,
                          licenses: map<string, int>, high: int, issues: int, count: int, o: DayOutcome)
    requires day !in done
    requires TotalsCounted(prs, detections, dayOf, spdxIds, done, licenses, high, issues, count)
    requires DayTotals(Group(prs, dayOf, day), detections, licenses, high, issues, count, o)
    ensures TotalsCounted(prs, detections, dayOf, spdxIds, done + {day},
                          o.tally.licenses, o.tally.high, o.tally.issues, o.detectionCount)
  {
    forall id | id in licenses
      ensures Total(Within(prs, dayOf, done + {day}), Weigh(detections, LicensedAs(id)))
           == Total(Within(prs, dayOf, done), Weigh(detections, LicensedAs(id)))
            + Total(Group(prs, dayOf, day), Weigh(detections, LicensedAs(id)))
    {
      WithinAddDay(prs, dayOf, done, day, Weigh(detections, LicensedAs(id)));
    }
    WithinAddDay(prs, dayOf, done, day, Weigh(detections, GradedAs(High)));
    WithinAddDay(prs, dayOf, done, day, Weigh(detections, Issue));
    WithinAddDay(prs, dayOf, done, day, DetectionsOf(detections));
  }

  lemma SoundStep(prs: seq<PullRequest>, detections: PullRequest -> seq<Detection>, dayOf: Timestamp -> Day,
                  known: set<string>, done: set<Day>, day: Day)
    requires Sound(Within(prs, dayOf, done), detections, known)
    requires FirstFaultOf(Group(prs, dayOf, day), detections, known).None?
    ensures Sound(Within(prs, dayOf, done + {day}), detections, known)
  {
    FirstFaultOfIsFault(Group(prs, dayOf, day), detections, known);
  }

  lemma SnocDatesOf(es: seq<DayElement>, e: DayElement)
    ensures DatesOf(es + [e]) == DatesOf(es) + {e.date}
  {
    assert forall x :: x in es + [e] <==> x in es || x == e;
  }

  lemma SnocDistinctDates(es: seq<DayElement>, e: DayElement)
    requires DistinctDates(es) && e.date !in DatesOf(es)
    ensures DistinctDates(es + [e])
  {
    var es' := es + [e];
    forall i, j | 0 <= i < j < |es'| ensures es'[i].date != es'[j].date {
      if j == |es| {
        assert es[i] in es;
      }
    }
  }

  lemma ElementsForStep(prs: seq<PullRequest>, detections: PullRequest -> seq<Detection>, dayOf: Timestamp -> Day,
                        done: set<Day>, byDates: seq<DayElement>, day: Day, e: DayElement)
    requires day !in done
    requires ElementsFor(prs, detections, dayOf, done, byDates)
    requires e == ExpectedDay(prs, detections, dayOf, day)
    ensures ElementsFor(prs, detections, dayOf, done + {day}, byDates + [e])
  {
    SnocDatesOf(byDates, e);
    SnocDistinctDates(byDates, e);
    assert |done + {day}| == |done| + 1;
    var es := byDates + [e];
    forall i | 0 <= i < |es| ensures es[i] == ExpectedDay(prs, detections, dayOf, es[i].date) {
      if i < |byDates| {
        assert es[i] == byDates[i];
      }
    }
  }

  lemma MoveDay(done: set<Day>, remaining: set<Day>, day: Day)
    requires done !! remaining && day in remaining
    ensures (done + {day}) !! (remaining - {day})
    ensures (done + {day}) + (remaining - {day}) == done + remaining
    ensures |remaining - {day}| < |remaining|
  {
  }

  /** A faulty day shows the records cannot be counted. */
  lemma FaultyDay(prs: seq<PullRequest>, detections: PullRequest -> seq<Detection>, dayOf: Timestamp -> Day,
                  known: set<string>, day: Day)
    requires FirstFaultOf(Group(prs, dayOf, day), detections, known).Some?
    ensures !Sound(prs, detections, known)
    ensures exists pr, d ::
      pr in prs && d in detections(pr) && Fault(d, known) == FirstFaultOf(Group(prs, dayOf, day), detections, known)
  {
    FirstFaultOfIsFault(Group(prs, dayOf, day), detections, known);
  }

  /** Once every day is done, the counters are the totals of all records. */
  lemma AllDaysCounted(prs: seq<PullRequest>, detections: PullRequest -> seq<Detection>, dayOf: Timestamp -> Day,
                       spdxIds: seq<string>, licenses: map<string, int>, high: int, issues: int, count: int)
    requires TotalsCounted(prs, detections, dayOf, spdxIds, Days(prs, dayOf), licenses, high, issues, count)
    ensures licenses.Keys == KnownIds(spdxIds)
    ensures forall id :: id in licenses ==> licenses[id] == Total(prs, Weigh(detections, LicensedAs(id)))
    ensures count == Total(prs, DetectionsOf(detections))
    ensures high == Total(prs, Weigh(detections, GradedAs(High)))
    ensures issues == Total(prs, Weigh(detections, Issue))
  {
    WithinAllDays(prs, dayOf, Days(prs, dayOf));
  }

  /** The global counters and the elements so far of the day loop. */
  datatype Progress = Progress(licenses: map<string, int>, high: int, issues: int, count: int, byDates: seq<DayElement>)

  /** Lines 107-141 for one day: count its records, then add its element. */
  function CountNextDay(p: Progress, prs: seq<PullRequest>, detections: PullRequest -> seq<Detection>,
                        dayOf: Timestamp -> Day, day: Day): (r: Result<Progress, Exception>)
    ensures r.Failure? <==> FirstFaultOf(Group(prs, dayOf, day), detections, p.licenses.Keys).Some?
    ensures r.Success? ==> r.value.licenses.Keys == p.licenses.Keys
  {
    var group := Group(prs, dayOf, day);
    var o :- CountGroup(group, detections, p.licenses, p.high, p.issues, p.count);
    Success(Progress(o.tally.licenses, o.tally.high, o.tally.issues, o.detectionCount,
                     p.byDates + [DayElement(day, |o.senders|, |group|, o.tally.grades)]))
  }

  /** Lines 83-86 and 106-142 with the days visited in the order `order`. */
  function CountDays(prs: seq<PullRequest>, detections: PullRequest -> seq<Detection>, dayOf: Timestamp -> Day,
                     spdxIds: seq<string>, order: seq<Day>): (r: Result<Progress, Exception>)
    ensures r.Success? ==> r.value.licenses.Keys == KnownIds(spdxIds)
  {
    if |order| == 0 then Success(Progress(ZeroCounts(spdxIds), 0, 0, 0, []))
    else
      var p :- CountDays(prs, detections, dayOf, spdxIds, order[..|order| - 1]);
      CountNextDay(p, prs, detections, dayOf, order[|order| - 1])
  }

  function DaySet(order: seq<Day>): set<Day> {
    set d | d in order
  }

  predicate Distinct(order: seq<Day>) {
    forall i, j :: 0 <= i < j < |order| ==> order[i] != order[j]
  }

  lemma SnocOrder(order: seq<Day>, day: Day)
    requires Distinct(order) && day !in DaySet(order)
    ensures Distinct(order + [day])
    ensures DaySet(order + [day]) == DaySet(order) + {day}
  {
  }

  lemma CountDaysSnoc(prs: seq<PullRequest>, detections: PullRequest -> seq<Detection>, dayOf: Timestamp -> Day,
                      spdxIds: seq<string>, order: seq<Day>, p: Progress, day: Day)
    requires CountDays(prs, detections, dayOf, spdxIds, order) == Success(p)
    ensures CountDays(prs, detections, dayOf, spdxIds, order + [day]) == CountNextDay(p, prs, detections, dayOf, day)
  {
    assert (order + [day])[..|order|] == order;
  }

  /** What a successful day loop has computed, for any order of distinct days. */
  lemma {:induction false} CountDaysCounts(prs: seq<PullRequest>, detections: PullRequest -> seq<Detection>,
                                           dayOf: Timestamp -> Day, spdxIds: seq<string>, order: seq<Day>, p: Progress)
    requires Distinct(order)
    requires CountDays(prs, detections, dayOf, spdxIds, order) == Success(p)
    ensures TotalsCounted(prs, detections, dayOf, spdxIds, DaySet(order), p.licenses, p.high, p.issues, p.count)
    ensures Sound(Within(prs, dayOf, DaySet(order)), detections, KnownIds(spdxIds))
    ensures ElementsFor(prs, detections, dayOf, DaySet(order), p.byDates)
  {
    if |order| == 0 {
      WithinNoDay(prs, dayOf);
      assert DaySet(order) == {};
    } else {
      var init := order[..|order| - 1];
      var day := order[|order| - 1];
      assert order == init + [day];
      assert Distinct(init);
      assert day !in DaySet(init);
      SnocOrder(init, day);
      var p0 := CountDays(prs, detections, dayOf, spdxIds, init).value;
      assert CountDays(prs, detections, dayOf, spdxIds, init) == Success(p0);
      CountDaysCounts(prs, detections, dayOf, spdxIds, init, p0);
      var group := Group(prs, dayOf, day);
      var o := CountGroup(group, detections, p0.licenses, p0.high, p0.issues, p0.count).value;
      assert p == Progress(o.tally.licenses, o.tally.high, o.tally.issues, o.detectionCount,
                           p0.byDates + [DayElement(day, |o.senders|, |group|, o.tally.grades)]);
      CountGroupTotals(group, detections, p0.licenses, p0.high, p0.issues, p0.count);
      TotalsCountedStep(prs, detections, dayOf, spdxIds, DaySet(init), day, p0.licenses, p0.high, p0.issues, p0.count, o);
      SoundStep(prs, detections, dayOf, KnownIds(spdxIds), DaySet(init), day);
      ElementsForStep(prs, detections, dayOf, DaySet(init), p0.byDates, day, DayElement(day, |o.senders|, |group|, o.tally.grades));
    }
  }

  /** A failed day loop fails with the exception of a faulty detection. */
  lemma {:induction false} CountDaysFault(prs: seq<PullRequest>, detections: PullRequest -> seq<Detection>,
                                          dayOf: Timestamp -> Day, spdxIds: seq<string>, order: seq<Day>)
    requires CountDays(prs, detections, dayOf, spdxIds, order).Failure?
    ensures !Sound(prs, detections, KnownIds(spdxIds))
    ensures exists pr, d ::
      pr in prs && d in detections(pr) && Some(CountDays(prs, detections, dayOf, spdxIds, order).error) == Fault(d, KnownIds(spdxIds))
  {
    var init := order[..|order| - 1];
    if CountDays(prs, detections, dayOf, spdxIds, init).Failure? {
      CountDaysFault(prs, detections, dayOf, spdxIds, init);
    } else {
      var p := CountDays(prs, detections, dayOf, spdxIds, init).value;
      FaultyDay(prs, detections, dayOf, KnownIds(spdxIds), order[|order| - 1]);
    }
  }

  /** The day loop over every day builds the dashboard of all the records. */
  lemma AllDaysSummarised(name: string, prs: seq<PullRequest>, detections: PullRequest -> seq<Detection>,
                          dayOf: Timestamp -> Day, spdxIds: seq<string>, order: seq<Day>, p: Progress)
    requires Distinct(order) && DaySet(order) == Days(prs, dayOf)
    requires CountDays(prs, detections, dayOf, spdxIds, order) == Success(p)
    ensures Sound(prs, detections, KnownIds(spdxIds))
    ensures Summarises(Dashboard(name, p.licenses, p.count, p.high, p.issues, |Senders(prs)|, |Repositories(prs)|, p.byDates),
                       name, prs, detections, dayOf, spdxIds)
  {
    CountDaysCounts(prs, detections, dayOf, spdxIds, order, p);
    AllDaysCounted(prs, detections, dayOf, spdxIds, p.licenses, p.high, p.issues, p.count);
    WithinAllDays(prs, dayOf, Days(prs, dayOf));
  }

  /** Lines 106-142: the day loop over the groups of `prs`, visiting the
      days in an order the model leaves open, as the HashMap does; `order`
      is the order taken. */
  method VisitDays(prs: seq<PullRequest>, detections: PullRequest -> seq<Detection>, dayOf: Timestamp -> Day,
                   spdxIds: seq<string>, groups: map<Day, seq<PullRequest>>)
    returns (r: Result<Progress, Exception>, ghost order: seq<Day>)
    requires groups.Keys == Days(prs, dayOf)
    requires forall d {:trigger groups[d]} :: d in groups ==> groups[d] == Group(prs, dayOf, d)
    ensures r == CountDays(prs, detections, dayOf, spdxIds, order)
    ensures Distinct(order) && DaySet(order) <= Days(prs, dayOf)
    ensures r.Success? ==> DaySet(order) == Days(prs, dayOf)
    ensures r.Success? ==> r.value.licenses.Keys == KnownIds(spdxIds)
  {
    var p := Progress(ZeroCounts(spdxIds), 0, 0, 0, []);
    var remaining := groups.Keys;
    order := [];
    while remaining != {}
      invariant DaySet(order) !! remaining && DaySet(order) + remaining == Days(prs, dayOf)
      invariant Distinct(order)
      invariant CountDays(prs, detections, dayOf, spdxIds, order) == Success(p)
      decreases |remaining|
    {
      var day :| day in remaining;
      var result := CountDay(groups[day], detections, p.licenses, p.high, p.issues, p.count);
      CountDaysSnoc(prs, detections, dayOf, spdxIds, order, p, day);
      SnocOrder(order, day);
      if result.Failure? {
        return result.PropagateFailure(), order + [day];
      }
      var o := result.value;
      p := Progress(o.tally.licenses, o.tally.high, o.tally.issues, o.detectionCount,
                    p.byDates + [DayElement(day, |o.senders|, |groups[day]|, o.tally.grades)]);
      MoveDay(DaySet(order), remaining, day);
      order := order + [day];
      remaining := remaining - {day};
    }
    return Success(p), order;
  }

  /** Lines 68-152 after the access check: the dashboard of `prs`, or the
      exception its first faulty detection raises. */
  method Aggregate(name: string, prs: seq<PullRequest>, detections: PullRequest -> seq<Detection>,
                   dayOf: Timestamp -> Day, spdxIds: seq<string>)
    returns (r: Result<Dashboard, Exception>)
    ensures r.Success? <==> Sound(prs, detections, KnownIds(spdxIds))
    ensures r.Success? ==> Summarises(r.value, name, prs, detections, dayOf, spdxIds)
    ensures r.Failure? ==> RaisedBy(prs, detections, KnownIds(spdxIds), r.error)
  {
    var groups, senders, repositories := GroupByDay(prs, dayOf);
    var result;
    ghost var order;
    result, order := VisitDays(prs, detections, dayOf, spdxIds, groups);
    if result.Failure? {
      CountDaysFault(prs, detections, dayOf, spdxIds, order);
      return Failure(result.error);
    }
    var p := result.value;
    AllDaysSummarised(name, prs, detections, dayOf, spdxIds, order, p);
    return Success(Dashboard(name, p.licenses, p.count, p.high, p.issues, |senders|, |repositories|, p.byDates));
  }

  /** Lines 49-67 and 68-152: the dashboard of the records the viewer may
      see, read with the query their scope selects. */
  method GetDashboardEntity(scope: string, name: string, viewer: Member,
                            byBase: seq<PullRequest>, bySenderOrHead: seq<PullRequest>,
                            detections: PullRequest -> seq<Detection>, dayOf: Timestamp -> Day, spdxIds: seq<string>)
    returns (r: Result<Dashboard, Exception>)
    ensures Authorize(scope, name, viewer).Failure? ==> r == Failure(Authorize(scope, name, viewer).error)
    ensures Authorize(scope, name, viewer).Success? ==>
      var prs := PathCheck(scope, name, viewer, byBase, bySenderOrHead).value;
      && (r.Success? <==> Sound(prs, detections, KnownIds(spdxIds)))
      && (r.Success? ==> Summarises(r.value, name, prs, detections, dayOf, spdxIds))
      && (r.Failure? ==> RaisedBy(prs, detections, KnownIds(spdxIds), r.error))
  {
    var prs :- PathCheck(scope, name, viewer, byBase, bySenderOrHead);
    r := Aggregate(name, prs, detections, dayOf, spdxIds);
  }
}
