/**
 * What a dashboard built by `getDashboardEntity` says as a whole: the
 * per-day elements add up to the global counters, and each day stays
 * within the totals.
 */
module DashboardFacts {
  import opened Wrappers
  import opened Grades
  import opened Records
  import opened Statistics

  /** The sum of `pullRequestCount` over the elements. */
  function SumRecords(es: seq<DayElement>): int {
    if |es| == 0 then 0
    else SumRecords(es[..|es| - 1]) + es[|es| - 1].pullRequestCount
  }

  /** The sum of the count of grade `g` over the elements. */
  function SumGrade(es: seq<DayElement>, g: Grade): int {
    if |es| == 0 then 0
    else SumGrade(es[..|es| - 1], g) + GradeCount(es[|es| - 1].riskGrades, g)
  }

  /** The sum of `w` over the groups of the elements' days. */
  function SumGroups(prs: seq<PullRequest>, dayOf: Timestamp -> Day, es: seq<DayElement>, w: PullRequest -> nat): int {
    if |es| == 0 then 0
    else SumGroups(prs, dayOf, es[..|es| - 1], w) + Total(Group(prs, dayOf, es[|es| - 1].date), w)
  }

  /** Summing a weight day by day over distinct days sums it over the
      records of those days. */
  lemma {:induction false} SumGroupsWithin(prs: seq<PullRequest>, dayOf: Timestamp -> Day, es: seq<DayElement>, w: PullRequest -> nat)
    requires DistinctDates(es)
    ensures SumGroups(prs, dayOf, es, w) == Total(Within(prs, dayOf, DatesOf(es)), w)
  {
    if |es| == 0 {
      WithinNoDay(prs, dayOf);
      assert DatesOf(es) == {};
    } else {
      var init := es[..|es| - 1];
      var e := es[|es| - 1];
      assert es == init + [e];
      assert DistinctDates(init);
      assert e.date !in DatesOf(init) by {
        forall x | x in init ensures x.date != e.date {
          var i :| 0 <= i < |init| && init[i] == x;
          assert es[i] == x;
        }
      }
      SnocDatesOf(init, e);
      SumGroupsWithin(prs, dayOf, init, w);
      WithinAddDay(prs, dayOf, DatesOf(init), e.date, w);
    }
  }

  lemma {:induction false} RecordsOfDays(prs: seq<PullRequest>, detections: PullRequest -> seq<Detection>,
                                         dayOf: Timestamp -> Day, es: seq<DayElement>)
    requires forall i :: 0 <= i < |es| ==> es[i] == ExpectedDay(prs, detections, dayOf, es[i].date)
    ensures SumRecords(es) == SumGroups(prs, dayOf, es, PerRecord())
  {
    if |es| > 0 {
      var init := es[..|es| - 1];
      RecordsOfDays(prs, detections, dayOf, init);
      TotalPerRecord(Group(prs, dayOf, es[|es| - 1].date));
    }
  }

  lemma {:induction false} GradesOfDays(prs: seq<PullRequest>, detections: PullRequest -> seq<Detection>,
                                        dayOf: Timestamp -> Day, es: seq<DayElement>, g: Grade)
    requires forall i :: 0 <= i < |es| ==> es[i] == ExpectedDay(prs, detections, dayOf, es[i].date)
    ensures SumGrade(es, g) == SumGroups(prs, dayOf, es, Weigh(detections, GradedAs(g)))
  {
    if |es| > 0 {
      var init := es[..|es| - 1];
      GradesOfDays(prs, detections, dayOf, init, g);
      GradesExhaustive();
    }
  }

  /** Every record is counted on exactly one day: the day elements'
      `pullRequestCount`s add up to the number of records. */
  lemma DayRecordsAddUp(dash: Dashboard, name: string, prs: seq<PullRequest>,
                        detections: PullRequest -> seq<Detection>, dayOf: Timestamp -> Day, spdxIds: seq<string>)
    requires Summarises(dash, name, prs, detections, dayOf, spdxIds)
    ensures SumRecords(dash.byDates) == |prs|
  {
    RecordsOfDays(prs, detections, dayOf, dash.byDates);
    SumGroupsWithin(prs, dayOf, dash.byDates, PerRecord());
    WithinAllDays(prs, dayOf, Days(prs, dayOf));
    TotalPerRecord(prs);
  }

  /** The per-day counts of a grade add up to that grade's count over all
      records; for HIGH this is the dashboard's `highSimilarityCount`. */
  lemma DayGradesAddUp(dash: Dashboard, name: string, prs: seq<PullRequest>,
                       detections: PullRequest -> seq<Detection>, dayOf: Timestamp -> Day, spdxIds: seq<string>, g: Grade)
    requires Summarises(dash, name, prs, detections, dayOf, spdxIds)
    ensures SumGrade(dash.byDates, g) == Total(prs, Weigh(detections, GradedAs(g)))
    ensures SumGrade(dash.byDates, High) == dash.highSimilarityCount
  {
    GradesOfDays(prs, detections, dayOf, dash.byDates, g);
    SumGroupsWithin(prs, dayOf, dash.byDates, Weigh(detections, GradedAs(g)));
    GradesOfDays(prs, detections, dayOf, dash.byDates, High);
    SumGroupsWithin(prs, dayOf, dash.byDates, Weigh(detections, GradedAs(High)));
    WithinAllDays(prs, dayOf, Days(prs, dayOf));
  }

  /** A HIGH detection is a detection: the HIGH count never exceeds the
      detection count, and neither does the issue count. */
  lemma HighAndIssuesBounded(dash: Dashboard, name: string, prs: seq<PullRequest>,
                             detections: PullRequest -> seq<Detection>, dayOf: Timestamp -> Day, spdxIds: seq<string>)
    requires Summarises(dash, name, prs, detections, dayOf, spdxIds)
    ensures 0 <= dash.highSimilarityCount <= dash.totalDetectionCount
    ensures 0 <= dash.totalIssueCount <= dash.totalDetectionCount
  {
    TotalMonotone(prs, Weigh(detections, GradedAs(High)), DetectionsOf(detections));
    TotalMonotone(prs, Weigh(detections, Issue), DetectionsOf(detections));
  }

  /** Each day has a count for every grade, and its participants are among
      the dashboard's participants. */
  lemma DayElementsBounded(dash: Dashboard, name: string, prs: seq<PullRequest>,
                           detections: PullRequest -> seq<Detection>, dayOf: Timestamp -> Day, spdxIds: seq<string>)
    requires Summarises(dash, name, prs, detections, dayOf, spdxIds)
    ensures forall e :: e in dash.byDates ==> e.riskGrades.Keys == AllGrades
    ensures forall e :: e in dash.byDates ==> 0 < e.pullRequestCount && 0 <= e.participantCount <= dash.totalParticipantsCount
  {
    GradesExhaustive();
    forall e | e in dash.byDates
      ensures e.riskGrades.Keys == AllGrades
      ensures 0 < e.pullRequestCount && 0 <= e.participantCount <= dash.totalParticipantsCount
    {
      var group := Group(prs, dayOf, e.date);
      assert e.date in Days(prs, dayOf);
      var pr :| pr in prs && dayOf(pr.date) == e.date;
      assert pr in group;
      assert RepositorySenders(group) <= Senders(prs);
      SubsetCardinality(RepositorySenders(group), Senders(prs));
    }
  }

  lemma SubsetCardinality(a: set<string>, b: set<string>)
    requires a <= b
    ensures |a| <= |b|
  {
    assert b == a + (b - a);
  }

  /** Of a sound dashboard, each day's grade counts add up to the day's
      detections that carry a match. */
  lemma DayGradesPartitionMatched(dash: Dashboard, name: string, prs: seq<PullRequest>,
                                  detections: PullRequest -> seq<Detection>, dayOf: Timestamp -> Day, spdxIds: seq<string>)
    requires Sound(prs, detections, KnownIds(spdxIds))
    requires Summarises(dash, name, prs, detections, dayOf, spdxIds)
    ensures forall e :: e in dash.byDates ==>
      e.riskGrades[High] + e.riskGrades[Middle] + e.riskGrades[Low] + e.riskGrades[NoRisk]
      == Total(Group(prs, dayOf, e.date), Weigh(detections, Matched))
  {
    forall e | e in dash.byDates
      ensures e.riskGrades[High] + e.riskGrades[Middle] + e.riskGrades[Low] + e.riskGrades[NoRisk]
           == Total(Group(prs, dayOf, e.date), Weigh(detections, Matched))
    {
      var group := Group(prs, dayOf, e.date);
      forall pr, d | pr in group && d in detections(pr) && d.matchPercent.Some?
        ensures GetGrade(d.matchPercent.value).Success?
      {
        assert Fault(d, KnownIds(spdxIds)) == None;
      }
      TotalGradesPartitionMatched(group, detections);
    }
  }

  /** Two records, the first with one issue-flagged MIT detection matching
      90% and the second with none, raise nothing when MIT has a counter, so
      `Statistics.Aggregate` succeeds on them. */
  lemma OneDayScenarioSound(detections: PullRequest -> seq<Detection>, first: PullRequest, second: PullRequest)
    requires detections(first) == [Detection(Some("90%"), true, Some(License("MIT")))]
    requires detections(second) == []
    ensures Sound([first, second], detections, KnownIds(["MIT"]))
  {
    Boundary(90, "90%");
    assert "MIT" in KnownIds(["MIT"]) by {
      assert ["MIT"][0] == "MIT";
    }
  }

  /** Two records of one day, the first with one HIGH, issue-flagged MIT
      detection and the second with none: MIT, issue, detection and HIGH
      totals of one. */
  lemma OneDayScenarioTotals(dash: Dashboard, name: string, detections: PullRequest -> seq<Detection>,
                             dayOf: Timestamp -> Day, first: PullRequest, second: PullRequest)
    requires detections(first) == [Detection(Some("90%"), true, Some(License("MIT")))]
    requires detections(second) == []
    requires Summarises(dash, name, [first, second], detections, dayOf, ["MIT"])
    ensures dash.licenseCounts.Keys == {"MIT"} && dash.licenseCounts["MIT"] == 1
    ensures dash.totalIssueCount == 1 && dash.totalDetectionCount == 1 && dash.highSimilarityCount == 1
  {
    ScenarioWeights(detections, first, second);
    assert KnownIds(["MIT"]) == {"MIT"};
  }

  /** The same two records, both on one day: a single day element, holding
      both records and the one HIGH detection. */
  lemma OneDayScenarioDay(dash: Dashboard, name: string, detections: PullRequest -> seq<Detection>,
                          dayOf: Timestamp -> Day, first: PullRequest, second: PullRequest)
    requires dayOf(first.date) == dayOf(second.date)
    requires detections(first) == [Detection(Some("90%"), true, Some(License("MIT")))]
    requires detections(second) == []
    requires Summarises(dash, name, [first, second], detections, dayOf, ["MIT"])
    ensures |dash.byDates| == 1 && dash.byDates[0].date == dayOf(first.date)
    ensures dash.byDates[0].riskGrades[High] == 1 && dash.byDates[0].pullRequestCount == 2
  {
    var prs := [first, second];
    var day := dayOf(first.date);
    DaysPair(first, second, dayOf);
    WithinPair(first, second, dayOf, {day});
    OnlyDate(dash.byDates, day);
    ScenarioWeights(detections, first, second);
    assert dash.byDates[0] == ExpectedDay(prs, detections, dayOf, day);
  }

  /** The totals of the scenario's two records. */
  lemma ScenarioWeights(detections: PullRequest -> seq<Detection>, first: PullRequest, second: PullRequest)
    requires detections(first) == [Detection(Some("90%"), true, Some(License("MIT")))]
    requires detections(second) == []
    ensures Total([first, second], Weigh(detections, GradedAs(High))) == 1
    ensures Total([first, second], Weigh(detections, Issue)) == 1
    ensures Total([first, second], Weigh(detections, LicensedAs("MIT"))) == 1
    ensures Total([first, second], DetectionsOf(detections)) == 1
  {
    var d := Detection(Some("90%"), true, Some(License("MIT")));
    assert Hits(d, GradedAs(High)) by {
      Boundary(90, "90%");
    }
    CountSingle(d, GradedAs(High));
    CountSingle(d, Issue);
    CountSingle(d, LicensedAs("MIT"));
    TotalPair(first, second, Weigh(detections, GradedAs(High)));
    TotalPair(first, second, Weigh(detections, Issue));
    TotalPair(first, second, Weigh(detections, LicensedAs("MIT")));
    TotalPair(first, second, DetectionsOf(detections));
  }

  lemma CountSingle(d: Detection, m: Measure)
    ensures Count([d], m) == if Hits(d, m) then 1 else 0
  {
    assert [d][..0] == [];
  }

  lemma TotalPair(a: PullRequest, b: PullRequest, w: PullRequest -> nat)
    ensures Total([a, b], w) == w(a) + w(b)
  {
    assert [a, b][..1] == [a];
    assert [a][..0] == [];
    assert Total([a], w) == w(a);
  }

  lemma WithinPair(a: PullRequest, b: PullRequest, dayOf: Timestamp -> Day, S: set<Day>)
    requires dayOf(a.date) in S && dayOf(b.date) in S
    ensures Within([a, b], dayOf, S) == [a, b]
  {
    assert [a, b][..1] == [a];
    assert [a][..0] == [];
  }

  lemma DaysPair(a: PullRequest, b: PullRequest, dayOf: Timestamp -> Day)
    ensures Days([a, b], dayOf) == {dayOf(a.date), dayOf(b.date)}
  {
    assert a in [a, b] && b in [a, b];
  }

  lemma OnlyDate(es: seq<DayElement>, day: Day)
    requires |es| == 1 && DatesOf(es) == {day}
    ensures es[0].date == day
  {
    assert es[0] in es;
  }
}
