/**
 * The fields of LPVSPullRequest and LPVSDetectedLicense that the dashboard
 * reads, and reference definitions of every tally the dashboard reports:
 * how many detections of a record set have a property, grouping by
 * calendar day, and the distinct-sender and distinct-repository sets.
 */
module Records {
  import opened Wrappers
  import opened Grades

  /** `pr.getDate().getTime()`: milliseconds since the epoch. */
  type Timestamp = int
  /** A calendar day, as produced by the (time-zone dependent) `toLocalDate()`. */
  type Day = int

  datatype License = License(spdxId: string)

  /** One detected license in a pull request; `matchPercent` is e.g. "85%". */
  datatype Detection = Detection(matchPercent: Option<string>, issue: bool, license: Option<License>)

  /** `id` is the entity's key: the detections of a pull request are looked
      up per entity (`findNotNullDLByPR`, line 113), not per field values. */
  datatype PullRequest = PullRequest(id: int, date: Timestamp, sender: Option<string>, repositoryName: Option<string>)

  /** Neither null nor empty (lines 100 and 114). */
  predicate HasRepository(pr: PullRequest) {
    pr.repositoryName.Some? && pr.repositoryName.value != ""
  }

  /** A property of a single detection that the dashboard counts. */
  datatype Measure =
    | Issue
    | Matched
    | GradedAs(grade: Grade)
    | LicensedAs(spdxId: string)

  predicate Hits(d: Detection, m: Measure) {
    match m
    case Issue => d.issue
    case Matched => d.matchPercent.Some?
    case GradedAs(g) => d.matchPercent.Some? && GetGrade(d.matchPercent.value) == Success(g)
    case LicensedAs(id) => d.license == Some(License(id))
  }

  /** The number of detections in `ds` with property `m`. */
  function Count(ds: seq<Detection>, m: Measure): (n: nat)
    ensures n <= |ds|
    ensures n == 0 <==> forall i :: 0 <= i < |ds| ==> !Hits(ds[i], m)
  {
    if |ds| == 0 then 0
    else Count(ds[..|ds| - 1], m) + (if Hits(ds[|ds| - 1], m) then 1 else 0)
  }

  /** Weight of a record: its detections with property `m`. */
  function Weigh(detections: PullRequest -> seq<Detection>, m: Measure): PullRequest -> nat {
    pr => Count(detections(pr), m)
  }

  /** Weight of a record: the size of its detection list (`dlList.size()`). */
  function DetectionsOf(detections: PullRequest -> seq<Detection>): PullRequest -> nat {
    pr => |detections(pr)|
  }

  /** Weight of a record: one. */
  function PerRecord(): PullRequest -> nat {
    pr => 1
  }

  /** The sum of `w` over the records. */
  function Total(prs: seq<PullRequest>, w: PullRequest -> nat): nat {
    if |prs| == 0 then 0
    else Total(prs[..|prs| - 1], w) + w(prs[|prs| - 1])
  }

  /** The calendar days on which the records fall. */
  function Days(prs: seq<PullRequest>, dayOf: Timestamp -> Day): set<Day> {
    set pr | pr in prs :: dayOf(pr.date)
  }

  /** The records falling on one of the days `S`, in their original order. */
  function Within(prs: seq<PullRequest>, dayOf: Timestamp -> Day, S: set<Day>): (r: seq<PullRequest>)
    ensures forall pr :: pr in r <==> pr in prs && dayOf(pr.date) in S
    ensures |r| <= |prs|
  {
    if |prs| == 0 then []
    else
      var last := prs[|prs| - 1];
      var init := Within(prs[..|prs| - 1], dayOf, S);
      assert prs == prs[..|prs| - 1] + [last];
      if dayOf(last.date) in S then init + [last] else init
  }

  /** The records of one calendar day (`datePrMap.get(localDate)`). */
  function Group(prs: seq<PullRequest>, dayOf: Timestamp -> Day, d: Day): seq<PullRequest> {
    Within(prs, dayOf, {d})
  }

  /** Distinct non-null senders (`totalSenderSet` after `remove(null)`). */
  function Senders(prs: seq<PullRequest>): set<string> {
    set pr | pr in prs && pr.sender.Some? :: pr.sender.value
  }

  /** Distinct non-null, non-empty repository names (`totalRepositorySet`). */
  function Repositories(prs: seq<PullRequest>): set<string> {
    set pr | pr in prs && HasRepository(pr) :: pr.repositoryName.value
  }

  /** Distinct non-null senders of the records that name a repository (`senderSet`). */
  function RepositorySenders(prs: seq<PullRequest>): set<string> {
    set pr | pr in prs && HasRepository(pr) && pr.sender.Some? :: pr.sender.value
  }

  /** Counting `PerRecord` counts the records. */
  lemma {:induction false} TotalPerRecord(prs: seq<PullRequest>)
    ensures Total(prs, PerRecord()) == |prs|
  {
    if |prs| > 0 {
      TotalPerRecord(prs[..|prs| - 1]);
    }
  }

  /** A pointwise smaller weight has a smaller total. */
  lemma {:induction false} TotalMonotone(prs: seq<PullRequest>, w: PullRequest -> nat, w': PullRequest -> nat)
    requires forall pr :: pr in prs ==> w(pr) <= w'(pr)
    ensures Total(prs, w) <= Total(prs, w')
  {
    if |prs| > 0 {
      TotalMonotone(prs[..|prs| - 1], w, w');
    }
  }

  /** Adding a day that was not yet counted adds exactly that day's group. */
  lemma {:induction false} WithinAddDay(prs: seq<PullRequest>, dayOf: Timestamp -> Day, S: set<Day>, d: Day, w: PullRequest -> nat)
    requires d !in S
    ensures Total(Within(prs, dayOf, S + {d}), w)
         == Total(Within(prs, dayOf, S), w) + Total(Group(prs, dayOf, d), w)
  {
    if |prs| > 0 {
      var init := prs[..|prs| - 1];
      var last := prs[|prs| - 1];
      WithinAddDay(init, dayOf, S, d, w);
      SnocTotal(Within(init, dayOf, S + {d}), last, w);
      SnocTotal(Within(init, dayOf, S), last, w);
      SnocTotal(Within(init, dayOf, {d}), last, w);
    }
  }

  lemma SnocTotal(prs: seq<PullRequest>, pr: PullRequest, w: PullRequest -> nat)
    ensures Total(prs + [pr], w) == Total(prs, w) + w(pr)
  {
    assert (prs + [pr])[..|prs|] == prs;
  }

  lemma SnocWithin(prs: seq<PullRequest>, pr: PullRequest, dayOf: Timestamp -> Day, S: set<Day>)
    ensures Within(prs + [pr], dayOf, S) == Within(prs, dayOf, S) + (if dayOf(pr.date) in S then [pr] else [])
  {
    assert (prs + [pr])[..|prs|] == prs;
  }

  /** A day none of the records falls on has an empty group. */
  lemma {:induction false} GroupOfAbsentDay(prs: seq<PullRequest>, dayOf: Timestamp -> Day, d: Day)
    requires d !in Days(prs, dayOf)
    ensures Group(prs, dayOf, d) == []
  {
    if |prs| > 0 {
      var init := prs[..|prs| - 1];
      assert prs[|prs| - 1] in prs;
      assert Days(init, dayOf) <= Days(prs, dayOf) by {
        forall e | e in Days(init, dayOf) ensures e in Days(prs, dayOf) {
          var pr :| pr in init && dayOf(pr.date) == e;
          assert pr in prs;
        }
      }
      GroupOfAbsentDay(init, dayOf, d);
    }
  }

  lemma SnocWeigh(prs: seq<PullRequest>, pr: PullRequest, detections: PullRequest -> seq<Detection>, m: Measure)
    ensures Total(prs + [pr], Weigh(detections, m)) == Total(prs, Weigh(detections, m)) + Count(detections(pr), m)
  {
    SnocTotal(prs, pr, Weigh(detections, m));
  }

  lemma SnocDays(prs: seq<PullRequest>, pr: PullRequest, dayOf: Timestamp -> Day)
    ensures Days(prs + [pr], dayOf) == Days(prs, dayOf) + {dayOf(pr.date)}
  {
  }

  lemma SnocSenders(prs: seq<PullRequest>, pr: PullRequest)
    ensures Senders(prs + [pr]) == Senders(prs) + (if pr.sender.Some? then {pr.sender.value} else {})
  {
  }

  lemma SnocRepositories(prs: seq<PullRequest>, pr: PullRequest)
    ensures Repositories(prs + [pr]) == Repositories(prs) + (if HasRepository(pr) then {pr.repositoryName.value} else {})
  {
  }

  lemma SnocRepositorySenders(prs: seq<PullRequest>, pr: PullRequest)
    ensures RepositorySenders(prs + [pr])
         == RepositorySenders(prs) + (if HasRepository(pr) && pr.sender.Some? then {pr.sender.value} else {})
  {
  }

  /** Selecting no day selects no record. */
  lemma WithinNoDay(prs: seq<PullRequest>, dayOf: Timestamp -> Day)
    ensures Within(prs, dayOf, {}) == []
  {
  }

  /** Selecting every day the records fall on selects all of them. */
  lemma {:induction false} WithinAllDays(prs: seq<PullRequest>, dayOf: Timestamp -> Day, S: set<Day>)
    requires Days(prs, dayOf) <= S
    ensures Within(prs, dayOf, S) == prs
  {
    if |prs| > 0 {
      var init := prs[..|prs| - 1];
      assert Days(init, dayOf) <= Days(prs, dayOf) by {
        forall d | d in Days(init, dayOf) ensures d in Days(prs, dayOf) {
          var pr :| pr in init && dayOf(pr.date) == d;
          assert pr in prs;
        }
      }
      assert prs[|prs| - 1] in prs;
      WithinAllDays(init, dayOf, S);
      assert prs == init + [prs[|prs| - 1]];
    }
  }

  /**
   * When every match parses, each matched detection lands in exactly one
   * grade, so the four grade counts add up to the matched detections.
   */
  lemma {:induction false} GradesPartitionMatched(ds: seq<Detection>)
    requires forall d :: d in ds && d.matchPercent.Some? ==> GetGrade(d.matchPercent.value).Success?
    ensures Count(ds, GradedAs(High)) + Count(ds, GradedAs(Middle)) + Count(ds, GradedAs(Low))
          + Count(ds, GradedAs(NoRisk)) == Count(ds, Matched)
  {
    if |ds| > 0 {
      var last := ds[|ds| - 1];
      assert last in ds;
      GradesPartitionMatched(ds[..|ds| - 1]);
    }
  }

  /** The grade partition summed over a set of records. */
  lemma {:induction false} TotalGradesPartitionMatched(prs: seq<PullRequest>, detections: PullRequest -> seq<Detection>)
    requires forall pr, d :: pr in prs && d in detections(pr) && d.matchPercent.Some? ==>
      GetGrade(d.matchPercent.value).Success?
    ensures Total(prs, Weigh(detections, GradedAs(High))) + Total(prs, Weigh(detections, GradedAs(Middle)))
          + Total(prs, Weigh(detections, GradedAs(Low))) + Total(prs, Weigh(detections, GradedAs(NoRisk)))
         == Total(prs, Weigh(detections, Matched))
  {
    if |prs| > 0 {
      var last := prs[|prs| - 1];
      assert last in prs;
      GradesPartitionMatched(detections(last));
      TotalGradesPartitionMatched(prs[..|prs| - 1], detections);
    }
  }
}
