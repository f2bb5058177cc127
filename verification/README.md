# LPVS dashboard statistics, modelled in Dafny

LPVS (License Pre-Validation Service) scans pull requests for open-source
licenses. This project models the part of LPVS that builds the web
dashboard (`LPVSStatisticsService`), together with the enum that names
webhook pull-request actions (`LPVSPullRequestAction`).

- **Access check (`pathCheck`).** A viewer asks for the "own", "org" or
  "send" dashboard of a name. The scope picks one of two repository
  queries, or raises `WrongAccessException`.
- **Aggregation (`getDashboardEntity`).**
  - Pull requests are grouped by calendar day.
  - Each detected license of each pull request is counted: by risk grade
    per day, by SPDX id across all days, as HIGH similarity, and as an
    issue.
  - Distinct senders and repositories are counted.
  - An exception thrown while counting aborts the whole dashboard.
- **Grading (`getGrade`).** A match string such as "85%" becomes
  HIGH (≥ 80), MIDDLE (≥ 50), LOW (≥ 30) or NONE.
  `putDefaultriskGradeMap` resets every grade's counter to zero.
- **Action codec.** `convertFrom` turns a webhook action string into an
  action, and `getPullRequestAction` does the reverse.

## How it is modelled

- **Java exceptions are values.** Every operation that can throw returns
  `Result<_, Exception>` (`wrappers.dfy`, `exceptions.dfy`). The operations
  that cannot throw on the inputs modelled return plain values:
  `Classify`, `PutDefaultGrades`, `Name` and `ConvertFrom`. These are the
  exceptions the model raises, each where the Java code raises it:
  - `NullPointerException` when `equals` is called on a null nickname or
    organization;
  - `NullPointerException` when `get(id) + 1` unboxes the missing counter
    of an SPDX id with no repository entry;
  - `StringIndexOutOfBoundsException` for `substring(0, -1)` on an empty
    match;
  - `NumberFormatException` from `Integer.parseInt`, including the case
    where the match ends in a character outside the Basic Multilingual
    Plane. Java's `length()` and `substring` count UTF-16 code units, so
    dropping the last unit leaves a lone high surrogate behind.

  The nulls and other cases the model does not represent are listed under
  "Left out".
- **Nullable fields are `Option`s.** This covers the member's nickname and
  organization, a pull request's sender and repository name, and a
  detection's match and license.
- **Every computation has a reference definition.**
  - `Records` defines each tally directly over the records: `Total`,
    `Weigh`, `Count`, `Within`/`Group`, `Senders`, `Repositories`.
  - `Statistics.Summarises` says what a correct dashboard contains.
  - `Statistics.Sound` says when no exception is raised.
  - The loops (`GroupByDay`, `CountDay`, `VisitDays`) are proved against
    recursive functions (`CountGroup`, `CountDays`). Those functions are
    in turn proved against the reference definitions.
- **Day order is open.** The day loop iterates `HashMap.keySet()`, whose
  order is unspecified. `VisitDays` therefore picks any remaining day and
  reports the order it took as a ghost output. The proofs hold for every
  order.
- **The scopes are "own", "org" and "send".**
- **The "org" check is reproduced literally.** It compares the viewer's
  organization with itself (line 58). Any viewer whose organization is
  set may therefore read the "org" dashboard of any name;
  `Access.OrgScopeIgnoresName` states this. A viewer with no organization
  gets a `NullPointerException`.

## Model

Source paths are relative to the repository root.

| member | source | states |
|---|---|---|
| IntParse.ParseInt | src/main/java/com/lpvs/service/LPVSStatisticsService.java:155 | a numeral parses iff it is an optional sign followed by one or more digits whose signed value is in the 32-bit range; the value is that signed value, and every character except a leading sign is a digit |
| IntParse.ParseIntToString | src/main/java/com/lpvs/service/LPVSStatisticsService.java:155 | every 32-bit int printed in decimal parses back to itself |
| IntParse.ParseIntOutOfRange | src/main/java/com/lpvs/service/LPVSStatisticsService.java:155 | a decimal number outside the 32-bit range does not parse |
| Grades.Classify | src/main/java/com/lpvs/service/LPVSStatisticsService.java:157-165 | the grade is HIGH iff the value is ≥ 80, MIDDLE iff it is in [50, 80), LOW iff it is in [30, 50), and NONE iff it is below 30 |
| Grades.ClassifyMonotone | src/main/java/com/lpvs/service/LPVSStatisticsService.java:157-165 | a larger match value never gets a lower grade |
| Grades.GetGrade | src/main/java/com/lpvs/service/LPVSStatisticsService.java:154-166 | an empty match throws StringIndexOutOfBounds; otherwise it succeeds iff the text before the last character parses as an int, and fails with NumberFormat if not; a match ending in a character outside the Basic Multilingual Plane throws NumberFormat; on success the grade is the threshold grade of the parsed value |
| Grades.GetGradeOfSupplementaryEnding | src/main/java/com/lpvs/service/LPVSStatisticsService.java:155 | any match ending in a surrogate pair, "85" followed by an emoji among them, throws NumberFormat, because dropping one UTF-16 unit leaves a lone surrogate |
| Grades.GetGradeOfPercent | src/main/java/com/lpvs/service/LPVSStatisticsService.java:154-166 | "<n>%" is graded by the thresholds on n, for every int n |
| Grades.GradeBoundaries | src/main/java/com/lpvs/service/LPVSStatisticsService.java:157-165 | "80%" is HIGH, "79%" and "50%" are MIDDLE, "49%" and "30%" are LOW, and "29%" and "0%" are NONE |
| Grades.GetGradeOfBarePercent | src/main/java/com/lpvs/service/LPVSStatisticsService.java:155 | a match that is just "%" throws NumberFormat |
| Grades.PutDefaultGrades | src/main/java/com/lpvs/service/LPVSStatisticsService.java:168-175 | the result has exactly the four grades as keys, each mapped to 0 |
| Grades.PutDefaultGradesIdempotent | src/main/java/com/lpvs/service/LPVSStatisticsService.java:168-175 | applying the defaults twice gives the same map as applying them once |
| Grades.PutDefaultGradesForgets | src/main/java/com/lpvs/service/LPVSStatisticsService.java:168-175 | the result does not depend on what the map held before |
| PullRequestActions.Name | src/main/java/com/lpvs/entity/enums/LPVSPullRequestAction.java:11-25 | every action's string is one of the five webhook action names |
| PullRequestActions.ConvertFrom | src/main/java/com/lpvs/entity/enums/LPVSPullRequestAction.java:27-41 | an action is returned iff the string is one of the five names, and the returned action has that name |
| PullRequestActions.ConvertFromName | src/main/java/com/lpvs/entity/enums/LPVSPullRequestAction.java:23-41 | round trip: converting an action's own name gives the action back |
| PullRequestActions.NameInjective | src/main/java/com/lpvs/entity/enums/LPVSPullRequestAction.java:11-15 | no two actions share a name |
| PullRequestActions.ConvertFromExact | src/main/java/com/lpvs/entity/enums/LPVSPullRequestAction.java:27-37 | convertFrom(s) is a iff a's name is s |
| PullRequestActions.ConvertFromUnknown | src/main/java/com/lpvs/entity/enums/LPVSPullRequestAction.java:38-40 | any other string gives null |
| PullRequestActions.ConvertFromIsCaseSensitive | src/main/java/com/lpvs/entity/enums/LPVSPullRequestAction.java:27-40 | differently cased names ("Opened", "SYNCHRONIZE") give null |
| Access.JavaEquals | src/main/java/com/lpvs/service/LPVSStatisticsService.java:57-60 | `receiver.equals(argument)` throws NullPointer iff the receiver is null, and is otherwise true iff the two strings are equal |
| Access.Authorize | src/main/java/com/lpvs/service/LPVSStatisticsService.java:52-64 | four iff conditions: when the base query is chosen, when the sender/head query is chosen, when equals on a null nickname or organization throws NullPointer, and when WrongAccess is thrown |
| Access.PathCheck | src/main/java/com/lpvs/service/LPVSStatisticsService.java:49-67 | fails iff the access decision fails, with the same exception; otherwise returns the result of the chosen query |
| Access.OwnScope | src/main/java/com/lpvs/service/LPVSStatisticsService.java:57-59 | with a nickname set, "own" returns the base query iff the name is the viewer's nickname, and WrongAccess otherwise |
| Access.OrgScopeIgnoresName | src/main/java/com/lpvs/service/LPVSStatisticsService.java:57-59 | a viewer whose organization is set may read the "org" dashboard of any name |
| Access.SendScope | src/main/java/com/lpvs/service/LPVSStatisticsService.java:60-61 | with a nickname set, "send" returns the sender/head query iff the name is the viewer's nickname, and WrongAccess otherwise |
| Access.UnknownScopeRefused | src/main/java/com/lpvs/service/LPVSStatisticsService.java:62-63 | any scope other than "own", "org" and "send" is refused with WrongAccess, whoever the viewer is |
| Records.Count | src/main/java/com/lpvs/service/LPVSStatisticsService.java:117-134 | a count of detections never exceeds their number, and it is zero iff no detection has the property |
| Records.Within | src/main/java/com/lpvs/service/LPVSStatisticsService.java:90-97 | a record is selected iff it is among the records and falls on one of the given days |
| Records.WithinAddDay | src/main/java/com/lpvs/service/LPVSStatisticsService.java:106-142 | adding a day not yet counted adds exactly that day's group to any total |
| Records.WithinAllDays | src/main/java/com/lpvs/service/LPVSStatisticsService.java:90-97 | selecting every day the records fall on selects all of them, in order |
| Records.TotalMonotone | src/main/java/com/lpvs/service/LPVSStatisticsService.java:117-135 | a pointwise smaller weight has a smaller total |
| Records.GradesPartitionMatched | src/main/java/com/lpvs/service/LPVSStatisticsService.java:118-122 | when every present match parses, the four grade counts add up to the number of detections with a match |
| Statistics.ZeroCounts | src/main/java/com/lpvs/service/LPVSStatisticsService.java:83-86 | there is one counter for each known SPDX id, and every counter is 0 |
| Statistics.GradeOfMatch | src/main/java/com/lpvs/service/LPVSStatisticsService.java:118-121 | a null match has no grade; a present match fails iff getGrade fails, and otherwise has getGrade's grade |
| Statistics.IncrementLicense | src/main/java/com/lpvs/service/LPVSStatisticsService.java:123-126 | fails with NullPointer iff the id has no counter; otherwise only that id's counter goes up, by one |
| Statistics.CountDetection | src/main/java/com/lpvs/service/LPVSStatisticsService.java:117-133 | counting a detection fails iff the detection is faulty (an unparseable match, or a license with no counter), with that fault's exception |
| Statistics.CountDetectionAdds | src/main/java/com/lpvs/service/LPVSStatisticsService.java:118-133 | one detection adds one to its grade, its license, HIGH and issue counters exactly when it has that property, and leaves the other counters unchanged |
| Statistics.TallyDetections | src/main/java/com/lpvs/service/LPVSStatisticsService.java:117-134 | counting a record's detections fails iff one of them is faulty, with the first fault's exception |
| Statistics.TallyDetectionsAdds | src/main/java/com/lpvs/service/LPVSStatisticsService.java:117-134 | each counter grows by the number of the record's detections that have its property |
| Statistics.FirstFaultOfIsFault | src/main/java/com/lpvs/service/LPVSStatisticsService.java:112-134 | there is no first fault iff the records are sound, and a first fault belongs to one of their detections |
| Statistics.GroupByDay | src/main/java/com/lpvs/service/LPVSStatisticsService.java:88-104 | there is one group per day the records fall on, holding that day's records in their original order; the senders are the distinct non-null senders, and the repositories are the distinct non-empty repository names |
| Statistics.CountRecord | src/main/java/com/lpvs/service/LPVSStatisticsService.java:112-135 | counting a record fails iff one of its detections is faulty, and it keeps the set of license ids |
| Statistics.CountGroup | src/main/java/com/lpvs/service/LPVSStatisticsService.java:107-136 | counting a day fails iff the day has a faulty detection, with the exception of the first one |
| Statistics.CountGroupCounts | src/main/java/com/lpvs/service/LPVSStatisticsService.java:107-136 | a successful day count holds the day's grade counts and the sender set of records with a repository, and advances the global license, HIGH, issue and detection counters by exactly the day's totals |
| Statistics.CountGroupTotals | src/main/java/com/lpvs/service/LPVSStatisticsService.java:107-140 | a successful day count's grade map is the day's grade tally, with all four grades present |
| Statistics.CountGroupFailurePersists | src/main/java/com/lpvs/service/LPVSStatisticsService.java:117-126 | once a prefix of the day throws, the whole day throws the same exception |
| Statistics.CountDay | src/main/java/com/lpvs/service/LPVSStatisticsService.java:107-136 | the loop over a day's records leaves at the first exception and equals the record-by-record count CountGroup |
| Statistics.CountNextDay | src/main/java/com/lpvs/service/LPVSStatisticsService.java:107-141 | a day's pass fails iff the day has a faulty detection, and it keeps the set of license ids |
| Statistics.CountDays | src/main/java/com/lpvs/service/LPVSStatisticsService.java:83-86 | a successful day loop has exactly one license counter per known SPDX id |
| Statistics.CountDaysCounts | src/main/java/com/lpvs/service/LPVSStatisticsService.java:106-142 | after any order of distinct days, the counters are the totals over those days' records, the records are sound, and there is exactly one correct element per day |
| Statistics.CountDaysFault | src/main/java/com/lpvs/service/LPVSStatisticsService.java:117-126 | a failed day loop means the records are not sound, and its exception is the fault of a detection among them |
| Statistics.AllDaysSummarised | src/main/java/com/lpvs/service/LPVSStatisticsService.java:106-151 | a successful loop over every day builds a dashboard that summarises all the records |
| Statistics.VisitDays | src/main/java/com/lpvs/service/LPVSStatisticsService.java:106-142 | the loop visits distinct days in some order; it equals the day-by-day count over that order; on success it has visited every day and keeps exactly one license counter per known SPDX id |
| Statistics.Aggregate | src/main/java/com/lpvs/service/LPVSStatisticsService.java:68-152 | succeeds iff no detection is faulty; on success the dashboard summarises the records, and on failure the exception is the fault of one of their detections |
| Statistics.GetDashboardEntity | src/main/java/com/lpvs/service/LPVSStatisticsService.java:68-152 | fails with pathCheck's exception when access is refused; otherwise it succeeds iff the permitted records are sound; on success its dashboard summarises them, and on failure the exception is the fault of one of their detections |
| DashboardFacts.DayRecordsAddUp | src/main/java/com/lpvs/service/LPVSStatisticsService.java:90-97 | every record is counted on exactly one day: the per-day record counts add up to the number of records |
| DashboardFacts.DayGradesAddUp | src/main/java/com/lpvs/service/LPVSStatisticsService.java:119-130 | the per-day counts of each grade add up to that grade's total; for HIGH the sum is highSimilarityCount |
| DashboardFacts.HighAndIssuesBounded | src/main/java/com/lpvs/service/LPVSStatisticsService.java:117-135 | the HIGH and issue counts are between 0 and the detection count |
| DashboardFacts.DayElementsBounded | src/main/java/com/lpvs/service/LPVSStatisticsService.java:107-116 | each day has all four grades and at least one record, and its participant count is at most the total participant count |
| DashboardFacts.DayGradesPartitionMatched | src/main/java/com/lpvs/service/LPVSStatisticsService.java:118-122 | in a sound dashboard, each day's four grade counts add up to that day's detections that carry a match |
| DashboardFacts.OneDayScenarioSound | src/main/java/com/lpvs/service/LPVSStatisticsService.java:117-126 | two records, one with an issue-flagged 90% MIT detection and the other with none, raise nothing when MIT is a known id |
| DashboardFacts.OneDayScenarioTotals | src/main/java/com/lpvs/service/LPVSStatisticsService.java:123-135 | for those two records, the MIT, issue, detection and HIGH totals are each 1, and MIT is the only license counter |
| DashboardFacts.OneDayScenarioDay | src/main/java/com/lpvs/service/LPVSStatisticsService.java:106-140 | the same two records on one calendar day, whatever their times, make a single element with one HIGH detection and two records |

## Left out

- The repositories and the session are inputs. The results of `findByPullRequestBase`, `findBySenderOrPullRequestHead`, `findNotNullDLByPR` and `takeAllSpdxId`, and the member that `getMemberFromMemberMap` resolves from the `Authentication`, are parameters. How the repositories fill them is not part of this model.
- Day conversion is abstract. `new Date(...).toLocalDate()` depends on the JVM's default time zone, so the timestamp-to-day mapping is a parameter `dayOf`.
- Logging is left out: the sender logging loop of lines 144-146 has no effect on the result.
- Statistics.Aggregate: the counters are unbounded integers. Java's 32-bit `int` counters would wrap only beyond about 2^31 detections, which the model does not track.
- IntParse.ParseInt: only the ASCII digits '0'-'9' are modelled, with an optional '+' or '-' sign. Java's `Character.digit` also accepts other Unicode decimal digits in the Basic Multilingual Plane, such as the Arabic-Indic digits. A match written with such digits gets a grade in Java, while `Grades.GetGrade` throws NumberFormat.
- Some nulls are not modelled. The model represents a null nickname, organization, sender, repository name, match and license. Inputs that could be null in Java but cannot be in the model:
  - a null `type` (scope), which throws `NullPointerException` at line 57;
  - a null member from `getMemberFromMemberMap`, which throws at line 52;
  - a null `name`: `equals(null)` is false, so "own" and "send" are refused, but "org" queries with a null name;
  - a null pull-request date (line 91), a null SPDX id (line 124) and a null boxed `issue` flag (line 131).
- PullRequestActions.ConvertFrom: the argument is never null. `convertFrom(null)` throws `NullPointerException` at line 28 of `LPVSPullRequestAction.java` rather than returning null.
- Only the fields the dashboard reads are modelled. The other fields of the pull-request and detected-license entities, the history pages and the rest of the service layer are outside the dashboard computation.
- The `Dashboard` and `DashboardElementsByDate` classes are modelled as datatypes with the same fields. Their getters and JSON mapping are not modelled.
