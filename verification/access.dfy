/**
 * `pathCheck` of LPVSStatisticsService: which pull-request query a viewer may
 * run for a requested scope ("own", "org" or "send") and name.
 */
module Access {
  import opened Wrappers
  import opened Exceptions
  import opened Records

  /** The viewer as resolved from the session; either field may be null. */
  datatype Member = Member(nickname: Option<string>, organization: Option<string>)

  /** The two repository queries a scope can select. */
  datatype Query = FindByPullRequestBase | FindBySenderOrPullRequestHead

  /** Java `receiver.equals(argument)` on strings: a null receiver throws. */
  function JavaEquals(receiver: Option<string>, argument: Option<string>): (r: Result<bool, Exception>)
    ensures r.Failure? <==> receiver.None?
    ensures r.Success? ==> (r.value <==> argument == receiver)
  {
    match receiver
    case None => Failure(NullPointer)
    case Some(s) => Success(argument == Some(s))
  }

  /**
   * The condition of lines 57-61 evaluated as Java does, left to right with
   * short-circuit `&&` and `||`. The "org" branch compares the viewer's
   * organization with itself, exactly as the code does.
   */
  function Authorize(scope: string, name: string, viewer: Member): (r: Result<Query, Exception>)
    ensures r == Success(FindByPullRequestBase) <==>
      (scope == "own" && viewer.nickname == Some(name)) || (scope == "org" && viewer.organization.Some?)
    ensures r == Success(FindBySenderOrPullRequestHead) <==>
      scope == "send" && viewer.nickname == Some(name)
    ensures r == Failure(NullPointer) <==>
      ((scope == "own" || scope == "send") && viewer.nickname.None?) || (scope == "org" && viewer.organization.None?)
    ensures r == Failure(WrongAccess) <==>
      (scope != "own" && scope != "org" && scope != "send")
      || ((scope == "own" || scope == "send") && viewer.nickname.Some? && viewer.nickname != Some(name))
  {
    var own :- if scope == "own" then JavaEquals(viewer.nickname, Some(name)) else Success(false);
    var org :- if !own && scope == "org" then JavaEquals(viewer.organization, viewer.organization) else Success(false);
    if own || org then Success(FindByPullRequestBase)
    else
      var send :- if scope == "send" then JavaEquals(viewer.nickname, Some(name)) else Success(false);
      if send then Success(FindBySenderOrPullRequestHead)
      else Failure(WrongAccess)
  }

  /**
   * `pathCheck`: the result of the authorised query, or the exception.
   * `byBase` and `bySenderOrHead` are what `findByPullRequestBase(name)` and
   * `findBySenderOrPullRequestHead(name)` return.
   */
  function PathCheck(scope: string, name: string, viewer: Member,
                     byBase: seq<PullRequest>, bySenderOrHead: seq<PullRequest>): (r: Result<seq<PullRequest>, Exception>)
    ensures r.Failure? <==> Authorize(scope, name, viewer).Failure?
    ensures r.Failure? ==> r.error == Authorize(scope, name, viewer).error
    ensures Authorize(scope, name, viewer) == Success(FindByPullRequestBase) ==> r == Success(byBase)
    ensures Authorize(scope, name, viewer) == Success(FindBySenderOrPullRequestHead) ==> r == Success(bySenderOrHead)
  {
    var query :- Authorize(scope, name, viewer);
    match query
    case FindByPullRequestBase => Success(byBase)
    case FindBySenderOrPullRequestHead => Success(bySenderOrHead)
  }

  /** Own dashboard: allowed exactly for the viewer's own nickname. */
  lemma OwnScope(name: string, viewer: Member, byBase: seq<PullRequest>, bySenderOrHead: seq<PullRequest>)
    requires viewer.nickname.Some?
    ensures PathCheck("own", name, viewer, byBase, bySenderOrHead)
         == if viewer.nickname == Some(name) then Success(byBase) else Failure(WrongAccess)
  {
  }

  /**
   * Because the organization is compared with itself, any viewer whose
   * organization is set may read the "org" dashboard of any name at all.
   */
  lemma OrgScopeIgnoresName(name: string, other: string, viewer: Member, byBase: seq<PullRequest>, bySenderOrHead: seq<PullRequest>)
    requires viewer.organization.Some?
    ensures PathCheck("org", name, viewer, byBase, bySenderOrHead) == Success(byBase)
    ensures Authorize("org", name, viewer) == Authorize("org", other, viewer)
  {
  }

  /** Sent dashboard: allowed exactly for the viewer's own nickname. */
  lemma SendScope(name: string, viewer: Member, byBase: seq<PullRequest>, bySenderOrHead: seq<PullRequest>)
    requires viewer.nickname.Some?
    ensures PathCheck("send", name, viewer, byBase, bySenderOrHead)
         == if viewer.nickname == Some(name) then Success(bySenderOrHead) else Failure(WrongAccess)
  {
  }

  /** The scope names are exact: anything else is refused whoever asks. */
  lemma UnknownScopeRefused(scope: string, name: string, viewer: Member, byBase: seq<PullRequest>, bySenderOrHead: seq<PullRequest>)
    requires scope != "own" && scope != "org" && scope != "send"
    ensures PathCheck(scope, name, viewer, byBase, bySenderOrHead) == Failure(WrongAccess)
  {
  }
}
