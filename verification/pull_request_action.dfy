/** com.lpvs.entity.enums.LPVSPullRequestAction: webhook action names. */
module PullRequestActions {
  import opened Wrappers

  datatype Action = Open | Reopen | Close | Update | Rescan

  /** The five action strings a webhook can carry. */
  const ActionNames: set<string> := {"opened", "reopened", "closed", "synchronize", "rescan"}

  /** `getPullRequestAction`: the string each constant was declared with. */
  function Name(a: Action): (s: string)
    ensures s in ActionNames
  {
    match a
    case Open => "opened"
    case Reopen => "reopened"
    case Close => "closed"
    case Update => "synchronize"
    case Rescan => "rescan"
  }

  /**
   * `convertFrom`: tries the constants in declaration order with exact,
   * case-sensitive `String.equals`; `null` (here `None`) when none matches.
   */
  function ConvertFrom(action: string): (r: Option<Action>)
    ensures r.Some? <==> action in ActionNames
    ensures r.Some? ==> Name(r.value) == action
  {
    if action == Name(Open) then Some(Open)
    else if action == Name(Reopen) then Some(Reopen)
    else if action == Name(Close) then Some(Close)
    else if action == Name(Update) then Some(Update)
    else if action == Name(Rescan) then Some(Rescan)
    else None
  }

  /** Converting an action's own string gives the action back. */
  lemma ConvertFromName(a: Action)
    ensures ConvertFrom(Name(a)) == Some(a)
  {
  }

  /** No two actions share a string, so `Name` is injective. */
  lemma NameInjective(a: Action, b: Action)
    requires Name(a) == Name(b)
    ensures a == b
  {
  }

  /** `convertFrom(s)` is exactly the inverse of `Name` on all strings. */
  lemma ConvertFromExact(action: string, a: Action)
    ensures ConvertFrom(action) == Some(a) <==> Name(a) == action
  {
    if Name(a) == action {
      ConvertFromName(a);
    }
  }

  /** Any other string, including a differently cased one, is unknown. */
  lemma ConvertFromUnknown(action: string)
    requires action !in ActionNames
    ensures ConvertFrom(action) == None
  {
  }

  lemma ConvertFromIsCaseSensitive()
    ensures ConvertFrom("Opened") == None
    ensures ConvertFrom("SYNCHRONIZE") == None
  {
  }
}
