/**
 * The client's authentication store (`auth`): the signed-in user's information,
 * and whether it is still being loaded.
 */
module AuthSlice {
  import opened Wrappers

  /** The user record the server returns, field by field. */
  type UserInfo = map<string, string>

  datatype Auth = Auth(userInfo: Option<UserInfo>, isLoading: bool)

  /** Nobody is signed in yet, and the store is loading. */
  const InitialAuth: Auth := Auth(None, true)

  datatype Action = SetCredentials(info: UserInfo) | Logout

  /** Each reducer fixes both fields: `setCredentials` stores the user, `logout` clears it, and neither is loading. */
  function Reduce(a: Auth, action: Action): (r: Auth)
    ensures !r.isLoading
    ensures r.userInfo == if action.Logout? then None else Some(action.info)
  {
    match action
    case SetCredentials(info) => a.(userInfo := Some(info), isLoading := false)
    case Logout => a.(userInfo := None, isLoading := false)
  }

  /** Actions in dispatch order. */
  function ReduceAll(a: Auth, actions: seq<Action>): Auth
    decreases |actions|
  {
    if actions == [] then a else Reduce(ReduceAll(a, actions[..|actions| - 1]), actions[|actions| - 1])
  }

  /** Repeating a reducer changes nothing. */
  lemma ReduceIdempotent(a: Auth, action: Action)
    ensures Reduce(Reduce(a, action), action) == Reduce(a, action)
  {
  }

  /**
   * After any dispatch the store has stopped loading for good, and it holds exactly
   * what the last action left; with no dispatch it is as it was.
   */
  lemma {:induction false} LoadingEndsForGood(a: Auth, actions: seq<Action>)
    ensures actions == [] ==> ReduceAll(a, actions) == a
    ensures actions != [] ==> ReduceAll(a, actions) == Reduce(InitialAuth, actions[|actions| - 1])
    ensures actions != [] ==> !ReduceAll(a, actions).isLoading
    decreases |actions|
  {
    if actions != [] {
      LoadingEndsForGood(a, actions[..|actions| - 1]);
    }
  }

  class AuthStore {
    var userInfo: Option<UserInfo>
    var isLoading: bool

    function State(): Auth
      reads this
    {
      Auth(userInfo, isLoading)
    }

    constructor ()
      ensures State() == InitialAuth
    {
      userInfo := None;
      isLoading := true;
    }

    method SetCredentials(info: UserInfo)
      modifies this
      ensures State() == Reduce(old(State()), Action.SetCredentials(info))
    {
      userInfo := Some(info);
      isLoading := false;
    }

    method Logout()
      modifies this
      ensures State() == Reduce(old(State()), Action.Logout)
    {
      userInfo := None;
      isLoading := false;
    }
  }
}
