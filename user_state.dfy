/**
 * packages/client/src/state/user.ts: the session slice of the Redux store.
 * Its reducers assign `state.user` in place.
 */
module Session {
  import opened Wrappers

  /** `UserState`: the signed-in user. */
  datatype UserState = UserState(userId: int, email: string, password: string, isAdministrator: bool)

  /** `initialState`: nobody signed in. */
  const InitialUser: Option<UserState> := None

  /** The session after `login`: the payload, whatever was there before. */
  function AfterLogin(user: Option<UserState>, payload: UserState): (r: Option<UserState>)
    ensures r.Some? && r.value == payload
  {
    Some(payload)
  }

  /** The session after `logout`: nobody. */
  function AfterLogout(user: Option<UserState>): (r: Option<UserState>)
    ensures r.None?
  {
    None
  }

  /** Logging out twice is logging out once; logging in then out is the initial state; a second login replaces the first. */
  lemma SessionLaws(user: Option<UserState>, a: UserState, b: UserState)
    ensures AfterLogout(AfterLogout(user)) == AfterLogout(user)
    ensures AfterLogout(AfterLogin(user, a)) == InitialUser
    ensures AfterLogin(AfterLogin(user, a), b) == AfterLogin(user, b)
  {
  }

  /** The slice's state object (`UserLoginState`). */
  class UserSlice {
    var user: Option<UserState>

    constructor ()
      ensures user == InitialUser
    {
      user := InitialUser;
    }

    method Login(payload: UserState)
      modifies this`user
      ensures user == AfterLogin(old(user), payload)
    {
      user := Some(payload);
    }

    method Logout()
      modifies this`user
      ensures user == AfterLogout(old(user))
    {
      user := None;
    }
  }
}
