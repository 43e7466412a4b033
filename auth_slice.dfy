/** The client's authentication state and the reducers that answer the
    session check's lifecycle actions. The check request itself is not part of
    this module. */
module AuthSlice {

  import opened Model

  /** The values `status` may hold. */
  const Statuses: set<string> := {"idle", "loading", "succeeded", "failed"}

  datatype AuthAction = CheckAuthPending | CheckAuthFulfilled(user: User) | CheckAuthRejected | Other

  class AuthState {
    var user: Option<User>
    var status: string
    var initialized: bool

    /** `status` is one of the four lifecycle values. */
    ghost predicate Valid()
      reads this
    {
      status in Statuses
    }

    /** The initial state: no user, "idle", not yet initialized. */
    constructor ()
      ensures Valid()
      ensures user == None && status == "idle" && !initialized
    {
      user := None;
      status := "idle";
      initialized := false;
    }

    /** checkAuth.pending: "loading"; the user and the flag are left as they were. */
    method Pending()
      modifies this
      ensures Valid()
      ensures status == "loading" && user == old(user) && initialized == old(initialized)
    {
      status := "loading";
    }

    /** checkAuth.fulfilled: "succeeded", the payload becomes the user, initialized. */
    method Fulfilled(payload: User)
      modifies this
      ensures Valid()
      ensures status == "succeeded" && user == Some(payload) && initialized
    {
      status := "succeeded";
      user := Some(payload);
      initialized := true;
    }

    /** checkAuth.rejected: "failed", no user, initialized. */
    method Rejected()
      modifies this
      ensures Valid()
      ensures status == "failed" && user == None && initialized
    {
      status := "failed";
      user := None;
      initialized := true;
    }

    /** The slice reducer: each action produces its case's new state, `status` stays one of the four values, `initialized`
        never goes back to false, a user is only ever set by a successful check,
        and an action without a case changes nothing. */
    method Dispatch(action: AuthAction)
      requires Valid()
      modifies this
      ensures Valid()
      ensures old(initialized) ==> initialized
      ensures user.Some? && user != old(user) ==> action == CheckAuthFulfilled(user.value)
      ensures action.CheckAuthPending? ==> status == "loading" && user == old(user) && initialized == old(initialized)
      ensures action.CheckAuthFulfilled? ==> status == "succeeded" && user == Some(action.user) && initialized
      ensures action.CheckAuthRejected? ==> status == "failed" && user == None && initialized
      ensures action.Other? ==> user == old(user) && status == old(status) && initialized == old(initialized)
    {
      match action
      case CheckAuthPending => Pending();
      case CheckAuthFulfilled(u) => Fulfilled(u);
      case CheckAuthRejected => Rejected();
      case Other =>
    }
  }
}
