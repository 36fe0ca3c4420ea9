/**
 * The shapes of the user module's state: the `User` record it stores and the
 * two-field `UserState` record that the mutations assign and the getters read.
 */
module UserStates {
  import opened Wrappers

  /**
   * A user as the store holds it. The name parts are optional (the initial
   * state leaves them out); the user is replaced wholesale, never edited.
   */
  datatype User = User(
    Username: string,
    Firstname: Option<string>,
    Middlename: Option<string>,
    Lastname: Option<string>,
    Groups: seq<string>)

  /** One snapshot of the user module's state. */
  datatype UserState = UserState(loading: bool, currentUser: Option<User>)
}
