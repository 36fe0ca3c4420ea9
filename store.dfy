/** The root store: a constant version string and the `user` module's state. */
module Store {
  import opened UserStates
  import UserModule

  /** The root state: the version and the state registered under `user`. */
  datatype RootState = RootState(version: string, user: UserState)

  /** The root store as it is constructed. */
  const InitialRootState := RootState("1.0.0", UserModule.InitialState)

  /** getVersion: the version field, verbatim. */
  function GetVersion(s: RootState): (r: string)
    ensures r == s.version
  {
    s.version
  }

  /** What a fresh store reports through its getters. */
  lemma InitialStoreGetters()
    ensures GetVersion(InitialRootState) == "1.0.0"
    ensures !UserModule.GetLoading(InitialRootState.user)
    ensures UserModule.GetUserName(InitialRootState.user) == ""
  {
  }
}
