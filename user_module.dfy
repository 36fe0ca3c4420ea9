/**
 * The namespaced `user` store module: its initial state, the mutations
 * USER_DATA_LOADING and USER_DATA_LOADED, the action loadCurrentUserData
 * (as the pair of mutations it commits) and the getters getUserName,
 * getFullName and getLoading.
 */
module UserModule {
  import opened Wrappers
  import opened JsValues
  import opened Strings
  import opened UserStates

  /** The user the initial state holds: empty username, no name parts, no groups. */
  const BlankUser := User("", None, None, None, [])

  /** The state the module starts in. */
  const InitialState := UserState(false, Some(BlankUser))

  /** The user that loadCurrentUserData commits. */
  const DoeJohn := User("doejohn", Some("John"), Some("J."), Some("Doe"), [])

  // ---------------------------------------------------------------------
  // Mutations, as functions on snapshots (they specify the methods below)
  // ---------------------------------------------------------------------

  /** The state after USER_DATA_LOADED with `payload`. */
  function Loaded(s: UserState, payload: User): (r: UserState)
    ensures !r.loading && r.currentUser == Some(payload)
  {
    s.(loading := false, currentUser := Some(payload))
  }

  /** The state after USER_DATA_LOADING. */
  function Loading(s: UserState): (r: UserState)
    ensures r.loading && r.currentUser == s.currentUser
  {
    s.(loading := true)
  }

  // ---------------------------------------------------------------------
  // Getters: pure derivations from a snapshot
  // ---------------------------------------------------------------------

  /** getUserName: the current user's username when that is truthy, else the empty string. */
  function GetUserName(s: UserState): (r: string)
    ensures s.currentUser.Some? ==> r == s.currentUser.value.Username
    ensures s.currentUser.None? ==> r == ""
  {
    Or(And(s.currentUser, (u: User) => Some(u.Username)), "")
  }

  /**
   * getFullName: the first name (or "" when falsy), then `` ` ${middle}` || '' ``
   * and `` ` ${last}` || '' ``, all concatenated. The `|| ''` fallbacks never
   * fire, so the middle and last segments always begin with a space and an
   * absent part is rendered as the text "undefined".
   */
  function GetFullName(s: UserState): (r: string)
    ensures s.currentUser.None? ==> r == " undefined undefined"
    ensures s.currentUser.Some? ==>
      var u := s.currentUser.value;
      r == u.Firstname.GetOr("") + " " + Interpolate(u.Middlename) + " " + Interpolate(u.Lastname)
  {
    var firstName := Or(And(s.currentUser, (u: User) => u.Firstname), "");
    var middle := " " + Interpolate(And(s.currentUser, (u: User) => u.Middlename));
    var last := " " + Interpolate(And(s.currentUser, (u: User) => u.Lastname));
    SpacePrefixedNeverFallsBack(And(s.currentUser, (u: User) => u.Middlename), "");
    SpacePrefixedNeverFallsBack(And(s.currentUser, (u: User) => u.Lastname), "");
    var middleName := Or(Some(middle), "");
    var lastName := Or(Some(last), "");
    firstName + middleName + lastName
  }

  /** getLoading: the loading flag, verbatim. */
  function GetLoading(s: UserState): (r: bool)
    ensures r <==> s.loading
  {
    s.loading
  }

  // ---------------------------------------------------------------------
  // The live state object that the mutations assign in place
  // ---------------------------------------------------------------------

  class UserModuleState {
    var loading: bool
    var currentUser: Option<User>

    /** The current snapshot of the two fields. */
    function State(): (s: UserState)
      reads this
      ensures s.loading == loading && s.currentUser == currentUser
    {
      UserState(loading, currentUser)
    }

    /** The module's `state` declaration: not loading, holding the blank user. */
    constructor ()
      ensures State() == InitialState
      ensures !loading && currentUser == Some(User("", None, None, None, []))
    {
      loading := false;
      currentUser := Some(BlankUser);
    }

    /** USER_DATA_LOADED: clears the flag and stores exactly `payload`. */
    method UserDataLoaded(payload: User)
      modifies this
      ensures State() == Loaded(old(State()), payload)
      ensures !loading && currentUser == Some(payload)
    {
      loading := false;
      currentUser := Some(payload);
    }

    /** USER_DATA_LOADING: sets the flag; the current user is left as it was. */
    method UserDataLoading()
      modifies this
      ensures State() == Loading(old(State()))
      ensures loading && currentUser == old(currentUser)
    {
      loading := true;
    }

    /**
     * loadCurrentUserData: commits USER_DATA_LOADING, then (after a delay that
     * is not modelled) USER_DATA_LOADED with the fixed user DoeJohn.
     * `pending` is the state a reader sees between the two commits.
     */
    method LoadCurrentUserData() returns (ghost pending: UserState)
      modifies this
      ensures pending == Loading(old(State())) && GetLoading(pending)
      ensures State() == Loaded(pending, DoeJohn)
      ensures !loading && currentUser == Some(DoeJohn)
    {
      UserDataLoading();
      pending := State();
      UserDataLoaded(DoeJohn);
    }
  }

  // ---------------------------------------------------------------------
  // Properties
  // ---------------------------------------------------------------------

  /** What the getters report on the initial state. */
  lemma InitialStateGetters()
    ensures !GetLoading(InitialState)
    ensures GetUserName(InitialState) == ""
    ensures GetFullName(InitialState) == " undefined undefined"
  {
  }

  /** USER_DATA_LOADED replaces the whole state: the prior state does not matter. */
  lemma LoadedOverwrites(s: UserState, t: UserState, payload: User)
    ensures Loaded(s, payload) == Loaded(t, payload)
    ensures !GetLoading(Loaded(s, payload))
    ensures GetUserName(Loaded(s, payload)) == payload.Username
  {
  }

  /** USER_DATA_LOADING is idempotent and leaves the user and both name getters alone. */
  lemma LoadingIdempotent(s: UserState)
    ensures Loading(Loading(s)) == Loading(s)
    ensures Loading(s).currentUser == s.currentUser
    ensures GetLoading(Loading(s))
    ensures GetUserName(Loading(s)) == GetUserName(s)
    ensures GetFullName(Loading(s)) == GetFullName(s)
  {
  }

  /** The full name of any user named A, B, C. */
  lemma FullNameOfABC(s: UserState)
    requires s.currentUser.Some?
    requires s.currentUser.value.Firstname == Some("A")
    requires s.currentUser.value.Middlename == Some("B")
    requires s.currentUser.value.Lastname == Some("C")
    ensures GetFullName(s) == "A B C"
  {
  }

  /**
   * The parts of a present user's full name are separated by single spaces:
   * one right after the first name and one right after the middle segment.
   */
  lemma FullNameSeparators(s: UserState)
    requires s.currentUser.Some?
    ensures var u := s.currentUser.value;
      var i := |u.Firstname.GetOr("")|;
      var j := i + 1 + |Interpolate(u.Middlename)|;
      j < |GetFullName(s)| && GetFullName(s)[i] == ' ' && GetFullName(s)[j] == ' '
  {
  }

  /** Because the fallbacks never fire, every full name holds at least two spaces. */
  lemma FullNameHasTwoSpaces(s: UserState)
    ensures Occurrences(GetFullName(s), ' ') >= 2
    ensures |GetFullName(s)| >= 2
  {
    var first := Or(And(s.currentUser, (u: User) => u.Firstname), "");
    var middle := Interpolate(And(s.currentUser, (u: User) => u.Middlename));
    var last := Interpolate(And(s.currentUser, (u: User) => u.Lastname));
    assert GetFullName(s) == first + (" " + middle) + (" " + last);
    OccurrencesAppend(first, " " + middle, ' ');
    OccurrencesAppend(first + (" " + middle), " " + last, ' ');
    OccurrencesAppend(" ", middle, ' ');
    OccurrencesAppend(" ", last, ' ');
  }

  /**
   * The observable effect of loadCurrentUserData once both commits have run:
   * not loading, with the fixed user's names.
   */
  lemma LoadCurrentUserDataOutcome(s: UserState)
    ensures !GetLoading(Loaded(Loading(s), DoeJohn))
    ensures GetUserName(Loaded(Loading(s), DoeJohn)) == "doejohn"
    ensures GetFullName(Loaded(Loading(s), DoeJohn)) == "John J. Doe"
  {
  }
}
