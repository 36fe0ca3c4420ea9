# VuexTs user store module, modelled in Dafny

This project models the namespaced `user` module of a Vuex store for a
single-page application. The module holds a two-field state — a `loading`
flag and the `currentUser` (a `User` or `undefined`) — and offers:

- two mutations, `USER_DATA_LOADING` and `USER_DATA_LOADED`, which assign the
  state's fields in place;
- one action, `loadCurrentUserData`, which commits `USER_DATA_LOADING`, waits
  two seconds and commits `USER_DATA_LOADED` with a fixed user (`doejohn`,
  John J. Doe);
- three getters, `getUserName`, `getFullName` and `getLoading`, which derive
  values from the state.

The root store contributes one getter, `getVersion`, over the constant version
`1.0.0`.

Layout:

- `wrappers.dfy`: module `Wrappers`, the `Option` type; `None` stands for
  JavaScript's `undefined`.
- `js_values.dfy`: module `JsValues`. It holds the JavaScript operators the
  getters use, written out: truthiness, `||`, `&&` on an object-or-undefined,
  and `${…}` interpolation, which renders `undefined` as the text "undefined".
- `strings.dfy`: module `Strings`, which counts a character's occurrences in a
  string.
- `states.dfy`: module `UserStates`, the `User` and `UserState` records.
- `user_module.dfy`: module `UserModule`. It holds the initial state, the
  mutations as methods of class `UserModuleState` (which has the fields
  `loading` and `currentUser`), the action as a method of that class, the
  getters as pure functions of a `UserState` snapshot (a Vuex getter receives
  the state object), and the lemmas.
- `store.dfy`: module `Store`, the root state and `getVersion`.

The source's state literals are constants: `UserModule.InitialState` is the
module's `state` (src/store/modules/usermodule.ts:10-16), `UserModule.DoeJohn`
is the action's `userData` (src/store/modules/usermodule.ts:32-38), and
`Store.InitialRootState` is the root `state` (src/store/store.ts:11-13). Their
contents are stated by the constructor, `LoadCurrentUserDataOutcome` and
`InitialStoreGetters` rows below.

`getFullName` is modelled as written. On lines 56-57 the middle and last
segments are template literals that begin with a space, so the `|| ''`
fallbacks after them never apply. Each of those segments therefore always
starts with one space. An absent middle or last name shows up as the word
`undefined`. Reading the `|| ''` fallbacks as turning an absent part into an
empty segment would give two spaces for the initial state; the code gives
`" undefined undefined"`, and the model follows the code.

`src/interfaces/user.ts` and `src/store/states/rootstate.ts` are not part of
this model. The `User` shape (required `Username` and `Groups`, optional name
parts) is taken from how `usermodule.ts` builds users.

## Model

| member | source | states |
|---|---|---|
| `UserModule.UserModuleState.State` | src/store/states/userstate.ts:3-6 | the snapshot carries exactly the object's `loading` and `currentUser` fields |
| `UserModule.UserModuleState.constructor` | src/store/modules/usermodule.ts:10-16 | the initial state is not loading and holds a user with empty `Username`, no name parts and empty `Groups` |
| `UserModule.UserModuleState.UserDataLoaded` | src/store/modules/usermodule.ts:19-22 | `loading` becomes false and `currentUser` becomes exactly the payload; nothing else is in the state |
| `UserModule.UserModuleState.UserDataLoading` | src/store/modules/usermodule.ts:24-26 | `loading` becomes true and `currentUser` is unchanged |
| `UserModule.UserModuleState.LoadCurrentUserData` | src/store/modules/usermodule.ts:30-45 | the action's effect is USER_DATA_LOADING followed by USER_DATA_LOADED with the user doejohn / John / J. / Doe / no groups; the state between the two commits is loading; the final state is not loading and holds that user |
| `UserModule.Loaded` | src/store/modules/usermodule.ts:19-22 | the state after USER_DATA_LOADED: not loading, holding exactly the payload; the method `UserDataLoaded` ensures `State() == Loaded(old(State()), payload)`, so the lemmas stated about `Loaded` hold of the class |
| `UserModule.Loading` | src/store/modules/usermodule.ts:24-26 | the state after USER_DATA_LOADING: loading, with the same user; the method `UserDataLoading` ensures `State() == Loading(old(State()))`, so the lemmas stated about `Loading` hold of the class |
| `UserModule.GetUserName` | src/store/modules/usermodule.ts:50-52 | the current user's `Username` when a user is present, an empty one included; "" when the user is absent |
| `UserModule.GetFullName` | src/store/modules/usermodule.ts:54-59 | the first name, or "" when it or the user is absent; then a space and the middle name; then a space and the last name; an absent middle or last name (or an absent user) renders as "undefined" |
| `UserModule.GetLoading` | src/store/modules/usermodule.ts:61-63 | returns the `loading` flag unchanged |
| `JsValues.SpacePrefixedNeverFallsBack` | src/store/modules/usermodule.ts:56-57 | a template literal that begins with a space is truthy whatever it interpolates, so the empty-string fallback after it returns it unchanged |
| `JsValues.OrEmptyIsGetOr` | src/store/modules/usermodule.ts:55 | a string-or-undefined with an empty-string fallback yields the string itself, and "" for undefined |
| `UserModule.InitialStateGetters` | src/store/modules/usermodule.ts:10-16 | on the initial state: not loading, user name "", full name " undefined undefined" |
| `UserModule.LoadedOverwrites` | src/store/modules/usermodule.ts:19-22 | USER_DATA_LOADED's result does not depend on the prior state; afterwards the module is not loading and the user name is the payload's |
| `UserModule.LoadingIdempotent` | src/store/modules/usermodule.ts:24-26 | committing USER_DATA_LOADING twice equals committing it once; it keeps the user, and it sets getLoading without changing getUserName or getFullName |
| `UserModule.FullNameOfABC` | src/store/modules/usermodule.ts:54-58 | any user whose name parts are A, B and C has the full name "A B C" |
| `UserModule.FullNameSeparators` | src/store/modules/usermodule.ts:56-58 | for a present user, a space follows the first name and another follows the middle segment |
| `UserModule.FullNameHasTwoSpaces` | src/store/modules/usermodule.ts:56-58 | every full name has at least two spaces and at least two characters |
| `UserModule.LoadCurrentUserDataOutcome` | src/store/modules/usermodule.ts:32-44 | after the action's two commits (the state `LoadCurrentUserData` ends in), getLoading is false, getUserName is "doejohn" and getFullName is "John J. Doe" |
| `Store.GetVersion` | src/store/store.ts:22-24 | returns the root state's version unchanged |
| `Store.InitialStoreGetters` | src/store/store.ts:11-13 | a fresh store reports version "1.0.0", and its user module is not loading and has user name "" |

## Left out

- The `Promise` and the 2000 ms `setTimeout` in `loadCurrentUserData`. The action is modelled as its two commits run back to back. The delay is asynchronous scheduling, and promise resolution carries no value.
- Overlapping invocations of `loadCurrentUserData`. Interleaved commits from several pending timers are not modelled.
- Vuex itself. Module registration, namespacing, commit and dispatch by string name, and reactive re-evaluation of getters are library behaviour. Getters are modelled as pure functions of a snapshot, so they cannot change state.
- Aliasing of the payload object. `User` is a value here, so the stored user cannot be edited through another reference. Reads of the stored user therefore always see the payload as committed.
- `Vue.use(Vuex)` and `new Vuex.Store(...)` in `src/store/store.ts`. These are framework wiring with no logic of their own.
