# FitBuddy client state layer, modelled in Dafny

FitBuddy is a React Native fitness app. Its logic lives in three Redux Toolkit slices and
one hand-written form validator; the rest of the app is view templates. This project
models those four pieces and proves what they promise.

- **Favourites slice** (`favourites.dfy`). An ordered list of exercises keyed by `id`,
  mirrored into the device's key-value storage under `"@favourites"`. The class
  `FavouritesSlice` has the list, the loading flag, the error and the storage map as
  fields, and one method per reducer and extra reducer. Specification functions (`Added`,
  `Toggled`, `WithoutId`, `FindIndex`, `LoadOutcome`) come with lemmas about toggling
  (append or splice, twice restores, parity) and about the "no two items share an id"
  invariant. Add, toggle and remove all preserve that invariant.
- **Auth slice** (`auth.dfy`). The class `AuthSlice` holds user, token,
  `isAuthenticated`, `isLoading`, error and the storage map. Every transition keeps
  `Valid()`: an authenticated state has a user, and user and token are set and cleared
  together. A successful login persists a session that `checkStoredAuth` restores,
  unless the token is the empty string; logout removes it.
- **Exercises slice** (`exercises.dfy`). Two pure functions and a class:
  - the fetch transform (`TransformExercises`): the id falls back to position + 1, and
    the image URL replaces only the first space of the name by `+`;
  - the muscle filter (`FilterByMuscle`): a lower-case substring match over the fixed
    five-item catalogue;
  - the class `ExercisesSlice`, whose reducers differ in whether `error` is cleared.
- **Register validator** (`register.dfy`). `validate()` applies its rules in order into
  an error dictionary, and a later message for a field replaces an earlier one. `Validate`
  evaluates each rule's test and hands them to `ApplyRules`, which performs the ordered,
  overwriting updates of the dictionary.

`strings.dfy` models the JavaScript string operations the core relies on:
- `trim` over ECMAScript white space;
- `toLowerCase` on ASCII letters;
- `includes`;
- `replace` with a one-character pattern;
- UTF-16 `length`.

`wrappers.dfy` holds `Option` and `Result`.

Effects of the outside world are parameters:
- an HTTP response is a `FetchResponse`, a `LoginResponse` or a `requestSucceeded` flag;
- a storage read that throws is `readFails`;
- a storage write that throws is `writeFails` or a `WriteFault`.

JSON text is modelled by the value it encodes. For the auth storage, a `Text` value under
`"userData"` is text that `JSON.parse` rejects.

## Model

| member | source | states |
|---|---|---|
| Favourites.FindIndex | src/redux/slices/favouritesSlice.js:42 | -1 exactly when no item has the id; otherwise the first position holding it |
| Favourites.HasId | src/redux/slices/favouritesSlice.js:42 | defines "some item's id is `===` to the id" |
| Favourites.UniqueIds | src/redux/slices/favouritesSlice.js:42-63 | defines "no two items share an id", the invariant the reducers keep |
| Favourites.Added | src/redux/slices/favouritesSlice.js:42-45 | defines add: the list unchanged when the id is found, else the exercise pushed at the end |
| Favourites.RemoveFirst | src/redux/slices/favouritesSlice.js:63 | defines the toggle's removal; its contract states that it only keeps items of the list, and `RemoveFirstIsSplice` that it is `splice` at the first match |
| Favourites.Toggled | src/redux/slices/favouritesSlice.js:58-63 | defines toggle: push when the id is not found, else the removal of the first match |
| Favourites.ToggledTimes | src/redux/slices/favouritesSlice.js:56-64 | defines n successive toggles of the same exercise |
| Favourites.IsFavourite | src/redux/slices/favouritesSlice.js:58 | defines membership the way the slice keys it: by id |
| Favourites.IsFavouriteByName | src/screens/HomeScreen.js:29 | defines the screens' test `favourites.some(fav => fav.name === item.name)` |
| Favourites.WithoutId | src/redux/slices/favouritesSlice.js:52 | keeps exactly the items whose id differs, so no item of that id is left, and is never longer |
| Favourites.WithoutIdAppend | src/redux/slices/favouritesSlice.js:52 | the filter keeps relative order: it distributes over concatenation |
| Favourites.RemoveFirstIsSplice | src/redux/slices/favouritesSlice.js:63 | the toggle's removal takes out exactly the item at the first matching position |
| Favourites.RemoveFirstAbsent | src/redux/slices/favouritesSlice.js:63 | with no matching item the removal changes nothing |
| Favourites.RemoveFirstOfAppended | src/redux/slices/favouritesSlice.js:56-64 | removing an id that was just appended to a list without it gives the list back |
| Favourites.ToggledIsAppendOrSplice | src/redux/slices/favouritesSlice.js:56-64 | toggle appends at the end when the id is absent, and otherwise splices out the first item with it, keeping the others in order |
| Favourites.ToggleTwiceRestores | src/redux/slices/favouritesSlice.js:56-64 | toggling twice from a list without the id restores the list |
| Favourites.ToggleParity | src/redux/slices/favouritesSlice.js:56-64 | after n toggles from a list without the id, the list is the original (n even) or the original plus the exercise (n odd); the id is present iff n is odd |
| Favourites.AddedAppendsOnce | src/redux/slices/favouritesSlice.js:40-49 | add is a no-op when the id is present, appends otherwise, always leaves the id present, and is idempotent |
| Favourites.UniqueAppend | src/redux/slices/favouritesSlice.js:45 | appending an exercise with a new id keeps ids unique |
| Favourites.UniqueRemoveFirst | src/redux/slices/favouritesSlice.js:63 | splicing out the first match keeps ids unique and leaves no item of that id |
| Favourites.UniqueWithoutId | src/redux/slices/favouritesSlice.js:52 | filtering an id out keeps ids unique |
| Favourites.UniqueIdsPreserved | src/redux/slices/favouritesSlice.js:42-63 | add, toggle and remove all preserve "no two items share an id" |
| Favourites.ToggleFlipsIsFavourite | src/redux/slices/favouritesSlice.js:56-64 | on a list with unique ids every toggle flips whether an item with the exercise's id is present |
| Favourites.NameHeartStaysEmpty | src/screens/HomeScreen.js:28-30 | when another item holds the exercise's id, the name-based check stays false across a toggle that removes that other item |
| Favourites.FetchedIdCollidesWithCatalogue | src/redux/slices/exercisesSlice.js:67 | a fetched exercise without an id at position 0 gets id 1, colliding with Push-ups in the muscle catalogue; toggling Push-ups then removes the fetched item |
| Favourites.FetchedListsCollide | src/redux/slices/exercisesSlice.js:67 | the first items of two fetched lists without ids both get id 1; with the first a favourite, the second shows an empty heart by name, and toggling it empties the favourites |
| Favourites.LoadOutcome | src/redux/slices/favouritesSlice.js:7-17 | rejects with "Failed to load favourites" exactly when the read fails; nothing stored yields []; otherwise the stored list |
| Favourites.FavouritesSlice.constructor | src/redux/slices/favouritesSlice.js:34-38 | empty list, not loading, no error |
| Favourites.FavouritesSlice.AddToFavourites | src/redux/slices/favouritesSlice.js:40-49 | items become `Added` of the old items; storage is written only when the exercise was appended; unique ids are preserved |
| Favourites.FavouritesSlice.RemoveFromFavourites | src/redux/slices/favouritesSlice.js:50-55 | items become the old items without that id; storage holds the new list; unique ids are preserved |
| Favourites.FavouritesSlice.ToggleFavourite | src/redux/slices/favouritesSlice.js:56-67 | items become `Toggled` of the old items; storage holds the new list and loads back as it; unique ids are preserved and membership of the id flips |
| Favourites.FavouritesSlice.ClearFavourites | src/redux/slices/favouritesSlice.js:68-71 | items become [] and the storage key is deleted; nothing else changes |
| Favourites.FavouritesSlice.ClearError | src/redux/slices/favouritesSlice.js:72-74 | only the error changes, to null |
| Favourites.FavouritesSlice.LoadPending | src/redux/slices/favouritesSlice.js:79-82 | isLoading true, error null, items kept |
| Favourites.FavouritesSlice.LoadFulfilled | src/redux/slices/favouritesSlice.js:83-87 | items are the payload, isLoading false, error null |
| Favourites.FavouritesSlice.LoadRejected | src/redux/slices/favouritesSlice.js:88-91 | isLoading false, error is the payload, items kept |
| Favourites.FavouritesSlice.SaveFulfilled | src/redux/slices/favouritesSlice.js:93-95 | only the items change, to the payload |
| Favourites.FavouritesSlice.SaveRejected | src/redux/slices/favouritesSlice.js:96-98 | only the error changes, to the payload |
| Favourites.FavouritesSlice.LoadFavourites | src/redux/slices/favouritesSlice.js:79-91 | a good read loads the stored list, or [] when nothing is stored; a failed read keeps the items and sets the error |
| Favourites.FavouritesSlice.SaveFavourites | src/redux/slices/favouritesSlice.js:20-30 | a good write stores the list, makes it the items and loads back as saved; a failed write changes only the error |
| Auth.GetItem | src/redux/slices/authSlice.js:31-32 | defines `getItem`: the stored value, or null when the key is missing |
| Auth.IsTruthy | src/redux/slices/authSlice.js:34 | defines JavaScript truthiness of a stored value: present and not the empty string |
| Auth.BothKeysPresent | src/redux/slices/authSlice.js:34 | defines `token && userData` |
| Auth.StoredSession | src/redux/slices/authSlice.js:27-42 | null exactly when the read succeeds and one of the two keys is missing or empty; the stored user exactly when both are present and the user entry parses; otherwise rejects with "Failed to check stored auth" |
| Auth.RejectionMessage | src/redux/slices/authSlice.js:21 | the server's message when it sent a non-empty one, else "Login failed"; never empty |
| Auth.LoginStorageRestores | src/redux/slices/authSlice.js:16-17 | the two writes of a successful login make the session check return that user, unless the token is empty |
| Auth.LogoutStorageRestoresNothing | src/redux/slices/authSlice.js:59-61 | after both keys are removed the session check returns null |
| Auth.AuthSlice.constructor | src/redux/slices/authSlice.js:46-52 | all fields null or false; the invariant holds |
| Auth.AuthSlice.Valid | src/redux/slices/authSlice.js:46-93 | defines the invariant: authenticated implies a user; user and token set and cleared together |
| Auth.AuthSlice.Logout | src/redux/slices/authSlice.js:54-62 | user, token and error null, not authenticated, isLoading kept; both storage keys removed, so nothing is restored; the invariant is kept |
| Auth.AuthSlice.ClearError | src/redux/slices/authSlice.js:63-65 | only the error changes; the invariant is kept |
| Auth.AuthSlice.LoginPending | src/redux/slices/authSlice.js:70-73 | isLoading true, error null, user, token and isAuthenticated kept |
| Auth.AuthSlice.LoginFulfilled | src/redux/slices/authSlice.js:74-80 | user is the payload, token the payload's token, authenticated, not loading, no error |
| Auth.AuthSlice.LoginRejected | src/redux/slices/authSlice.js:81-85 | not loading, not authenticated, error is the payload; user and token kept; the invariant is kept |
| Auth.AuthSlice.CheckStoredAuthFulfilled | src/redux/slices/authSlice.js:87-93 | null leaves the state untouched; a user authenticates with that user's token |
| Auth.AuthSlice.LoginRequest | src/redux/slices/authSlice.js:6-24 | a failed request rejects with the rejection message; a successful one writes the token and then the user, and a write that throws rejects with "Login failed" after the writes before it |
| Auth.AuthSlice.Login | src/redux/slices/authSlice.js:70-85 | success authenticates with the response's user and token, writes both keys and persists a session that the check restores unless the token is the empty string; any failure leaves the state unauthenticated and not loading, with the old user and token; a failed request sets the rejection message and leaves storage alone; a failed token write sets "Login failed" and leaves storage alone; a failed user write sets "Login failed" with only the token written |
| Auth.AuthSlice.CheckStoredAuth | src/redux/slices/authSlice.js:27-42 | a restored user authenticates; otherwise the state is untouched; storage is unchanged |
| Exercises.IsTruthyId | src/redux/slices/exercisesSlice.js:67 | defines truthiness of an id: present and not zero |
| Exercises.WithIdAndImage | src/redux/slices/exercisesSlice.js:65-69 | defines the per-element object spread with the id fallback and the image |
| Exercises.FallbackExercises | src/redux/slices/exercisesSlice.js:17-63 | the five built-in exercises, field by field |
| Exercises.MuscleCatalogue | src/redux/slices/exercisesSlice.js:85-91 | the five catalogue entries the muscle filter searches |
| Exercises.MatchesMuscle | src/redux/slices/exercisesSlice.js:93 | defines `exercise.muscle.includes(muscle.toLowerCase())` |
| Strings.Includes | src/redux/slices/exercisesSlice.js:93 | defines `includes`: the needle is a prefix of some suffix of the string |
| Strings.IndexOf | src/redux/slices/exercisesSlice.js:68 | the position of the first occurrence of a character, or the length when there is none; nothing before it is that character |
| Strings.ReplaceFirst | src/redux/slices/exercisesSlice.js:68 | the same length; only the character at the first `from` becomes `to`; a string without `from` is unchanged |
| Exercises.ImageUrl | src/redux/slices/exercisesSlice.js:68 | the placeholder prefix followed by the name, with only its first space turned into '+'; a name without a space is unchanged |
| Exercises.ImageOfSpacedName | src/redux/slices/exercisesSlice.js:68 | spaces after the first one stay spaces |
| Exercises.TransformExercises | src/redux/slices/exercisesSlice.js:65-69 | same length and order; a truthy id is kept, a missing or zero id becomes position + 1; every id is truthy; the image is set; all other fields unchanged |
| Exercises.FetchExercisesOutcome | src/redux/slices/exercisesSlice.js:5-74 | rejects with "Failed to fetch exercises" exactly when the request fails; returned data becomes its `TransformExercises` image, so it keeps its length |
| Exercises.FallbackOutcome | src/redux/slices/exercisesSlice.js:17-69 | a response without data yields the five built-in exercises passed through the id-and-image map: in order, ids 1 to 5, every other field kept, and each image built from the entry's name |
| Strings.ToLower | src/redux/slices/exercisesSlice.js:93 | same length, each character lower-cased |
| Strings.ToLowerIdempotent | src/redux/slices/exercisesSlice.js:93 | lower-casing twice is lower-casing once |
| Exercises.FilterByMuscle | src/redux/slices/exercisesSlice.js:93 | an element is kept exactly when its muscle contains the lower-cased query |
| Exercises.FilterByMuscleAppend | src/redux/slices/exercisesSlice.js:93 | the filter keeps the order of what it keeps |
| Exercises.FilterByMuscleEmptyQuery | src/redux/slices/exercisesSlice.js:93 | an empty query keeps every element |
| Exercises.FilterByMuscleIgnoresCase | src/redux/slices/exercisesSlice.js:93 | the query filters as its lower-case form does |
| Exercises.MuscleOutcome | src/redux/slices/exercisesSlice.js:77-98 | rejects with "Failed to fetch exercises for muscle group" exactly when the request fails; otherwise exactly `FilterByMuscle` of the catalogue: the matching entries, once each, in catalogue order |
| Exercises.ExercisesSlice.constructor | src/redux/slices/exercisesSlice.js:102-109 | empty list, nothing selected, not loading, no error, empty query, muscle "all" |
| Exercises.ExercisesSlice.SetSelectedExercise | src/redux/slices/exercisesSlice.js:111-113 | only selectedExercise changes |
| Exercises.ExercisesSlice.SetSearchQuery | src/redux/slices/exercisesSlice.js:114-116 | only searchQuery changes |
| Exercises.ExercisesSlice.SetSelectedMuscle | src/redux/slices/exercisesSlice.js:117-119 | only selectedMuscle changes |
| Exercises.ExercisesSlice.ClearError | src/redux/slices/exercisesSlice.js:120-122 | only error changes |
| Exercises.ExercisesSlice.FetchExercisesPending | src/redux/slices/exercisesSlice.js:127-130 | isLoading true, error null, the list kept |
| Exercises.ExercisesSlice.FetchExercisesFulfilled | src/redux/slices/exercisesSlice.js:131-135 | the list is the payload, not loading, error null |
| Exercises.ExercisesSlice.FetchExercisesRejected | src/redux/slices/exercisesSlice.js:136-139 | not loading, error is the payload, the list kept |
| Exercises.ExercisesSlice.ByMusclePending | src/redux/slices/exercisesSlice.js:141-143 | only isLoading changes; the error is not cleared |
| Exercises.ExercisesSlice.ByMuscleFulfilled | src/redux/slices/exercisesSlice.js:144-147 | the list is the payload and not loading; the error is not cleared |
| Exercises.ExercisesSlice.ByMuscleRejected | src/redux/slices/exercisesSlice.js:148-151 | not loading, error is the payload, the list kept |
| Exercises.ExercisesSlice.FetchExercises | src/redux/slices/exercisesSlice.js:127-139 | a failed request keeps the list and sets the error; otherwise the transformed list replaces it and the error is cleared |
| Exercises.ExercisesSlice.FetchExercisesByMuscle | src/redux/slices/exercisesSlice.js:141-151 | success makes the list the filtered catalogue and keeps an earlier error; failure keeps the list and sets the error |
| Strings.IsWhitespace | src/screens/RegisterScreen_new.js:27-28 | defines the ECMAScript white space and line terminators `trim` strips and `\s` matches |
| Strings.TrimStart | src/screens/RegisterScreen_new.js:27 | a suffix of the string; what was dropped is all white space; the result is empty or starts with a non-white-space character |
| Strings.TrimEnd | src/screens/RegisterScreen_new.js:27 | a prefix of the string; what was dropped is all white space; the result is empty or ends with a non-white-space character |
| Strings.Trim | src/screens/RegisterScreen_new.js:27-28 | defines `trim` as white space removed from both ends |
| Strings.TrimEmptyIffBlank | src/screens/RegisterScreen_new.js:27 | `trim()` gives the empty string exactly when every character is white space |
| Strings.Utf16Length | src/screens/RegisterScreen_new.js:31 | between one and two code units per character, one each when no character is beyond U+FFFF |
| Register.MatchesEmailPattern | src/screens/RegisterScreen_new.js:29 | defines `/\S+@\S+\.\S+/.test(email)`: some substring is a non-white-space run, '@', a run, '.', and a run |
| Register.PassesAllRules | src/screens/RegisterScreen_new.js:26-34 | defines "every rule passes": non-blank username, matching email, at least 6 code units, matching confirmation |
| Register.BlankFailsEmailPattern | src/screens/RegisterScreen_new.js:28-29 | a blank email never matches the pattern, so "Email is required" is always overwritten |
| Register.EmailPatternHasAtThenDot | src/screens/RegisterScreen_new.js:29 | a matching email has an '@' followed later by a '.' |
| Register.UnanchoredMatch | src/screens/RegisterScreen_new.js:29 | the pattern is unanchored: any text before and after a matching string still matches |
| Register.SpacedTextMatches | src/screens/RegisterScreen_new.js:29 | for instance, "my mail@site.org", with a space before the address, matches |
| Register.ApplyRules | src/screens/RegisterScreen_new.js:26-36 | with the ordered, overwriting updates, each field is set exactly when its surviving rule fails, with the surviving message; valid exactly when no key was set |
| Register.Validate | src/screens/RegisterScreen_new.js:25-37 | username error iff it trims to empty; email error iff no match, always "Email is invalid"; password error iff fewer than 6 UTF-16 units, always the length message; confirmation error iff the passwords differ; true iff no key was set, iff every rule passes |
| Register.PassingFormShape | src/screens/RegisterScreen_new.js:25-36 | a form that passes has a non-white-space username character, an email with '@' later followed by '.', a password of length at least 6, and a matching confirmation |

## Left out

- Rendering, styles and navigation (the screens other than `validate()`, the navigators,
  `App.js`) are view templates and are not part of this model. `src/redux/store.js` is
  wiring only: each slice is modelled on its own.
- HTTP calls through axios are inputs. The response, or the fact that the request threw,
  is a parameter. The login credentials and the muscle request's response are never
  inspected by the code.
- Every effect is synchronous. AsyncStorage is modelled as a map the slice updates at the
  point of the call. The reducers' fire-and-forget `setItem`/`removeItem` calls are
  modelled as writes that succeed. Interleaving of thunks and out-of-order completion is
  concurrency and is not modelled.
- JSON.parse and JSON.stringify are modelled as identity on values. For favourites, a
  stored value that fails to parse is a read failure (`readFails`). For auth, it is a
  `Text` value under `"userData"`, which is text that `JSON.parse` rejects.
- Auth.StoredSession: JSON of a value other than a user under `"userData"` is not modelled.
  Such text parses without throwing. `null`, `0` or `""` then fulfil with a falsy payload
  and leave the state untouched, and `{}` authenticates with an undefined token.
- A response `data` that is present but is not an array is not modelled; `data` is an
  optional list of exercises.
- The Yup/Formik login schema belongs to a foreign library and is not modelled.
- Exercise ids are integers or absent. `undefined` and `null` are both `None`, although
  `===` tells them apart. So in the model `removeFromFavourites(undefined)` also removes
  items whose id is `null`, and the same holds for the id searches of add and toggle.
  NaN, strings and other JSON values as ids are not modelled. `===` on ids is equality of
  these values.
- An exercise always has a string `name`. In the source, an item without a name makes
  `exercise.name.replace` throw, and `fetchExercises` then rejects with "Failed to fetch
  exercises". That path is not modelled.
- The user record keeps the fields the app reads, plus `token`.
- Strings.ToLower: lower-cases ASCII letters only, not the full Unicode mapping of
  `toLowerCase`. Over the fixed catalogue the filter's result is the same either way:
  - every catalogue muscle is lower-case ASCII without the letter 'k';
  - a query with a non-ASCII character still holds a non-ASCII character after the full
    mapping, except that the Kelvin sign becomes 'k', so such a query matches nothing in
    either model.
  `FilterByMuscleIgnoresCase` holds for the ASCII mapping.
- `checkStoredAuth` has no pending or rejected reducers in the source. A rejected check
  therefore changes no state, and `CheckStoredAuth` states exactly that.
- `isAuthenticated` does not mean that token and user are current. A rejected login
  clears `isAuthenticated` but keeps an earlier user and token. `Valid()` states what
  does hold: authenticated implies a user, and user and token are set and cleared
  together.
- A failed favourites load keeps the items already in memory rather than emptying them
  (`LoadFavourites`).
- The screens read fields the slices do not define: `list` and `loading` in
  `src/screens/HomeScreen.js`, and `isLoggedIn` and `loading` on `state.auth` in
  `src/navigation/AppNavigator_clean.js:74` (the slice defines `isLoading`).
  These read as undefined and are not modelled.
- `src/screens/ProfileScreen.js:6,16` imports and dispatches `logoutUser`, but
  `src/redux/slices/authSlice.js:97` exports only `logout` and `clearError`. No shipped
  screen reaches the logout reducer; `Auth.AuthSlice.Logout` models the reducer itself.
- Exercises.MuscleOutcome: the query is always a string. A non-string argument makes
  `muscle.toLowerCase()` throw (`src/redux/slices/exercisesSlice.js:93`), and the thunk
  rejects with "Failed to fetch exercises for muscle group"; that input is not modelled.
- Auth.LoginResponse: a successful response always carries a user. A 2xx response whose
  `data` is `null` makes `response.data.token` throw (`src/redux/slices/authSlice.js:16`),
  and the thunk rejects with "Login failed"; that response is not modelled.

## Findings

| source | as written | input that shows it | evidently intended | confidence | as-written member | corrected member |
|---|---|---|---|---|---|---|
| src/screens/HomeScreen.js:28-30 | The screens decide whether the heart is filled by comparing names (`fav.name === item.name`; also `src/screens/DetailsScreen.js:20`). The slice toggles by `id`. Ids fall back to position + 1, so they collide between lists. The path is latent as shipped. No shipped screen dispatches `fetchExercisesByMuscle`, and `src/screens/HomeScreen.js:21` reads `state.exercises.list`, which the slice does not define. | Two `fetchExercises` results whose first items have no id and different names: both items get id 1. With the first one a favourite, the second shows an empty heart. Tapping it removes the first one, and its heart stays empty. The same happens against catalogue "Push-ups" (id 1). | The heart shows exactly what a toggle flips: membership by `id`. Every toggle then flips the heart. | not executed | Favourites.NameHeartStaysEmpty (inputs: Favourites.FetchedListsCollide, Favourites.FetchedIdCollidesWithCatalogue) | Favourites.ToggleFlipsIsFavourite |
