# Pull-up session model

A Dafny model of the session and validation logic of the Pull-up event
app: the mock authentication provider and its use of the browser's
localStorage, the joined-events list of the event detail page, the Pullup
button's state machine, the "My Events" drawer filter, the sign-in page's
email and password rules, the create-event form's required fields, the
protected-route guard and the navigation bar.

Layout, one module per source component:

- `session.dfy` (`Session`): localStorage as a class over a
  `map<string, Stored>` with typed values (user record, id list, text), the
  keys `user`, `joinedEvents`, `browsing_locked`, `mapbox_token`, and the
  derived reads the components perform.
- `auth_context.dfy` (`AuthContext`): `AuthProvider` with `user` and
  `isLoading`; `login`, `signup` and `logout` as methods over a shared
  `LocalStorage`, specified by the pure `AttemptLogin`, `AttemptSignup` and
  `AfterLogout`.
- `auth_page.dfy` (`AuthPage`): `validateEmail` with its three ordered
  checks, the field rules of the form, the redirect of a signed-in user, and
  `AuthScreen` with `onSubmit`, `handleSubmit(onSubmit)` and
  `handleTabChange`.
- `event_detail.dfy` (`EventDetail`): the id lookup and not-found view, the
  participant truncation and "+k" button, and `EventDetailPage` with the
  joined list, its load effect and `handleJoinEvent`.
- `pullup_button.dfy` (`Pullup`): the button's states, the click handler and
  the timer callback, as pure steps and as a class.
- `my_events_drawer.dfy` (`MyEventsDrawer`), `mock_data.dfy` (`MockData`):
  the drawer's filter over the catalogue and what it renders.
- `create_event.dfy` (`CreateEvent`), `protected_route.dfy`
  (`ProtectedRoute`), `navbar.dfy` (`Navbar`).
- `text.dfy` (`Text`), `wrappers.dfy` (`Wrappers`): JavaScript string
  helpers and `Option`.

Two behaviours of the source are kept as they are. The Pullup button is
declared with only `eventId` and `className`; the event page passes it an
`onJoinEvent` callback that it never calls, so pressing Pullup never writes
`joinedEvents` (`EventDetailPage.PressPullup` states this). `handleJoinEvent`
is still modelled as written, though nothing reaches it. And
`browsing_locked` is only ever removed (by logout): nothing in these files
sets it.

Lengths are JavaScript lengths: `password.length` and react-hook-form's
`minLength` count UTF-16 code units, so `Text.Utf16Length` counts a
character outside the Basic Multilingual Plane twice.

## Model

| member | source | states |
|---|---|---|
| `Text.Utf16Length` | src/contexts/AuthContext.tsx:41 | JavaScript's length of a string lies between its character count and twice that, and is zero only for the empty string |
| `Text.Utf16LengthInBasicPlane` | src/contexts/AuthContext.tsx:41 | for text without astral characters the length the password checks see is the character count |
| `Text.Decimal` | src/contexts/AuthContext.tsx:48 | the timestamp in a user id is rendered as a non-empty run of digits without a leading zero, and those digits read back as the timestamp |
| `Text.DecimalInjective` | src/contexts/AuthContext.tsx:48 | different timestamps are rendered as different digit strings |
| `Session.LocalStorage.SetItem` | src/contexts/AuthContext.tsx:50 | `setItem` binds the key to the value and leaves every other key as it was |
| `Session.LocalStorage.RemoveItem` | src/contexts/AuthContext.tsx:92-94 | `removeItem` drops exactly that key |
| `Session.StoredUser` | src/contexts/AuthContext.tsx:28-31 | a user is restored only from a user record stored under `user`; with no such key there is none |
| `Session.StoredJoinedEvents` | src/pages/EventDetail.tsx:119 | with no `joinedEvents` key the loaded list is empty; otherwise it is the stored list |
| `Session.AfterLogout` | src/contexts/AuthContext.tsx:90-94 | logout removes exactly `user`, `joinedEvents` and `browsing_locked`; every other key, `mapbox_token` included, keeps its value; afterwards no user and no joined list can be loaded |
| `Session.LogoutIdempotent` | src/contexts/AuthContext.tsx:90-94 | a second logout leaves the storage as the first left it |
| `AuthContext.SessionId` | src/contexts/AuthContext.tsx:48 | a new user's id is `user-` followed by the decimal digits of the timestamp, which read back as that timestamp |
| `AuthContext.SessionIdsDistinct` | src/contexts/AuthContext.tsx:48 | sessions created at different instants get different ids |
| `AuthContext.AttemptLogin` | src/contexts/AuthContext.tsx:41-53 | login succeeds exactly when the password has at least 6 units; the new user has the given email unchecked, no name, and a fresh session id |
| `AuthContext.AttemptSignup` | src/contexts/AuthContext.tsx:68-80 | signup uses the same threshold as login and keeps the given name |
| `AuthContext.LoginIgnoresEmail` | src/contexts/AuthContext.tsx:41-48 | whether login succeeds does not depend on the email |
| `AuthContext.StoredSessionRestores` | src/contexts/AuthContext.tsx:28-31 | the record a login or signup stores is the user the load effect restores |
| `AuthContext.AuthProvider.constructor` | src/contexts/AuthContext.tsx:23-24 | the provider starts with no user and loading |
| `AuthContext.AuthProvider.IsAuthenticated` | src/contexts/AuthContext.tsx:102 | `isAuthenticated` is `!!user`: true exactly while a user is held; a successful login or signup makes it true and logout makes it false |
| `AuthContext.AuthProvider.LoadStoredUser` | src/contexts/AuthContext.tsx:27-33 | a stored user becomes the current user, and loading ends whether or not one was stored |
| `AuthContext.AuthProvider.Login` | src/contexts/AuthContext.tsx:35-60 | on a short password returns false with user and storage unchanged; otherwise returns true, sets the user (so the provider is authenticated) and stores the same record under `user`, nothing else |
| `AuthContext.AuthProvider.Signup` | src/contexts/AuthContext.tsx:62-88 | as login, with the name carried into the stored record |
| `AuthContext.AuthProvider.Logout` | src/contexts/AuthContext.tsx:90-96 | the user becomes null, so the provider is no longer authenticated, and the storage is exactly `AfterLogout` of what it was |
| `AuthPage.MatchesEmailPattern` | src/pages/Auth.tsx:37 | the pattern `^[^\s@]+@[^\s@]+\.[^\s@]+$` read literally: a run without whitespace or '@', then '@', a run, '.', a run; no match is shorter than five characters or starts or ends with '@' |
| `AuthPage.EmailPatternEquivalence` | src/pages/Auth.tsx:37 | the pattern `^[^\s@]+@[^\s@]+\.[^\s@]+$` accepts exactly the strings with no whitespace, one '@', a non-empty local part, and a '.' in the domain with text on both sides |
| `AuthPage.ValidateEmail` | src/pages/Auth.tsx:34-39 | empty gives "Email is required"; a non-empty address without the `.edu` suffix gives the .edu message even if malformed; an `.edu` address failing the pattern gives "Invalid email format"; success means both suffix and pattern hold |
| `AuthPage.EmailFieldError` | src/pages/Auth.tsx:106-109 | the email field passes exactly when `validateEmail` does, and otherwise reports its message |
| `AuthPage.PasswordFieldError` | src/pages/Auth.tsx:123-126 | the password field passes exactly when the provider's length check would; empty reports "Password is required", short reports the 6-character message |
| `AuthPage.Attempt` | src/pages/Auth.tsx:48-52 | the login tab asks `login`, every other tab value asks `signup` with the name |
| `AuthPage.ValidFormIsAccepted` | src/pages/Auth.tsx:174-177 | a form that passes its field rules is never refused by the provider, on either tab |
| `AuthPage.View` | src/pages/Auth.tsx:30-32 | a signed-in user is sent to /explore with `replace` and never sees the form |
| `AuthPage.EmailExamples` | src/pages/Auth.tsx:34-39 | worked cases: empty, a malformed non-.edu text, a `.com` address, an `.edu` address with a space, and a valid one |
| `AuthPage.AuthScreen.constructor` | src/pages/Auth.tsx:23-27 | the page opens on the login tab, not submitting, without an error, with an empty form |
| `AuthPage.AuthScreen.EnterValues` | src/pages/Auth.tsx:106-110 | typing into the registered inputs sets the form values |
| `AuthPage.AuthScreen.HandleTabChange` | src/pages/Auth.tsx:64-68 | changing tab sets the tab, clears the error and resets the form |
| `AuthPage.AuthScreen.OnSubmit` | src/pages/Auth.tsx:41-62 | dispatches on the tab, navigates to /explore only when the call succeeds, leaves the provider as that call leaves it, and ends not submitting with no error |
| `AuthPage.AuthScreen.HandleSubmit` | src/pages/Auth.tsx:94 | with a field error nothing is called and nothing changes, `isSubmitting` included; with none, `onSubmit` runs, always navigates to /explore and ends not submitting with no error |
| `Pullup.Disabled` | src/components/PullupButton.tsx:35 | the button is disabled exactly when its caption is "Joined" or it is animating; in a reachable state, exactly when joined or a callback is pending |
| `Pullup.Label` | src/components/PullupButton.tsx:43-53 | the caption is "Joined" exactly when pulled up, "Pullup" otherwise |
| `Pullup.AfterHandlePullup` | src/components/PullupButton.tsx:16-20 | when already joined the handler does nothing; otherwise it starts animating, still not joined, with one more callback scheduled |
| `Pullup.AfterTimer` | src/components/PullupButton.tsx:22-24 | a firing callback sets joined and stops the animation |
| `Pullup.Step` | src/components/PullupButton.tsx:33-35 | a click on a button that is joined or animating (`disabled`) changes nothing; a click on an enabled button is `handlePullup` (`AfterHandlePullup`); a firing callback is `AfterTimer` |
| `Pullup.DisabledIgnoresClicks` | src/components/PullupButton.tsx:33-35 | any number of clicks on a disabled button leaves its state exactly as it was |
| `Pullup.StepKeepsJoined` | src/components/PullupButton.tsx:17-24 | no click and no callback takes `isPulledUp` back to false |
| `Pullup.RunKeepsJoined` | src/components/PullupButton.tsx:13-30 | once joined, the button stays joined through any sequence of clicks and callbacks |
| `Pullup.RunStaysConsistent` | src/components/PullupButton.tsx:16-35 | with clicks gated by `disabled`, at most one callback is ever pending, the button animates exactly while one is, and never animates once joined |
| `Pullup.ClickThenTimerJoins` | src/components/PullupButton.tsx:16-30 | from idle a click gives animating-not-joined, and the callback then gives joined with caption "Joined" |
| `Pullup.PullupButton.constructor` | src/components/PullupButton.tsx:12-14 | a new button is idle |
| `Pullup.PullupButton.HandlePullup` | src/components/PullupButton.tsx:16-20 | the handler's state change is `AfterHandlePullup` |
| `Pullup.PullupButton.FireTimer` | src/components/PullupButton.tsx:22-29 | the callback's state change is `AfterTimer` |
| `Pullup.PullupButton.Click` | src/components/PullupButton.tsx:33-35 | a click reaches the handler only when the button is neither joined nor animating |
| `MyEventsDrawer.MyEvents` | src/components/explore/MyEventsDrawer.tsx:26 | the drawer holds exactly the catalogue events whose id was joined, never more events than the catalogue |
| `MyEventsDrawer.MyEventsFollowCatalogueOrder` | src/components/explore/MyEventsDrawer.tsx:26 | the drawer's list is a subsequence of the catalogue: catalogue order, not join order |
| `MyEventsDrawer.MyEventsIgnoresJoinOrder` | src/components/explore/MyEventsDrawer.tsx:26 | joined lists with the same ids give the same drawer, whatever their order or repetitions |
| `MyEventsDrawer.MyEventsIgnoresUnknownIds` | src/components/explore/MyEventsDrawer.tsx:26 | a joined id that names no catalogue event changes nothing |
| `MyEventsDrawer.View` | src/components/explore/MyEventsDrawer.tsx:26-80 | the header count is the number of cards, the empty message shows exactly when there are none, and the lock icon follows `isLocked` |
| `MyEventsDrawer.CallbacksFor` | src/components/explore/MyEventsDrawer.tsx:36-51 | a click on the lock calls only `onToggleLock`; the drawer toggles only from the header |
| `EventDetail.JoinList` | src/pages/EventDetail.tsx:147-153 | after a join the id is in the list; a new id is appended after the earlier entries, kept in order; a joined id leaves the list as it was; no duplicates are introduced |
| `EventDetail.JoinIdempotent` | src/pages/EventDetail.tsx:148 | joining the same id twice is joining it once |
| `EventDetail.JoinAllKeepsDistinct` | src/pages/EventDetail.tsx:147-153 | any sequence of joins keeps the list duplicate-free, keeps the earlier entries in front, and holds exactly the ids joined |
| `EventDetail.VisibleParticipants` | src/pages/EventDetail.tsx:155-158 | collapsed, the first min(5, n) participants in order; expanded, all of them |
| `EventDetail.OverflowCount` | src/pages/EventDetail.tsx:261-270 | the "+k" button appears only collapsed with more than five participants, with k at least 1 and exactly the number hidden |
| `EventDetail.LookupAsWritten` | src/pages/EventDetail.tsx:124 | an id resolves to the table's own record for '1' to '4', and to an inherited member for a name of `Object.prototype` |
| `EventDetail.RenderAsWritten` | src/pages/EventDetail.tsx:124-158 | as written, the page fails to render exactly for names inherited from `Object.prototype`, shows "Event Not Found" exactly for an absent id or one that is neither a table key nor such a name, and otherwise shows the table's record |
| `EventDetail.PrototypeNameEscapesNotFound` | src/pages/EventDetail.tsx:124-137 | as written, the id "constructor" passes the not-found guard and the page cannot render |
| `EventDetail.LookupEvent` | src/pages/EventDetail.tsx:16-110 | only the ids '1' to '4' resolve, each to the record with that id |
| `EventDetail.Render` | src/pages/EventDetail.tsx:124-158 | the not-found view shows exactly when the id names no event; otherwise the event with its visible participants and "+k" count |
| `EventDetail.RenderAgreesOffPrototype` | src/pages/EventDetail.tsx:124-137 | the corrected page differs from the written one only for names inherited from `Object.prototype` |
| `EventDetail.EventDetailPage.constructor` | src/pages/EventDetail.tsx:113-115 | the page starts collapsed with an empty joined list and an idle Pullup button |
| `EventDetail.EventDetailPage.LoadJoinedEvents` | src/pages/EventDetail.tsx:118-121 | the load effect takes the stored list, or the empty list when there is none |
| `EventDetail.EventDetailPage.HandleJoinEvent` | src/pages/EventDetail.tsx:147-153 | the list becomes `JoinList` of the old one; a new id also writes the new list under `joinedEvents`, so storage equals state; a joined id touches nothing |
| `EventDetail.EventDetailPage.ShowAllParticipants` | src/pages/EventDetail.tsx:266 | the "+k" button expands the participant list |
| `EventDetail.EventDetailPage.PressPullup` | src/pages/EventDetail.tsx:275-279 | a Pullup click changes only the button: the joined list and the storage are unchanged |
| `EventDetail.EventDetailPage.PullupTimerFires` | src/components/PullupButton.tsx:22-29 | the Pullup completion also leaves the joined list and the storage unchanged |
| `EventDetail.EventDetailPage.View` | src/pages/EventDetail.tsx:124-158 | the page shows "Event Not Found" exactly when the id names no event, otherwise the event with its visible participants and "+k" count for the current expansion; it never fails, and it equals the program's page for every id that is not an `Object.prototype` name |
| `CreateEvent.WithField` | src/pages/CreateEvent.tsx:42-49 | an input or select change sets exactly the named field and leaves every other field as it was |
| `CreateEvent.SubmitDecision` | src/pages/CreateEvent.tsx:66-88 | submit goes through, navigating to /explore, exactly when title, location, date and time are all non-empty; `data` and `image` are the payload it logs; otherwise it is rejected with the required-fields message |
| `CreateEvent.InitialFormRejected` | src/pages/CreateEvent.tsx:32-40 | an untouched form is rejected |
| `CreateEvent.OptionalFieldsDoNotMatter` | src/pages/CreateEvent.tsx:70 | description, duration, category and the image never decide whether a submit goes through |
| `CreateEvent.CreateEventPage.constructor` | src/pages/CreateEvent.tsx:31-40 | the form starts with all seven fields empty and no preview |
| `CreateEvent.CreateEventPage.HandleInputChange` | src/pages/CreateEvent.tsx:42-45 | the form becomes `WithField` of the old form |
| `CreateEvent.CreateEventPage.HandleSelectChange` | src/pages/CreateEvent.tsx:47-49 | the form becomes `WithField` of the old form |
| `CreateEvent.CreateEventPage.ImageLoaded` | src/pages/CreateEvent.tsx:55-57 | a loaded file's data URL becomes the preview |
| `CreateEvent.CreateEventPage.RemoveImage` | src/pages/CreateEvent.tsx:62-64 | the preview becomes null |
| `CreateEvent.CreateEventPage.HandleSubmit` | src/pages/CreateEvent.tsx:66-88 | navigates to /explore exactly when the four required fields are filled, logging the current form; changes no state |
| `ProtectedRoute.Guard` | src/components/ProtectedRoute.tsx:10-21 | loading shows the loading screen whatever the user; then no user redirects to /auth with `replace` and the original location; a user renders the outlet; exactly one of the three |
| `Navbar.Links` | src/components/Navbar.tsx:26-38 | one link per item, in order, active exactly when its path is the current path |
| `Navbar.Navbar` | src/components/Navbar.tsx:13-22 | hidden on /auth even when signed in and whenever not signed in; otherwise Explore, Community and Profile in that order, each linking to its own path and active exactly when that path is the current one |
| `Navbar.AtMostOneActive` | src/components/Navbar.tsx:18-32 | the item paths are distinct, so at most one item is active |

## Findings

| source | as written | input that shows it | evidently intended | confidence | as-written member | corrected member |
|---|---|---|---|---|---|---|
| src/pages/EventDetail.tsx:124-126 | `mockEventData[eventId]` looks the id up on a plain object, so names inherited from `Object.prototype` resolve to a truthy non-event and skip the not-found view; the page then reads `participants` of it and throws | `eventId = "constructor"` (also `toString`, `__proto__`, ...) | the "Event Not Found" view for every id that is not one of '1' to '4' | high for the lookup semantics; not executed; App.tsx mounts no `/event/:eventId` route, so the page is reachable only once one is added | `EventDetail.PrototypeNameEscapesNotFound` | `EventDetail.Render` |

## Left out

- Timers and asynchrony: the 800 ms delay in `login`/`signup` and the 600 ms Pullup delay are not modelled as time; login and signup complete in one step, and a scheduled Pullup callback is an explicit `FireTimer` step.
- `Date.now()` is the parameter `now`; toast notifications and `e.preventDefault()` have no modelled effect. The `console.log` in the create-event submit is not output: its payload is returned as the `data` and `image` of `CreateEvent.SubmitOutcome.Published`, and nothing is stored or passed to /explore.
- JSON: stored values are typed data. A `user` entry that is not a user record and a `joinedEvents` entry that is not an id list are treated as absent; the source would parse them (or throw) without a guard.
- The `catch` branches of `login`, `signup` and `onSubmit` are not modelled: nothing inside the modelled `try` blocks can throw (storage quota errors are not modelled).
- `AuthPage.AuthScreen.OnSubmit`: `isSubmitting` is true only while the awaited call runs; the model shows only the final value, false.
- `EventDetail.EventDetailPage.View`: the page class shows the corrected page (`Render`, own keys only); for a name inherited from `Object.prototype` the program as written fails to render instead, which `EventDetail.RenderAsWritten` models.
- The FileReader plumbing of `handleImageChange` is not modelled beyond its completion, `ImageLoaded`.
- Rendering, styling, icons and avatars; the fixtures' descriptions and image addresses are not carried, and `MockData.MockEvents` has `image` set to `None`.
- React's batching of state updates is not modelled: each `set...` call takes effect at once.
- `src/components/MapboxMap.tsx` (the mapping library, geolocation, heat-map floats), `src/components/MapView.tsx` (random positions) and the static pages and components that only render props or constant lists.
- Time-conflict checks on join, setting the browsing lock, category/search/sort pipelines and hotspot matching: none of these exists in the modelled files.
