# Lumina client: the UI logic, modelled in Dafny

Lumina is a single-page, mock-data location-based social client written in
React. This project models the discrete logic of its screens, lifted out of
the React hooks into plain state and transition methods, and proves what
that logic promises:

- **Sign-in** (`auth.dfy`, module `Auth`): a class `AuthScreen` holding the
  contact method, the contact value, the step (contact entry or code entry),
  a six-slot one-time code in an `array<string>` and the resend countdown.
  Its methods are the event handlers: Continue, editing one code slot (copy
  the code, write one slot, maybe hand a login request to `onLogin`), one
  interval tick, Resend, and "Change Number/Email".
- **Chat overlay** (`chat_window.dfy`, module `Chat`): a class `ChatWindow`
  whose transcript only grows. Sending blank input does nothing; otherwise one
  message from `me` is appended and the input is cleared. The range warning
  shows strictly beyond 1000 m.
- **Discover list** (`nearby_list.dfy`, module `NearbyList`): users split at
  1000 m into an active section and a greyed "Just Out of Reach" section,
  order kept. The two section-visibility conditions and the card click guard
  are modelled too.
- **Application** (`app.dfy`, module `App`): the nearby list is annotated
  with distances and stably sorted by distance. Also: the sign-in gate, the
  ghost-mode toggle, location updates with the Los Angeles fallback, the tab
  titles, the Settings→Profile remap for the navbar, and the chat-partner
  lookup with its "Mystery User" fallback. The mutable state is a class
  `AppState` whose invariant keeps the nearby list sorted.
- **Navbar** (`navbar.dfy`, module `Navbar`): the fixed tab list, the
  highlight computation and the click dispatch.

Shared pieces: `types.dfy` (the records: `Location`, `User` with an optional
distance, `Message`, `Chat`, `AppTab`, and the 1000 m threshold evaluated as
JavaScript does for a missing distance), `text.dfy` (JavaScript's
`String.prototype.trim` over the whitespace set of ECMA-262), and `seqs.dfy`
(`filter`, `find` and a stable sort by a numeric key, with their laws).

Distances are an uninterpreted parameter `dist: (Location, Location) -> real`
or an `Option<real>` field; the clock (`Date.now()`) and the fixture data
are parameters. The properties proved are about thresholds, partitioning,
ordering, permutation, stability and the state machines, not trigonometry.

## Model

| member | source | states |
|---|---|---|
| Types.RangeSides | components/NearbyList.tsx:13-14 | a defined distance is either within 1000 m or beyond it, never both; a missing distance is neither; exactly 1000 m is within |
| Text.Trim | components/ChatWindow.tsx:32 | `trim()` returns a slice of the input; everything cut off on either side is ECMAScript whitespace; a non-empty result starts and ends with a non-whitespace character |
| Text.Blank | components/ChatWindow.tsx:32 | `!s.trim()`: the trimmed string is empty; by `BlankIffAllWhitespace`, exactly when `s` is whitespace only |
| Text.BlankIffAllWhitespace | components/Auth.tsx:25 | `s.trim()` is falsy (empty) exactly when every character of `s` is whitespace |
| Seqs.Filter | components/NearbyList.tsx:13-14 | `filter` keeps exactly the elements that satisfy the predicate, and never lengthens |
| Seqs.FilterMultiset | components/NearbyList.tsx:13-14 | `filter` keeps every occurrence of a kept element and no occurrence of a dropped one |
| Seqs.FilterIsSubsequence | components/NearbyList.tsx:13-14 | `filter` keeps the relative order of what it keeps |
| Seqs.FilterPartition | components/NearbyList.tsx:13-14 | three filters whose predicates cover each element exactly once split the input: multisets and lengths add up to the input's |
| Seqs.Find | App.tsx:135 | `find` returns nothing iff no element satisfies the predicate, else the first element that does |
| Seqs.SortBy | App.tsx:57 | the sort result is non-decreasing by the key and a permutation of the input |
| Seqs.SortByStable | App.tsx:57 | the sort is stable: the elements of each key value come out in their input order |
| Auth.NextTimer | components/Auth.tsx:16-22 | one tick decrements the countdown only on the code step and only while it is positive, so from a non-negative value it stays non-negative |
| Auth.CountdownStopsAtZero | components/Auth.tsx:18-19 | from `t >= 0`, `k` ticks on the code step leave `t - k` or, once that would be negative, exactly 0 |
| Auth.ResendShown | components/Auth.tsx:122 | the Resend control replaces the countdown text on the code step once the countdown is not positive; `FullCountdown` relates it to the ticks |
| Auth.FullCountdown | components/Auth.tsx:122-123 | thirty ticks after the countdown is set to 30 the Resend control is shown on the code step, and after any smaller number of ticks it is not |
| Auth.CompletionNeedsInput | components/Auth.tsx:40-42 | if the code is complete after writing `val` into a slot, `val` is non-empty: clearing a slot never logs in |
| Auth.ContinueEnabled | components/Auth.tsx:92 | `disabled={!value}`: Continue is enabled for every non-empty value, whitespace included (see `ContinueEnabledOnBlankValue`) |
| Auth.ContinueEnabledOnBlankValue | components/Auth.tsx:92 | the Continue button (`disabled={!value}`) is enabled for a value of spaces, for which `handleNext` does nothing |
| Auth.CopySlots | components/Auth.tsx:30 | `[...otp]` is a fresh array with the same slots |
| Auth.AuthScreen.constructor | components/Auth.tsx:10-14 | initial state: phone, empty value, contact step, six empty slots, countdown 30 |
| Auth.AuthScreen.ResendOffered | components/Auth.tsx:122 | the Resend control is on screen: `ResendShown` of the current step and countdown |
| Auth.AuthScreen.SelectMethod | components/Auth.tsx:60 | the Phone/Email switch, present on the contact step only, sets only the method |
| Auth.AuthScreen.EditValue | components/Auth.tsx:85 | typing in the contact field, present on the contact step only, sets only the value |
| Auth.AuthScreen.HandleNext | components/Auth.tsx:24-26 | pressed on the contact step, moves to the code step iff the value is not blank after trimming, otherwise stays; nothing but the step ever changes |
| Auth.AuthScreen.HandleOtpChange | components/Auth.tsx:28-43 | called from a code input, which exists on the code step only: input longer than one character changes nothing and logs in no one; otherwise the code becomes the old code with only slot `index` replaced (still six slots), focus moves to the next slot iff `val` is non-empty and `index < 5`, and `onLogin(method, value)` is called iff all six slots are filled and `index == 5` |
| Auth.AuthScreen.Tick | components/Auth.tsx:16-22 | one interval tick changes only the countdown, as `NextTimer`, keeping it within 0..30 |
| Auth.AuthScreen.Resend | components/Auth.tsx:122-123 | Resend is offered exactly on the code step with countdown 0 and resets the countdown to 30; at any other time nothing changes |
| Auth.AuthScreen.ChangeContact | components/Auth.tsx:127 | pressed on the code step, returns to the contact step; method, value, code and countdown untouched |
| Chat.OpeningTranscript | components/ChatWindow.tsx:13-15 | the transcript opens with exactly one message, the greeting, sent by the partner before the window opened |
| Chat.OutOfRange | components/ChatWindow.tsx:28 | the warning holds iff the partner's distance is defined and strictly greater than 1000 |
| Chat.SendDisabled | components/ChatWindow.tsx:107 | `disabled={!inputText.trim()}`: the button is disabled exactly for blank input, the same test `handleSend` makes (see `DisabledIffNoEffect`) |
| Chat.AfterSend | components/ChatWindow.tsx:31-41 | on blank input the transcript is unchanged; otherwise it is the old transcript followed by exactly one message from `me` holding the untrimmed input |
| Chat.SendOnlyAppends | components/ChatWindow.tsx:39 | the old transcript is a prefix of the new one, which is at most one longer |
| Chat.DisabledIffNoEffect | components/ChatWindow.tsx:107 | the send button is disabled exactly when pressing it would leave the transcript unchanged, exactly for whitespace-only input |
| Chat.ChatWindow.constructor | components/ChatWindow.tsx:13-17 | opening state: the greeting transcript, empty input, no warning |
| Chat.ChatWindow.CheckRange | components/ChatWindow.tsx:26-29 | the range effect sets only the warning flag, to `OutOfRange` of the partner |
| Chat.ChatWindow.EditInput | components/ChatWindow.tsx:101 | typing sets only the input |
| Chat.ChatWindow.HandleSend | components/ChatWindow.tsx:31-41 | blank input changes nothing; otherwise one message is appended as `AfterSend` says and the input is cleared to `""` |
| NearbyList.NearbyOnly | components/NearbyList.tsx:13 | the active section holds exactly the users with a distance of at most 1000, as a subsequence of the input |
| NearbyList.OutOfReach | components/NearbyList.tsx:14 | the greyed section holds exactly the users with a distance greater than 1000, as a subsequence of the input |
| NearbyList.Partition | components/NearbyList.tsx:13-14 | every user with a distance is in exactly one section, every user without one in neither; with the distance-less users the sections add up to the input, as multisets and in length |
| NearbyList.PartitionComplete | components/NearbyList.tsx:13-14 | when every user has a distance the two section lengths sum to the number of users |
| NearbyList.SectionVisibility | components/NearbyList.tsx:24-36 | the empty-state text shows iff no user is within 1000 m; the "Just Out of Reach" section shows iff some user is beyond 1000 m |
| NearbyList.EmptyStateShown | components/NearbyList.tsx:24 | the empty-state text replaces the active section when it has no user; `SectionVisibility` states when that is |
| NearbyList.OutOfReachShown | components/NearbyList.tsx:36 | the "Just Out of Reach" section is rendered when it has a user; `SectionVisibility` states when that is |
| NearbyList.CardClick | components/NearbyList.tsx:52 | a greyed card selects nothing; an active card selects its user |
| NearbyList.AsCards | components/NearbyList.tsx:24-43 | each section renders one card per user, in order, flagged greyed or not |
| NearbyList.Cards | components/NearbyList.tsx:24-43 | the screen shows the active cards first, one per nearby user in order and not greyed, then one greyed card per out-of-reach user in order, and nothing else |
| NearbyList.ClickSelectsOnlyNearby | components/NearbyList.tsx:40-52 | clicking any card of the list selects nothing or a listed user within 1000 m; greyed cards never call `onSelect` |
| NearbyList.ThresholdAgreesWithChat | components/NearbyList.tsx:13 | for a user with a distance, being in the active section and having no chat range warning coincide; exactly 1000 m is in range in both |
| Navbar.Highlights | components/Navbar.tsx:22-24 | a tab is highlighted iff its id equals the active tab |
| Navbar.TabOrder | components/Navbar.tsx:12-17 | the tabs are exactly Nearby, Map, Chats, Profile in that order; Settings has none |
| Navbar.AtMostOneHighlighted | components/Navbar.tsx:24 | no two tabs are highlighted at once |
| Navbar.TabClick | components/Navbar.tsx:28 | the `i`-th button asks for its own tab's id, never Settings, a tab that then highlights that button |
| App.TabTitle | App.tsx:74-83 | `getTabTitle`: Discover, Explore, Inbox, Me and Settings for the five tabs; every title is non-empty (the empty `default` is unreachable) and the title is "Settings" exactly for the Settings tab |
| App.TabTitleInjective | App.tsx:74-83 | no two tabs share a title, and none is empty |
| App.HeaderTitle | App.tsx:88 | the header, absent on Settings, shows the tab's title, so the "Settings" title is never displayed |
| App.NavbarTab | App.tsx:192 | the navbar is given Profile for Settings and the active tab itself otherwise; never Settings |
| App.ExactlyOneHighlighted | App.tsx:192 | for every tab value exactly one navbar tab is highlighted, Profile for Settings |
| App.ClickedTabIsHighlighted | App.tsx:192 | after clicking the `i`-th navbar button, that button and no other is highlighted |
| App.DistanceKey | App.tsx:57 | `a.distance \|\| 0`: the sort key is the distance when there is one and 0 otherwise |
| App.Annotated | App.tsx:54-56 | an annotated user carries the distance from the current location to its own location and is otherwise unchanged |
| App.Annotate | App.tsx:54-56 | `map` annotates every fixture user, position by position |
| App.NearbyUsers | App.tsx:53-57 | the nearby list is sorted by distance (missing counted as 0), a permutation of the annotated fixture users, and every element carries the distance from the current location |
| App.NearbyUsersStable | App.tsx:57 | users at equal distances keep the order the fixture gave them |
| App.WithGhostToggled | App.tsx:67 | the ghost flag is flipped and every other field of the user is unchanged |
| App.ToggleTwiceRestores | App.tsx:66-68 | toggling ghost mode twice restores the user |
| App.WithLocation | App.tsx:33 | only the location of the user is replaced |
| App.OtherParticipant | App.tsx:135 | the participant found is not `me`, is one of the two, is the first one if that is not `me`, and is missing only when both are `me` |
| App.PartnerOf | App.tsx:135-138 | the partner is a nearby user iff one has the other participant's id, and then the first such; otherwise the Mystery User placeholder |
| App.UnknownPartnerIsMystery | App.tsx:135-138 | a chat whose other participant matches no nearby user's id gets the placeholder partner, named "Mystery User" |
| App.ChatPartners | App.tsx:134-138 | the chat list has one partner per chat, in order |
| App.PartnerName | App.tsx:135-148 | a chat row shows the nearby user's name, or "Mystery User" for the placeholder |
| App.AppState.CurrentScreen | App.tsx:70-119 | the sign-in screen is shown iff not signed in; the locating spinner iff signed in without a location; once signed in and located, the active tab |
| App.AppState.NavbarActive | App.tsx:192 | the navbar is given the active tab itself, or Profile when Settings is active |
| App.AppState.constructor | App.tsx:16-21 | initial state: signed out, Nearby tab, the mock current user, no nearby users, no chat open, no location yet |
| App.AppState.HandleLogin | App.tsx:62-64 | sign-in sets only the authenticated flag, after which the sign-in screen is gone |
| App.AppState.OnPosition | App.tsx:28-34 | a position report replaces only the user's location and marks the location ready |
| App.AppState.OnPositionError | App.tsx:36-42 | a location error replaces only the user's location, by (34.0522, -118.2437), and marks the location ready |
| App.AppState.RefreshNearby | App.tsx:50-60 | once a location is ready the nearby list becomes `NearbyUsers` of the fixture users at that location; before that it stays empty; it stays sorted |
| App.AppState.ToggleGhostMode | App.tsx:66-68 | only the current user's ghost flag flips |
| App.AppState.SetActiveTab | App.tsx:192 | `onTabChange={setActiveTab}` sets only the active tab |
| App.AppState.SelectChatUser | App.tsx:142 | opening a chat sets only the selected partner |
| App.AppState.CloseChat | App.tsx:186 | closing the chat clears only the selected partner |

## Left out

- `utils/geo.ts` (Haversine distance, `formatDistance`, random points): floating-point trigonometry, `Math.round`/`toFixed` formatting and `Math.random`. The distance is the parameter `dist`; the formatted label is not modelled.
- `services/mockApi.ts`: the fixture users are the `raw` argument of `RefreshNearby`, the mock chats the `chats` argument of `ChatPartners`, the mock current user the argument of the `AppState` constructor.
- `components/MapView.tsx`, `components/SettingsView.tsx`, `components/ProfileView.tsx`: Leaflet calls and markup. Their callbacks are the modelled `SelectChatUser`, `ToggleGhostMode` and `SetActiveTab`.
- Browser plumbing: `watchPosition`/`clearWatch` (the callbacks are `OnPosition` and `OnPositionError`, which require a signed-in state because the watch exists only then), `setInterval`/`clearInterval` (`Tick` is one interval callback), `focus()` (its target is returned by `HandleOtpChange`), scrolling, logging, JSX and CSS.
- React scheduling: each handler is one atomic state change, and each effect is a method (`Tick`, `CheckRange`, `RefreshNearby`) that a caller runs after the change it depends on. Batching and render order are not modelled.
- The clock: `Date.now()` values are the `now` and `id` parameters. JavaScript reads the clock twice in `handleSend`, so the id and the timestamp need not agree.
- Floating point: distances are `real`. NaN is not modelled (in JavaScript `NaN || 0` is 0 and NaN compares false with 1000).
- Auth.AuthScreen.HandleOtpChange: `val.length` counts UTF-16 code units in JavaScript, while a Dafny `char` is a Unicode scalar value. A character outside the Basic Multilingual Plane is therefore rejected there and accepted here. The method also requires `index < 6` and the code step, because only the six code inputs call the handler and they exist on that step only. Likewise `SelectMethod`, `EditValue` and `HandleNext` require the contact step and `ChangeContact` the code step, where their controls are rendered.
- The "Mystery User" placeholder cast to `User` and handed to the chat overlay has no id and no distance. `ChatWindow` is modelled over real users only.
- Chat.OpeningTranscript: states only that the greeting's timestamp is earlier than `now`. The exact 50000 ms offset is the constant `GreetingAgeMs`.
- Rendering of the contact screen (placeholders, icons) and the header's profile button styling: presentation only. The button's `setActiveTab(PROFILE)` is `SetActiveTab`.
