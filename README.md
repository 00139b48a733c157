# Little Lemon client state, modelled in Dafny

This project models the client-side state of the Little Lemon restaurant app, a
React Native application. It has five parts:

- **Home screen** (`HomeScreen`, `MenuFilter`, `Debounce`, `Text`). The menu list
  is always recomputed from the full catalog. The category filter (`===`) runs
  first, then the case-insensitive name search (ASCII `toLowerCase` and
  `includes`). The search box is debounced: every keystroke that changes the text
  replaces the one pending timer, and only a timer that fires commits its text to
  the query. Time is reduced to the order of `Keystroke` and `TimerFires` events.
- **Category bar** (`CategoryBar`). Five buttons. Pressing "All" stores `null`.
  Pressing any other button stores its label. A button is highlighted when it
  equals the selection, and "All" is also highlighted when the selection is falsy.
- **Profile screen** (`ProfileStore`, `NotificationPrefs`). A class holding the six
  profile fields. It has a load on mount, in-memory edits, a batch save of six
  keys, a discard that re-reads the store, and a logout that clears the store.
  The notification switches are a four-field record with a canonical JSON text
  form.
- **Onboarding** (`OnboardingFlow`). Two fields pre-filled from the store, then
  two sequential writes before `onDone`.
- **Startup gate** (`AppShell`). A splash screen while the stored
  `onboardingCompleted` flag is read. After that, the route set {Home, Profile}
  or {Onboarding} is offered. The flag counts only when the stored text is
  exactly `"true"`.

The device store (`AsyncStore.Storage`) is a class over a `map<string, string>`
that every screen shares. JavaScript truthiness is written out: a stored value is
truthy when it is present and not the empty string, and a selection is truthy
when it is set and not empty. Each storage operation that can fail takes a
boolean outcome parameter. A failed `setItem` or `clear` that the source does not
catch ends its handler. A failed write that the source catches leaves the state
as it was.

Where the code behaves differently from what a reader might expect of such an
app, the model follows the code:

- The mount load and "Discard changes" are different operations. On mount, a
  field is replaced only by a stored value that is present and non-empty. A
  discard resets every field whose key is missing or empty to its default. Over
  the initial state the two agree (`ProfileStore.MountLoadIsDiscard`).
- Stored notifications that do not parse are not replaced by the defaults. The
  parse throws, which leaves the switches as they were. The fields set before
  the parse have already changed.
- Only `saveChanges` and the app shell catch storage errors. A failed write in
  onboarding, or a failed clear in logout, ends the handler at that point.
- Logout clears the stored completion flag but not the root's in-memory flag.
  See "## Findings".

## Model

| member | source | states |
|---|---|---|
| Text.ToLower | capstone-/capstone-/Screens/Home.js:35-37 | lower-casing keeps the length, maps every character through ASCII lower-casing and leaves no upper-case letter |
| Text.ContainsIffOccurs | capstone-/capstone-/Screens/Home.js:37 | `includes` holds exactly when the needle occurs at some index of the haystack |
| Text.ContainsEmpty | capstone-/capstone-/Screens/Home.js:37 | every name includes the empty string |
| Text.MissingFirstChar | capstone-/capstone-/Screens/Home.js:37 | a non-empty needle whose first character is absent from the haystack is not included |
| Text.LowerSaladExample | capstone-/capstone-/Screens/Home.js:35-37 | "Greek Salad" lower-cases to "greek salad" |
| Text.NoCakeInSalad | capstone-/capstone-/Screens/Home.js:37 | "greek salad" does not include "cake" |
| MenuFilter.SubsequenceTransitive | capstone-/capstone-/Screens/Home.js:28-38 | two filter passes in a row still give a subsequence of the catalog |
| MenuFilter.Keep | capstone-/capstone-/Screens/Home.js:31 | `Array.filter`: the result is a subsequence of the input; a value is in it exactly when it is in the input and passes; passing values keep their multiplicity |
| MenuFilter.KeepAppend | capstone-/capstone-/Screens/Home.js:31 | filtering a concatenation is concatenating the filtered parts |
| MenuFilter.KeepCommutes | capstone-/capstone-/Screens/Home.js:30-39 | two filter passes with different predicates can be swapped |
| MenuFilter.Filter | capstone-/capstone-/Screens/Home.js:27-42 | the list shown is a subsequence of the catalog (no reordering, duplication or invention); an item is shown exactly when it is in the catalog, matches a truthy selected category exactly and, for a non-empty query, has a lower-cased name that includes the lower-cased query; every shown item appears as often as in the catalog |
| MenuFilter.FilterIdentity | capstone-/capstone-/Screens/Home.js:28-41 | no category (null or empty) and an empty query show the whole catalog in catalog order |
| MenuFilter.FilterOrderIrrelevant | capstone-/capstone-/Screens/Home.js:30-39 | the category filter before or after the text filter gives the same sequence |
| MenuFilter.CategoryOnlyNarrows | capstone-/capstone-/Screens/Home.js:30-32 | selecting a category only removes items from what the same query shows without one |
| MenuFilter.StartersOnly | capstone-/capstone-/Screens/Home.js:31 | on a salad and a cake, "Starters" keeps only the salad |
| MenuFilter.SaladMatches | capstone-/capstone-/Screens/Home.js:36-38 | "greek" matches "Greek Salad" and "cake" does not |
| MenuFilter.GreekSaladExample | capstone-/capstone-/Screens/Home.js:27-42 | "Starters" with "greek" shows the salad alone; "Starters" with "cake" shows nothing |
| Debounce.MountedConsistent | capstone-/capstone-/Screens/Home.js:20-25 | the state after mount (empty text, commit of the empty text pending) is consistent |
| Debounce.StepConsistent | capstone-/capstone-/Screens/Home.js:20-25 | every keystroke and every timer firing keeps the pending value equal to the text, and once nothing is pending, the query equal to the text |
| Debounce.QueryWasTyped | capstone-/capstone-/Screens/Home.js:20-25 | over any run of events, the committed query is the starting text, the starting query or a text that was typed |
| Debounce.KeystrokesDoNotCommit | capstone-/capstone-/Screens/Home.js:20-25 | keystrokes with no firing in between leave the query unchanged, and the text ends as the last one typed |
| Debounce.RunAppend | capstone-/capstone-/Screens/Home.js:20-25 | running two event sequences one after the other is running their concatenation |
| Debounce.LastKeystrokeWins | capstone-/capstone-/Screens/Home.js:20-25 | after several keystrokes, the next firing commits only the last text, and a further firing changes nothing |
| Debounce.TypingAbcdExample | capstone-/capstone-/Screens/Home.js:20-25 | typing "a" to "abcd" quickly commits nothing until the timer fires, then commits "abcd" |
| HomeScreen.Home.constructor | capstone-/capstone-/Screens/Home.js:11-42 | after the mount effects the whole catalog is listed, nothing is selected, the empty query is pending, and the screen invariant holds |
| HomeScreen.Home.TypeSearch | capstone-/capstone-/Screens/Home.js:75-80 | a keystroke is one debounce step; the query, the selection and the list stay as they were; the invariant is kept |
| HomeScreen.Home.TimerFires | capstone-/capstone-/Screens/Home.js:20-42 | a firing is one debounce step and the list becomes the filter of the full catalog by the new query; the invariant is kept |
| HomeScreen.Home.SelectCategory | capstone-/capstone-/Screens/Home.js:82-85 | a button press stores the selection the category bar maps it to; the list becomes the filter of the full catalog by it; the invariant (which includes "the selection is never 'All'") is kept |
| HomeScreen.PressAllClearsCategory | capstone-/capstone-/components/Categories.js:19-21 | after pressing "All" the list is what no selection gives, so the full catalog for an empty query |
| HomeScreen.StartersSearchSession | capstone-/capstone-/Screens/Home.js:20-42 | selecting "Starters", typing "greek" and letting the timer fire lists only the salad |
| CategoryBar.Press | capstone-/capstone-/components/Categories.js:19-25 | "All" stores null, any other label stores itself, and the stored selection is never "All" |
| CategoryBar.HighlightedAmong | capstone-/capstone-/components/Categories.js:10-11 | a button is in the highlighted list exactly when it is one of the buttons and `isSelected` holds for it |
| CategoryBar.NoneHighlighted | capstone-/capstone-/components/Categories.js:11 | when no button satisfies `isSelected`, none is highlighted |
| CategoryBar.AtMostOneAmongDistinct | capstone-/capstone-/components/Categories.js:11 | among distinct non-empty labels, at most one button is highlighted |
| CategoryBar.ExactlyOneHighlighted | capstone-/capstone-/components/Categories.js:4-11 | exactly one of the five buttons is highlighted when the selection is falsy or one of the five labels, and none otherwise; "All" is highlighted exactly when the selection is falsy |
| CategoryBar.PressHighlightsOnlyIt | capstone-/capstone-/components/Categories.js:11-25 | after pressing a button, that button and no other is highlighted |
| NotificationPrefs.EqualByKeys | capstone-/capstone-/Screens/Profile.js:13-18 | two switch records that agree on all four keys are equal |
| NotificationPrefs.Toggle | capstone-/capstone-/Screens/Profile.js:60-62 | the toggled key is negated and the other three keys are unchanged |
| NotificationPrefs.ToggleTwice | capstone-/capstone-/Screens/Profile.js:61 | toggling the same key twice restores the record |
| NotificationPrefs.ToggleCommutes | capstone-/capstone-/Screens/Profile.js:60-62 | toggling two keys in either order gives the same record |
| NotificationPrefs.Expect | capstone-/capstone-/Screens/Profile.js:35 | the parser consumes a literal only when the text starts with it |
| NotificationPrefs.ExpectLiteral | capstone-/capstone-/Screens/Profile.js:35 | a literal followed by any rest is consumed, leaving the rest |
| NotificationPrefs.ParseBool | capstone-/capstone-/Screens/Profile.js:35 | a parsed boolean is exactly the text of `true` or `false` followed by the rest |
| NotificationPrefs.ParseBoolText | capstone-/capstone-/Screens/Profile.js:35 | the text of a boolean parses back to it |
| NotificationPrefs.DecodeEncode | capstone-/capstone-/Screens/Profile.js:72 | parsing the stringified switches gives back the same record |
| NotificationPrefs.EncodeDecode | capstone-/capstone-/Screens/Profile.js:95 | any text that parses is exactly the stringified form of the record it parses to |
| AsyncStore.WriteAll | capstone-/capstone-/Screens/Profile.js:66-73 | `multiSet` adds exactly the written keys, leaves every other key's value alone, and each key holds the value of the last pair that writes it |
| AsyncStore.Lookup | capstone-/capstone-/Screens/Profile.js:23-28 | `getItem` yields a value exactly for a present key, and that value is the stored one |
| AsyncStore.Storage.SetItem | capstone-/capstone-/Screens/Onboarding.js:20-21 | `setItem` updates one key and nothing else |
| AsyncStore.Storage.MultiSet | capstone-/capstone-/Screens/Profile.js:66-73 | `multiSet` leaves the store as the pairs written in order over the old contents |
| AsyncStore.Storage.Clear | capstone-/capstone-/Screens/Profile.js:105 | `clear` empties the store |
| ProfileStore.AvatarText | capstone-/capstone-/Screens/Profile.js:67 | a null or empty avatar is saved as '', and any other URI is saved unchanged |
| ProfileStore.AvatarRoundTrip | capstone-/capstone-/Screens/Profile.js:67-90 | saving an avatar and discarding gives it back, with '' read back as null and null staying null |
| ProfileStore.SavedUnfolds | capstone-/capstone-/Screens/Profile.js:66-73 | after a save, each of the six keys holds the saved field in its stored form |
| ProfileStore.SaveWritesExactlyProfileKeys | capstone-/capstone-/Screens/Profile.js:66-73 | a save adds exactly the six profile keys, and every other key (the onboarding flag included) keeps its value |
| ProfileStore.Discarded | capstone-/capstone-/Screens/Profile.js:83-100 | a present, non-empty stored value is what the field reads (the avatar as that URI, the switches as its parse, or the current switches when it does not parse); an absent or empty one reads as its default: '' for text, null for the avatar, all on for the switches; the avatar never reads as '' |
| ProfileStore.Loaded | capstone-/capstone-/Screens/Profile.js:23-35 | on mount, a field whose stored value is present and non-empty takes that value (the switches its parse, kept as they are when it does not parse); every other field keeps its value |
| ProfileStore.MountLoadIsDiscard | capstone-/capstone-/Screens/Profile.js:20-37 | loading over the initial state reads the same profile as a discard from it |
| ProfileStore.SaveThenDiscard | capstone-/capstone-/Screens/Profile.js:64-102 | a save followed by a discard restores the saved profile, with an empty avatar read as null, whatever else the store held |
| ProfileStore.SaveThenRemount | capstone-/capstone-/Screens/Profile.js:20-73 | after a save, a fresh screen's mount load shows the saved profile |
| ProfileStore.ClearedStoreGivesDefaults | capstone-/capstone-/Screens/Profile.js:104-106 | on the empty store both the load and a discard yield every default |
| ProfileStore.Initials | capstone-/capstone-/Screens/Profile.js:120 | the initials are the first letter of the first name, if any, then that of the last name, if any: zero to two characters |
| ProfileStore.ProfileScreen.constructor | capstone-/capstone-/Screens/Profile.js:8-18 | the screen starts with no avatar, empty texts and every switch on |
| ProfileStore.ProfileScreen.Load | capstone-/capstone-/Screens/Profile.js:20-37 | the mount effect leaves the fields as the load of the store over their previous values |
| ProfileStore.ProfileScreen.Edit | capstone-/capstone-/Screens/Profile.js:134-156 | typing into one text input changes that field and nothing else |
| ProfileStore.ProfileScreen.PickImage | capstone-/capstone-/Screens/Profile.js:39-54 | a granted, completed pick sets the avatar, and a refusal or a cancel changes nothing |
| ProfileStore.ProfileScreen.RemoveImage | capstone-/capstone-/Screens/Profile.js:56-58 | the avatar becomes null and nothing else changes |
| ProfileStore.ProfileScreen.ToggleNotification | capstone-/capstone-/Screens/Profile.js:60-62 | one switch is flipped in memory and nothing else changes |
| ProfileStore.ProfileScreen.SaveChanges | capstone-/capstone-/Screens/Profile.js:64-78 | a successful save leaves the store as the saved form of the current fields over its old contents; a failed one leaves it untouched |
| ProfileStore.ProfileScreen.DiscardChanges | capstone-/capstone-/Screens/Profile.js:80-102 | the fields become the discard reading of the store; unparseable switches are left as they were |
| ProfileStore.ProfileScreen.Logout | capstone-/capstone-/Screens/Profile.js:104-107 | a successful clear empties the store (the onboarding flag included) and asks for a reset to Onboarding; a failed one changes nothing and asks for nothing |
| OnboardingFlow.Onboarded | capstone-/capstone-/Screens/Onboarding.js:19-23 | finishing onboarding adds exactly the keys firstName and email, holding the field values, and every other key keeps its value |
| OnboardingFlow.ProfileReadsOnboarding | capstone-/capstone-/Screens/Onboarding.js:20-21 | the profile discard reads back the onboarding name and email, empty ones included; its mount load shows each non-empty one |
| OnboardingFlow.Onboarding.constructor | capstone-/capstone-/Screens/Onboarding.js:6-7 | both fields start empty |
| OnboardingFlow.Onboarding.Prefill | capstone-/capstone-/Screens/Onboarding.js:9-17 | a field takes its stored value only when that value is present and non-empty |
| OnboardingFlow.Onboarding.EditFirstName | capstone-/capstone-/Screens/Onboarding.js:30-35 | typing changes the first name only |
| OnboardingFlow.Onboarding.EditEmail | capstone-/capstone-/Screens/Onboarding.js:38-45 | typing changes the email only |
| OnboardingFlow.Onboarding.SaveAndFinish | capstone-/capstone-/Screens/Onboarding.js:19-23 | `onDone` is reached exactly when both writes succeed; the name and email are stored without validation; a failed first write stores nothing; a failed second write keeps the stored name |
| AppShell.Render | capstone-/capstone-/App.js:44-65 | the splash shows exactly while loading; afterwards exactly one non-empty route set is offered: Home and Profile when completed, Onboarding otherwise |
| AppShell.StartShowsSplash | capstone-/capstone-/App.js:15-46 | the app starts loading and not completed, on the splash screen |
| AppShell.StartupGate | capstone-/capstone-/App.js:19-33 | after the startup read, loading has ended; completion holds exactly when the read succeeded and the stored flag is exactly "true"; an absent flag offers the onboarding route |
| AppShell.OnlyExactTrueCounts | capstone-/capstone-/App.js:23 | any stored text other than "true" leaves completion false |
| AppShell.CompletionIdempotent | capstone-/capstone-/App.js:35-42 | completing onboarding sets the flag in memory and in the store; doing it twice gives the same state |
| AppShell.CompletionPersists | capstone-/capstone-/App.js:19-38 | after a stored completion, the next start offers Home and Profile |
| AppShell.App.constructor | capstone-/capstone-/App.js:15-16 | the root starts loading and not completed |
| AppShell.App.CheckOnboarding | capstone-/capstone-/App.js:20-30 | the mount effect leaves the gate as the startup read of the store, and a failed read still ends loading |
| AppShell.App.CompleteOnboarding | capstone-/capstone-/App.js:35-42 | a successful write stores "true" and sets the flag; a failed one changes neither |
| AppShell.App.SignOut | capstone-/capstone-/Screens/Profile.js:104-107 | the corrected logout clears the store and the in-memory flag together, so the onboarding route is offered |
| AppShell.FreshInstall | capstone-/capstone-/App.js:44-62 | a first start on an empty store offers only the onboarding route |
| AppShell.OnboardThenRestart | capstone-/capstone-/Screens/Onboarding.js:19-23 | after onboarding and a restart, Home and Profile are offered and the profile shows the name and email given at onboarding, empty ones included |
| AppShell.LogoutAsWritten | capstone-/capstone-/Screens/Profile.js:104-107 | after a logout as written, the reset target Onboarding is not among the routes the navigator offers |
| AppShell.SignOutCorrected | capstone-/capstone-/Screens/Profile.js:104-107 | with the corrected logout, the onboarding route is offered at once and after a restart, and the profile shows every default |

## Left out

- ProfileStore.Initials: takes the first character of each name, where JavaScript's `[0]` takes the first UTF-16 code unit, so a name that starts outside the Basic Multilingual Plane gives half a surrogate pair there and a whole character here.
- Rendering, styles, `FlatList`, images, the hero section, `MenuItems.js` and
  `Header.js`: they are presentation. Home's `avatarUri` is never set, and it only
  feeds the header.
- `HomeScreen.Home.constructor`: models the state after the mount effects have
  run, not the brief first render with an empty list.
- Timers: `setTimeout`/`clearTimeout` become `Keystroke` and `TimerFires` events.
  A keystroke that leaves the text as it was does not re-run the effect, so it is
  a no-op.
- Asynchronous interleaving of storage calls: each handler is modelled as
  running to completion in order.
- Read failures on the profile and onboarding screens: their `getItem` calls are
  modelled as always succeeding. Only the app shell's read takes a failure
  outcome, because only it catches one.
- `JSON.stringify`/`JSON.parse` of the switches are modelled by one canonical
  text form and a parser that accepts exactly that form. Any other text, which
  real JSON could also accept (whitespace, another key order), counts as a parse
  failure. The failure leaves the switches unchanged; setters that ran before it
  have already applied.
- `expo-image-picker`: permission and picking are the inputs `granted` and
  `picked` of `PickImage`.
- The phone mask of `MaskedTextInput`: library behaviour, so the phone text is
  stored as typed.
- `navigation.reset` and the navigator itself: only the requested target and the
  offered route set are modelled.
- `toLowerCase` covers ASCII letters only; no Unicode case mapping.
- The contents of `menu.json` are not part of this model; the catalog is any
  sequence of items.
- Alerts and `console.log`: user messages with no effect on state.

## Findings

| source | as written | input that shows it | evidently intended | confidence | as-written member | corrected member |
|---|---|---|---|---|---|---|
| capstone-/capstone-/Screens/Profile.js:104-107 | logout clears the store and resets navigation to the Onboarding route. The root's in-memory `isOnboardingCompleted` stays true, so the navigator still declares only Home and Profile, and the reset names a route it does not have. | finish onboarding, open Profile, press "Log out" without restarting the app | logging out returns the user to onboarding at once | medium, not executed | AppShell.LogoutAsWritten | AppShell.App.SignOut |
