# BandScope core, modelled in Dafny

BandScope is a React single-page app where musicians, bands and venues find
each other. This project models the logic behind its screens and proves
properties of that model:

- **auth context** (`auth.dfy`, module `Auth`): the user/profile/loading state
  of the session provider. It covers the profile fetch with its bounded retry
  loop, the session callback, refresh, sign-in, sign-up, sign-out and mock
  mode.
- **routing shell** (`routes.dfy`, module `Routes`): the two route guards and
  the route table, including the catch-all redirect.
- **profiles hook** (`profile_rows.dfy`, module `ProfileRows`): the
  normalisation of a raw `profiles` row into a `Profile`, and the
  profiles/loading/error state of a refresh.
- **feed** (`feed.dfy`, module `Feed`): the home page's venue exclusion and
  text search.
- **onboarding** (`profile_setup.dfy`, module `ProfileSetup`): the three-step
  setup form. It covers chip toggles, step gating, the comma lists for roles,
  influences and members, the geocoded location, and the submit payload
  written to the backend or merged in mock mode.
- **profile editor** (`edit_profile.dfy`, module `EditProfile`): the edit
  form and the record it installs in the auth context.
- **profile view** (`profile_view.dfy`, module `ProfileView`): the lookup by
  URL id, the labels, and follow/unfollow on the shared set of followed ids.
- **event form** (`create_event.dfy`, module `CreateEvent`): the event row it
  builds and the append to the page's own list of events.
- **password rules** (`password.dfy`, module `Password`): the five sign-up
  requirements.
- **geocoding** (`geocoding.dfy`, module `Geocoding`; `location_geocode.dfy`,
  module `LocationGeocode`): the address lookup and the hook's busy/error
  state around it.

Shared modules:

- `Wrappers` holds `Option`.
- `Seqs` holds an order-keeping filter and the subsequence relation.
- `Text` holds JavaScript's `trim`, `split`, `join`, `toLowerCase`, and the
  decimal text of integers.
- `Schema` holds the row types of `src/lib/supabase.ts`.

How the model treats the world outside the code:

- **Backend and network replies are parameters.** `lookup(userId, i)` is
  what the i-th profile query returns. `fetch(request)` is what the geocoding
  service answers. Each sign-in or sign-up call, each query and each write
  receives its reply as an argument.
- **Clock and number conversion are parameters.** Timestamps are opaque
  strings passed in. `Number(text)` and `String(number)` are also passed in
  as `toNumber` and `showNumber`.
- **Callbacks are atomic.** Each state-changing callback is one method that
  runs to completion.
- **Mutable state lives in classes.**
  - The auth context is `Auth.AuthProvider`, the profiles hook is
    `ProfileRows.ProfilesStore`, and the geocoding hook is
    `LocationGeocode.Geocoder`.
  - The setup, edit, view and event pages are classes whose fields are the
    pages' state.
  - The shared followed-ids set is `ProfileView.FollowStore` and the event
    list is `CreateEvent.EventStore`.

The profile type in `src/lib/supabase.ts` declares no `latitude` or
`longitude`. Every part of the code that builds or reads profiles uses both,
so `Schema.Profile` carries them.

## Model

| member | source | states |
|---|---|---|
| Auth.MockSignUpProfile | src/context/AuthContext.tsx:130 | mock sign-up installs MOCK_PROFILE unchanged except for the chosen role and the name. The name is the text before the first `@` of the email, or the whole email when it has no `@` |
| Auth.LocalPart | src/context/AuthContext.tsx:130 | `email.split('@')[0]` followed by `@` starts the email when it has an `@`, and is the whole email otherwise |
| Auth.FirstHit | src/context/AuthContext.tsx:55-63 | the first attempt in range that finds a row, with every earlier attempt finding none; None exactly when no attempt in range finds one |
| Auth.FetchReturnsFirstRow | src/context/AuthContext.tsx:53-61 | fetchProfile returns the row of the earliest attempt that finds one, within `retries` attempts |
| Auth.FetchNullIffNoRow | src/context/AuthContext.tsx:55-64 | fetchProfile resolves to null exactly when none of the `retries` attempts finds a row |
| Auth.MoreRetriesFindTheSameRow | src/context/AuthContext.tsx:53-64 | allowing more attempts never changes a row already found |
| Auth.AuthProvider.FetchProfile | src/context/AuthContext.tsx:53-65 | the loop returns the specified fetch result. Mock mode makes no lookup. With a backend it makes one lookup per attempt up to the first hit (at most `retries`), and it sleeps once fewer than it looks up, never after the last attempt |
| Auth.AuthProvider.constructor | src/context/AuthContext.tsx:49-51 | the provider starts with no user, no profile, and loading |
| Auth.AuthProvider.Mount | src/context/AuthContext.tsx:75-81 | without a backend the mount effect signs in the demo user with MOCK_PROFILE and ends loading; with one it changes nothing by itself |
| Auth.AuthProvider.SessionChanged | src/context/AuthContext.tsx:82-103 | a session with a user sets `{id, email ?? ''}` and the fetched profile, and one without clears user and profile; loading ends false either way |
| Auth.AuthProvider.RefreshProfile | src/context/AuthContext.tsx:67-71 | does nothing without a user; otherwise replaces the profile with the fetch result, null included |
| Auth.AuthProvider.SetProfile | src/context/AuthContext.tsx:73 | installs its argument verbatim and touches nothing else |
| Auth.AuthProvider.SignIn | src/context/AuthContext.tsx:111-125 | mock mode signs in under the given email. A backend failure returns its message and changes nothing. A success with a user sets the user, ends loading and fetches the profile |
| Auth.AuthProvider.SignUp | src/context/AuthContext.tsx:127-139 | with a backend it returns only the reply's error or null and changes no state; mock mode signs in with the mock sign-up profile |
| Auth.AuthProvider.SignOut | src/context/AuthContext.tsx:141-145 | user and profile end null, loading as it was |
| Routes.ProtectedLayout | src/App.tsx:18-39 | placeholder exactly while loading; children exactly when loaded with a user; otherwise a redirect to `/login` |
| Routes.PublicRoute | src/App.tsx:41-46 | placeholder exactly while loading; children exactly when loaded without a user; otherwise a redirect to `/` |
| Routes.ExactlyOneGuardRenders | src/App.tsx:29-44 | once loading is over, exactly one of the two guards renders its children |
| Routes.GuardsIgnoreProfile | src/App.tsx:18-46 | neither guard's decision depends on the profile, so there is no completeness check |
| Routes.FirstMatch | src/App.tsx:52-76 | the first route of the requested kind (static or with a parameter) whose pattern matches, none earlier of that kind matching; None when none matches |
| Routes.Resolve | src/App.tsx:52-76 | the chosen route is declared and matches, its literal segments compared without regard to case. None exactly when no route matches. A route with a parameter is chosen only when no static route matches |
| Routes.Element | src/App.tsx:52-76 | an unmatched path redirects to `/`. A page is shown only when not loading, and it is the matched route's page. A protected page needs a user, and a public page needs none |
| Routes.UnmatchedPathRedirectsHome | src/App.tsx:76 | every path no route matches leads to `/`, whatever the auth state |
| Routes.LiteralRouteOutranksParameter | src/App.tsx:64-67 | `/profile/edit` goes to the edit page, not to the profile view with id `edit` |
| Routes.LiteralRouteOutranksEarlierParameter | src/App.tsx:70-71 | `/events/new` goes to the event form although `/events/:id` is declared first |
| Routes.LiteralRoutesIgnoreCase | src/App.tsx:52-64 | routes match in any case: `/profile/EDIT` opens the edit page and `/Login` the login page |
| Routes.NoStaticRouteTakesProfileId | src/App.tsx:62-67 | no static route matches `/profile/<id>` for an id that is not `edit` or `events` in any mix of case |
| Routes.ProfileIdRoute | src/App.tsx:67 | `/profile/<id>` reaches the profile view for every id that is not `edit` or `events` in any mix of case |
| ProfileRows.ToText | src/hooks/useProfiles.ts:7-29 | `String(v)` keeps a string as it is and shows an empty array as the empty text |
| ProfileRows.TextOr | src/hooks/useProfiles.ts:7-10 | `String(v ?? fallback)`: the fallback for null or undefined, a string as it is |
| ProfileRows.NullableText | src/hooks/useProfiles.ts:11-27 | null exactly when the value is null or undefined; a string is kept |
| ProfileRows.NumberOrNull | src/hooks/useProfiles.ts:14-22 | a value is kept exactly when it is a number, and then unchanged |
| ProfileRows.RoleOf | src/hooks/useProfiles.ts:9 | band and venue exactly for those strings; a missing role is musician |
| ProfileRows.StringItems | src/hooks/useProfiles.ts:12-23 | the texts are exactly the array's string elements, in order and each as often as it occurs (through `Seqs.FilterMultiset`) |
| ProfileRows.StringArray | src/hooks/useProfiles.ts:12-23 | a list exactly when the value is an array; its texts are exactly the array's string elements, in order |
| ProfileRows.StringItemsOfStrings | src/hooks/useProfiles.ts:12-23 | an array of strings is kept whole |
| Seqs.FilterMultiset | src/hooks/useProfiles.ts:12 | the filter keeps every passing element as often as it occurs and nothing else |
| ProfileRows.MemberAge | src/hooks/useProfiles.ts:24-26 | a member's age is kept exactly when it is an integral number |
| ProfileRows.ToMember | src/hooks/useProfiles.ts:24-26 | a kept member carries the entry's name string |
| ProfileRows.MemberArray | src/hooks/useProfiles.ts:24-26 | a list exactly when the value is an array. It has one member per entry with a string name, in order, each made from that entry |
| ProfileRows.NormalizeProfile | src/hooks/useProfiles.ts:5-31 | every field is read from its key. A missing id, user id or display name becomes `''` and a missing time the clock reading. Only `band` and `venue` give those roles, and a missing role gives musician. Avatar, location, bio and last-active are null exactly when nullish. Coordinates and age are kept only when they are numbers. The seven lists keep the string elements of an array, and the members the named entries |
| ProfileRows.RoleOfName | src/hooks/useProfiles.ts:9 | every role read back from its stored name is that role |
| ProfileRows.StringArrayOfList | src/hooks/useProfiles.ts:12-23 | a stored list of strings, or null, reads back unchanged |
| ProfileRows.ToMemberOfValue | src/hooks/useProfiles.ts:24-26 | a stored member reads back unchanged |
| ProfileRows.MemberArrayOfMembers | src/hooks/useProfiles.ts:24-26 | a stored member list, or null, reads back unchanged |
| ProfileRows.StoredIdentity | src/hooks/useProfiles.ts:7-9 | a stored profile's id, user id and role read back unchanged |
| ProfileRows.StoredNames | src/hooks/useProfiles.ts:10-16 | a stored profile's display name, avatar and bio read back unchanged |
| ProfileRows.StoredPlace | src/hooks/useProfiles.ts:13-15 | a stored profile's location and coordinates read back unchanged |
| ProfileRows.StoredMedia | src/hooks/useProfiles.ts:12-22 | a stored profile's gallery, links and age read back unchanged |
| ProfileRows.StoredMusic | src/hooks/useProfiles.ts:18-20 | a stored profile's genres, instruments and seeking read back unchanged |
| ProfileRows.StoredBackground | src/hooks/useProfiles.ts:21-26 | a stored profile's influences, roles and members read back unchanged |
| ProfileRows.StoredTimes | src/hooks/useProfiles.ts:27-29 | a stored profile's three timestamps read back unchanged |
| ProfileRows.NormalizeStoredRow | src/hooks/useProfiles.ts:5-31 | normalising the row a profile is stored as gives back that profile |
| ProfileRows.RefreshedProfiles | src/hooks/useProfiles.ts:47-56 | any failure or a null table leaves no profiles. An answer leaves, in order, the normalisation of each selected (non-venue) row, so every listed profile comes from a selected row |
| ProfileRows.RefreshError | src/hooks/useProfiles.ts:51-58 | no error exactly when the query answered. Otherwise it is the reply's message, the thrown message, or the default text when the throw has none |
| ProfileRows.RefreshListsNoVenue | src/hooks/useProfiles.ts:47-59 | a refresh never lists a venue, and any error comes with an empty list |
| ProfileRows.StoredRowsSelected | src/hooks/useProfiles.ts:50 | a table of stored non-venue profiles passes the `role != venue` selection whole |
| ProfileRows.RefreshReturnsStoredProfiles | src/hooks/useProfiles.ts:47-56 | refreshing over a table of stored non-venue profiles lists exactly those profiles, in order |
| ProfileRows.ProfilesStore.constructor | src/hooks/useProfiles.ts:34-36 | no profiles and no error; loading exactly when a backend is configured |
| ProfileRows.ProfilesStore.Refresh | src/hooks/useProfiles.ts:38-63 | without a backend the list is emptied and nothing is queried; with one, list and error are those of the outcome; loading ends false on every path |
| Feed.Feed | src/pages/HeroPage.tsx:11-22 | an order-keeping subsequence of the profiles. It holds exactly the non-venue profiles that match the lower-cased trimmed query by name or location, or all non-venues for a blank query |
| Feed.BlankSearchShowsAll | src/pages/HeroPage.tsx:13 | a blank or whitespace query shows every non-venue profile, in order |
| Feed.SearchIgnoresPadding | src/pages/HeroPage.tsx:13-14 | surrounding white space in the query changes nothing |
| Feed.SearchNarrows | src/pages/HeroPage.tsx:12-20 | any search shows a subsequence of what the blank search shows |
| Feed.NoLocationMatchesByName | src/pages/HeroPage.tsx:17-18 | a profile without a location matches exactly when its lower-cased name contains the query |
| Password.Every | src/lib/passwordStrength.ts:11 | true exactly when every listed requirement holds |
| Password.IsPasswordStrong | src/lib/passwordStrength.ts:10-12 | strong exactly when at least 8 long and containing a lower-case letter, an upper-case letter, a digit and a character of the special class |
| Password.EachRequirementNeeded | src/lib/passwordStrength.ts:2-8 | failing any one requirement makes the password weak |
| Password.StrongStaysStrong | src/lib/passwordStrength.ts:3-7 | appending characters keeps a strong password strong |
| Password.SamplePasswords | src/lib/passwordStrength.ts:2-12 | `Passw0rd!` is strong and `passw0rd!` is not |
| Geocoding.FirstCandidate | src/lib/geocoding.ts:22-24 | a candidate exactly when the status is OK and there are results, and then it is the first |
| Geocoding.GeocodeAddress | src/lib/geocoding.ts:15-30 | as written: no result without a key or for a blank address. A result means the service answered the trimmed address with a first candidate whose two coordinates are both non-zero, and it returns them with the formatted address |
| Geocoding.GeocodeAddressIntended | src/lib/geocoding.ts:15-30 | as intended: no result without a key or for a blank address, and a result only when the request got an answer (a failed fetch gives null) |
| Geocoding.IntendedFindsEveryLocatedAnswer | src/lib/geocoding.ts:22-26 | the intended lookup succeeds exactly when the first candidate of an OK answer carries both coordinates, and it returns those and the formatted address |
| Geocoding.WrittenFindsEveryTruthyAnswer | src/lib/geocoding.ts:22-26 | as written, the lookup succeeds exactly when the first candidate of an OK answer has both coordinates present and non-zero, and it returns those and the formatted address |
| Geocoding.FailedFetchFindsNothing | src/lib/geocoding.ts:27-29 | a failed request or undecodable answer gives null, as written and as intended |
| Geocoding.AgreeAwayFromZero | src/lib/geocoding.ts:25 | the written and intended lookups agree whenever no coordinate is exactly zero |
| Geocoding.EquatorRejected | src/lib/geocoding.ts:25 | an address on the equator is not found as written and is found as intended |
| LocationGeocode.Geocoder.constructor | src/hooks/useLocationGeocode.ts:5-6 | not busy and no error |
| LocationGeocode.Geocoder.Geocode | src/hooks/useLocationGeocode.ts:8-26 | a blank address returns null and touches nothing. Otherwise: coordinates and no error when found, the not-found message when not, the failure message when the lookup throws. The busy flag ends false |
| LocationGeocode.Geocoder.ClearError | src/hooks/useLocationGeocode.ts:28 | the error is cleared and the busy flag kept |
| LocationGeocode.NoKeyNeverFinds | src/hooks/useLocationGeocode.ts:10-17 | with the lookup as written and no API key, every non-blank address ends with no coordinates and the not-found message |
| Text.SplitList | src/pages/ProfileSetupPage.tsx:296 | splitting on commas, trimming and dropping empties gives trimmed, non-empty, comma-free parts |
| Text.SplitListItems | src/pages/ProfileSetupPage.tsx:296 | the parts are exactly the non-empty trimmed comma pieces of the text, in the text's order and each as often as it occurs there |
| Text.BlankListsNothing | src/pages/ProfileSetupPage.tsx:96 | a blank text lists nothing |
| Text.ListRoundTrip | src/pages/ProfileSetupPage.tsx:295-296 | a list of trimmed, non-empty, comma-free items shown joined by `, ` reads back as the same list |
| ProfileSetup.ToggleArray | src/pages/ProfileSetupPage.tsx:66-68 | the item is in the result exactly when it was not in the list. An absent item is appended. A present one is removed, keeping the other elements in order with their counts |
| ProfileSetup.ToggleTwiceRestores | src/pages/ProfileSetupPage.tsx:66-68 | toggling an absent item twice restores the list |
| ProfileSetup.CanProceedStep1 | src/pages/ProfileSetupPage.tsx:70-72 | true exactly when the trimmed name and the trimmed location are both non-empty |
| ProfileSetup.CanProceedStep2 | src/pages/ProfileSetupPage.tsx:74-77 | always true for a venue; otherwise true exactly when genres, instruments or seeking is non-empty |
| ProfileSetup.NextEnabled | src/pages/ProfileSetupPage.tsx:338 | the Next button's enabledness at steps 1 and 2 is the step's check |
| ProfileSetup.TrimOrNull | src/pages/ProfileSetupPage.tsx:87 | null exactly for a blank text, otherwise the trimmed text, non-empty |
| ProfileSetup.NameOrAnonymous | src/pages/ProfileSetupPage.tsx:84 | `Anonymous` for a blank name, the trimmed name otherwise; never empty, always trimmed |
| ProfileSetup.PayloadAge | src/pages/ProfileSetupPage.tsx:91 | null exactly for an empty age text or an age of zero. Typed text gives `Number` of that text, and a non-zero number is kept |
| ProfileSetup.PayloadInfluences | src/pages/ProfileSetupPage.tsx:96 | the blank guard is redundant: the result is always the comma list of the text |
| ProfileSetup.BuildPayload | src/pages/ProfileSetupPage.tsx:84-99 | the name is the trimmed name or `Anonymous`. Location and bio are the trimmed text or null, and the age is PayloadAge of the field. Coordinates and lists are carried over, with empty lists staying `[]`. Influences are the comma list, and the last-active time is now |
| ProfileSetup.MergePayload | src/pages/ProfileSetupPage.tsx:118 | identity, role, media and creation time are kept. Name, location, coordinates, bio, age, the five lists, members and last-active time are the payload's, and the update time is now |
| ProfileSetup.FormFromProfile | src/pages/ProfileSetupPage.tsx:41-57 | the form shows the profile's name, location, coordinates, bio, age, lists and members, with `''` or `[]` for missing ones, and the influences joined by `, ` |
| ProfileSetup.AgeSuffixUnique | src/pages/ProfileSetupPage.tsx:313 | a member text has at most one ` (digits)` suffix position |
| ProfileSetup.DigitRunStart | src/pages/ProfileSetupPage.tsx:313 | the start of the run of digits ending at a position |
| ProfileSetup.DigitRunStartAt | src/pages/ProfileSetupPage.tsx:313 | the digit run ending at a position starts right after its last non-digit |
| ProfileSetup.AgeSuffixStart | src/pages/ProfileSetupPage.tsx:313 | a found suffix position is one where `(digits)` ends the text |
| ProfileSetup.AgeSuffixFound | src/pages/ProfileSetupPage.tsx:313 | every suffix position is found |
| ProfileSetup.NoAgeSuffixFound | src/pages/ProfileSetupPage.tsx:313 | when none is found, the text has no age suffix |
| ProfileSetup.ParseMember | src/pages/ProfileSetupPage.tsx:312-315 | an age exactly when the text ends in `(digits)`. The name is then the text before it with trailing spaces removed, and the age is the digits' value. Otherwise the name is the whole text |
| ProfileSetup.ParseMembers | src/pages/ProfileSetupPage.tsx:309-316 | one member per comma-list part, each parsed on its own |
| ProfileSetup.MemberTextCanonical | src/pages/ProfileSetupPage.tsx:307 | a well-formed member is shown as a trimmed, non-empty, comma-free text |
| ProfileSetup.MemberRoundTrip | src/pages/ProfileSetupPage.tsx:307-315 | a well-formed member shown and parsed back is unchanged |
| ProfileSetup.MembersRoundTrip | src/pages/ProfileSetupPage.tsx:307-315 | formatting well-formed members and parsing the text gives back the members |
| ProfileSetup.SetupPage.constructor | src/pages/ProfileSetupPage.tsx:21-39 | step 1, musician, not saving, no error, empty form, idle geocoder |
| ProfileSetup.SetupPage.LoadProfile | src/pages/ProfileSetupPage.tsx:41-64 | a profile fills the form and sets the role. Without one, a backend session's metadata role (musician by default) is taken. The step and flags are kept |
| ProfileSetup.SetupPage.Next | src/pages/ProfileSetupPage.tsx:155 | below step 3 with the step's check passing, the step goes up by one; otherwise it stays, within 1..3 |
| ProfileSetup.SetupPage.Back | src/pages/ProfileSetupPage.tsx:327-333 | above step 1 the step goes down by one, within 1..3 |
| ProfileSetup.SetupPage.EditText | src/pages/ProfileSetupPage.tsx:165-284 | typing stores the text in its field only |
| ProfileSetup.SetupPage.EditLocation | src/pages/ProfileSetupPage.tsx:176-179 | typing a location clears the coordinates and the geocoding error |
| ProfileSetup.SetupPage.BlurLocation | src/pages/ProfileSetupPage.tsx:180-185 | leaving a non-blank location stores the found coordinates, ends the busy flag and sets the not-found or failure message, or clears it on success. A blank location leaves the form and the geocoder as they were |
| ProfileSetup.SetupPage.ToggleChip | src/pages/ProfileSetupPage.tsx:217-258 | a chip toggles its item in its own group only |
| ProfileSetup.SetupPage.EditRoles | src/pages/ProfileSetupPage.tsx:296 | the roles become the comma list of the text |
| ProfileSetup.SetupPage.EditMembers | src/pages/ProfileSetupPage.tsx:308-317 | the members become the parsed comma list of the text |
| ProfileSetup.SetupPage.Submit | src/pages/ProfileSetupPage.tsx:79-122 | without a user nothing happens. With a backend it sends the update or insert for the payload: a write error is shown and nothing navigates, while success refreshes the profile and navigates. Mock mode merges the payload into the profile and navigates. Saving ends false |
| ProfileSetup.SetupPage.Write | src/pages/ProfileSetupPage.tsx:100-116 | a write error is shown and keeps the profile; success refetches it and navigates |
| ProfileSetup.WriteFor | src/pages/ProfileSetupPage.tsx:101-109 | with a loaded profile, an update of that profile's row by its id with the payload; otherwise an insert of the user's id, the chosen role and the payload |
| ProfileSetup.MockMerge | src/pages/ProfileSetupPage.tsx:117-119 | mock mode installs a profile exactly when one was loaded, and it is the payload merged over the loaded profile (MergePayload) |
| EditProfile.InitialForm | src/pages/EditProfilePage.tsx:14-25 | no profile gives the empty form. A profile fills in its name, location, bio, age, the four lists and the members, with `''` or `[]` for missing ones, and its influences joined by `, ` |
| EditProfile.NonEmptyOrNull | src/pages/EditProfilePage.tsx:40-45 | null exactly for an empty list, otherwise the list |
| EditProfile.InfluencesOrNull | src/pages/EditProfilePage.tsx:44 | null exactly for a blank text, otherwise its comma list |
| EditProfile.EditedProfile | src/pages/EditProfilePage.tsx:34-47 | identity, role, media, coordinates, last-active and creation time are kept, and the update time is now. The name is the trimmed name or `Anonymous`. Location and bio are the trimmed text or null, and the age is PayloadAge of the field. Each list is the form's list or null when empty, and influences the comma list or null when blank |
| EditProfile.KeepsInfluences | src/pages/EditProfilePage.tsx:23-44 | influences of trimmed, comma-free names come back unchanged from the text the form shows |
| EditProfile.SaveUntouchedKeepsProfile | src/pages/EditProfilePage.tsx:14-47 | saving the untouched form of a profile already in saved shape changes only its update time |
| EditProfile.EditPage.constructor | src/pages/EditProfilePage.tsx:14-25 | the form starts from the signed-in profile |
| EditProfile.EditPage.EditText | src/pages/EditProfilePage.tsx:66-190 | typing stores the text in its field only |
| EditProfile.EditPage.ToggleChip | src/pages/EditProfilePage.tsx:113-145 | a chip toggles its item in its own group only |
| EditProfile.EditPage.EditRoles | src/pages/EditProfilePage.tsx:158 | the roles become the comma list of the text |
| EditProfile.EditPage.EditMembers | src/pages/EditProfilePage.tsx:170-178 | the members become the parsed comma list of the text |
| EditProfile.EditPage.Submit | src/pages/EditProfilePage.tsx:31-50 | without a profile nothing happens. Otherwise the edited record replaces the profile in the auth context, user and loading are untouched, and the page goes to `/profile` |
| ProfileView.FindFrom | src/pages/ProfileViewPage.tsx:12 | the first index from a start whose profile has the id; None when none has it |
| ProfileView.FindProfile | src/pages/ProfileViewPage.tsx:12 | a listed profile with the id and no earlier one with it; null exactly when the id is absent or no profile has it |
| ProfileView.FindsListedProfile | src/pages/ProfileViewPage.tsx:12-22 | with unique ids, a listed profile's id finds that profile |
| ProfileView.OwnIffSameId | src/pages/ProfileViewPage.tsx:13 | once a profile is found, the page is the viewer's own exactly when the viewer's profile has its id |
| ProfileView.TypeLabel | src/pages/ProfileViewPage.tsx:24 | Band, Venue and Musician exactly for the band, venue and musician roles |
| ProfileView.JoinOrDash | src/pages/ProfileViewPage.tsx:25-27 | the dash for a missing list and the empty text for an empty one |
| ProfileView.ShownListReadsBack | src/pages/ProfileViewPage.tsx:25-27 | a shown list of trimmed, comma-free names reads back as that list |
| ProfileView.MemberTextsAgree | src/pages/ProfileViewPage.tsx:107 | the profile page shows a member as the setup form does exactly when the age is not zero |
| ProfileView.ProfileViewPage.constructor | src/pages/ProfileViewPage.tsx:10 | the flag starts as the membership of `id ?? ''` in the followed set |
| ProfileView.ProfileViewPage.HandleFollow | src/pages/ProfileViewPage.tsx:29-34 | with an id, the id is added to the followed set and the flag set; without one nothing changes; the flag agrees with the set |
| ProfileView.ProfileViewPage.HandleUnfollow | src/pages/ProfileViewPage.tsx:36-41 | with an id, the id is removed and the flag cleared; without one nothing changes; the flag agrees with the set |
| ProfileView.FollowThenUnfollow | src/pages/ProfileViewPage.tsx:29-41 | following twice adds the id once, and unfollowing then leaves exactly the other ids |
| CreateEvent.EventId | src/pages/CreateEventPage.tsx:26 | `e` followed by the millisecond count's digits |
| CreateEvent.EventIdsDistinct | src/pages/CreateEventPage.tsx:26 | events made at different milliseconds have different ids |
| CreateEvent.NewEvent | src/pages/CreateEventPage.tsx:25-38 | the id from the clock and the current-user owner. The name is trimmed, and description, location, time and price are the trimmed text or null when blank. The date is as typed, with no image and no attendees, and the two timestamps are the clock readings |
| CreateEvent.NewEventTextsTrimmed | src/pages/CreateEventPage.tsx:28-33 | the new event's texts are trimmed, and its optional texts are never empty |
| CreateEvent.EventStore.constructor | src/pages/CreateEventPage.tsx:8 | the page's list starts as a copy of the sample events |
| CreateEvent.EventStore.Append | src/pages/CreateEventPage.tsx:39 | the list grows by the one event at its end, and the sample events stay its start |
| CreateEvent.CreateEventPage.constructor | src/pages/CreateEventPage.tsx:12-20 | an empty form, not saving |
| CreateEvent.CreateEventPage.Edit | src/pages/CreateEventPage.tsx:56-106 | typing stores the text in its field only |
| CreateEvent.CreateEventPage.Submit | src/pages/CreateEventPage.tsx:22-42 | the new event is appended after the unchanged earlier ones, the sample events stay the list's start, saving ends false, and the page goes to `/events` |

## Left out

- `distanceMiles` (src/lib/geocoding.ts:35-52) is floating-point trigonometry and is not modelled.
- Network traffic is not modelled. This covers the Supabase client, the geocoding `fetch`, and every query and write. Each reply is a parameter, and URL encoding of the address is not modelled.
- The three edge functions under supabase/functions are not modelled. They are HTTP plumbing over admin and e-mail APIs.
- Timers are not modelled: the 500 ms retry sleep, the 5 s loading fallback, and the subscription teardown. Retry sleeps are counted, not timed.
- Async interleaving is not modelled. Each callback, including the profile fetch a callback starts, runs as one atomic step, so racing callbacks are not modelled.
- Timestamps and `Date.now()` are parameters and are treated as opaque strings and a natural number.
- Each handler's clock reading is one parameter `now`, although the source calls `new Date()` separately for each field. So the model has `last_active_at` and `updated_at` of the mock setup save equal, and likewise the `created_at` and `updated_at` fallbacks of a normalised row, while the source gives no such guarantee.
- JSX, CSS and navigation side effects are out of scope. Navigation appears only as the path a handler returns, and the cancel buttons are left out.
- The profile view's sections below the header are left out, except the member line compared in `ProfileView.MemberTextsAgree`.
- `Text.ToLower` maps only ASCII letters. Other Unicode case mappings are not modelled. For route matching this is exact: the router's case-insensitive comparison of a path segment against the lower-case ASCII route literals accepts only those letters and their ASCII capitals.
- String lengths count characters, not UTF-16 code units.
- JavaScript numbers are reals, so NaN, the infinities and rounding are not modelled.
- `Number(text)` for a typed age is the parameter `toNumber`, and `String(number)` is the parameter `showNumber`.
- ProfileRows.RoleOf: a role string other than `band` or `venue` becomes musician. The source casts such a value without checking, and the model has only the three roles.
- ProfileRows.MemberAge: a member's age that is not an integral number is dropped. The source keeps the member object as stored.
- An answered profiles query with no data and no error is treated as an empty table, as `data ?? []` does.
- The sample data in src/data/mock.ts is not part of this model. MOCK_PROFILES, MOCK_EVENTS and MOCK_FOLLOWING_IDS enter as parameters.
- Behaviour described for the product but absent from the code is not modelled, because the code has none of it. This covers an onboarding or completeness guard, a redirect grace window, a sign-out flag, client-side account deletion, a sign-up notification and distance filtering in the feed.
- ProfileSetup.SetupPage.BlurLocation receives how the lookup ended as a parameter, as the hook receives it. The link to the lookup itself is through `LocationGeocode.NoKeyNeverFinds` and the `Geocoding` lemmas.
- The profile editor writes nothing to the backend. The model reflects this: `EditProfile.EditPage.Submit` only calls `SetProfile`.

## Findings

| source | as written | input that shows it | evidently intended | confidence | as-written member | corrected member |
|---|---|---|---|---|---|---|
| src/lib/geocoding.ts:25 | `!loc?.lat \|\| !loc?.lng` rejects a coordinate that is exactly 0, because 0 is falsy | an OK answer whose first candidate is at latitude 0 (on the equator), e.g. longitude 12.5 | reject only a missing coordinate, so places on the equator or the prime meridian are found | not executed | Geocoding.GeocodeAddress (shown by Geocoding.EquatorRejected) | Geocoding.GeocodeAddressIntended (proved by Geocoding.IntendedFindsEveryLocatedAnswer) |
