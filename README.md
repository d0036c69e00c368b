# Tempus tours: client state model

Tempus is a React Native app for booking tours to ancient civilizations. Its
behaviour lives in a handful of Zustand stores and a few screen handlers.
This project models that behaviour in Dafny and proves properties of it:

- the booking wizard (`Bookings`): a single draft, a step counter and the
  append-only list of committed bookings, with confirmation codes
  `ROME-XXXX`;
- the favorites list (`Favorites`), kept free of duplicates;
- the tour catalogue and its finders, search and range filters
  (`Destinations`);
- the light/dark theme state machine (`Theme`);
- mock authentication against a mutable user list (`Auth`);
- the reverse colour lookup `getColorFromValue` (`Colors`);
- the travel statistics aggregation of the stats screen (`TravelStats`);
- the traveler list editor and its validation (`TravelerInfo`);
- the sign-up form's checks before `register` (`Signup`).

`Common` holds the JavaScript built-ins these use: `find`, `filter`, ASCII
`toLowerCase`, `trim`, `includes`, `startsWith` and decimal `toString` of
ids.

Stores whose fields change in place are classes, and their actions are
methods with `modifies` clauses. Queries over a list (active bookings,
history, lookups by id, a civilization's tours, the featured tours) are plain
functions of that list. Where a store method computes such a result (a
search, a price or duration filter, a selection), the method's `ensures`
ties it to the function. Some values come from outside
the code: the uuid, the clock (integer milliseconds), the values of
`Math.random()` and the system colour scheme. These are parameters.

## Model

| member | source | states |
|---|---|---|
| Bookings.GenerateConfirmationCode | src/stores/bookingsStore.js:176-187 | The loop yields a 9-character code starting with "ROME-" whose last four characters are in A–Z0–9; the k-th character is the one the k-th random draw selects |
| Bookings.AlphabetIndex | src/stores/bookingsStore.js:182 | `Math.floor(r * 36)` for `0 <= r < 1` is always a valid alphabet index |
| Bookings.AlphabetIsCodeChars | src/stores/bookingsStore.js:178 | A character is in the code alphabet exactly when it is an upper-case letter or a digit |
| Bookings.AlphabetEnds | src/stores/bookingsStore.js:178 | The alphabet has 36 characters: 'A'..'Z' at 0..25, then '0'..'9' at 26..35 |
| Bookings.AlphabetHasNoDuplicates | src/stores/bookingsStore.js:178 | No character repeats in the alphabet |
| Bookings.CodeForIsWellFormed | src/stores/bookingsStore.js:178-186 | Every sequence of four valid draws gives a well-formed code |
| Bookings.CodeForInjective | src/stores/bookingsStore.js:178-186 | Different draws give different codes |
| Bookings.EveryCodeIsReachable | src/stores/bookingsStore.js:178-186 | Every well-formed code is produced by some draws, so all 36^4 codes can occur |
| Bookings.CorrectedTotalAgreesOnLists | src/stores/bookingsStore.js:56-68 | On the list shape of `travelers`, the corrected total equals the source's `price * travelers.length`; no travelers cost 0 |
| Bookings.TotalAsWritten | src/stores/bookingsStore.js:56-68 | `calculateTotal` as written: NaN exactly when the travelers field holds the traveler screen's payload object; on the list shape, the price times the number of travelers |
| Bookings.PayloadTotalIsNaN | src/stores/bookingsStore.js:56-68 | After the traveler screen's payload, the source's total for one traveler at 1200 is NaN, while the corrected count gives 1200 |
| Bookings.ActiveBookings | src/stores/bookingsStore.js:113-120 | Exactly the confirmed records whose end date is not before `now`, in list order, each as often as in the list |
| Bookings.BookingHistory | src/stores/bookingsStore.js:123-130 | Exactly the confirmed records whose end date is before `now`, in list order, each as often as in the list |
| Bookings.ActiveAndHistoryPartitionConfirmed | src/stores/bookingsStore.js:113-130 | For one `now`, active and history are disjoint and together are the confirmed records (as multisets); drafts and cancelled records are in neither |
| Bookings.BookingById | src/stores/bookingsStore.js:133-135 | None exactly when no record has the id; otherwise the first record with that id |
| Bookings.CancelInList | src/stores/bookingsStore.js:138-150 | Same length and order; records with the id become cancelled at `now`, all others are identical |
| Bookings.CancelUnknownIdIsNoOp | src/stores/bookingsStore.js:138-150 | Cancelling an id no record has leaves the list unchanged |
| Bookings.CancelledRecordStillFound | src/stores/bookingsStore.js:133-150 | After cancelling, lookup by id finds the same record, now cancelled and stamped |
| Bookings.CancelTwiceRestamps | src/stores/bookingsStore.js:138-150 | There is no status guard: a second cancellation re-stamps `cancelledAt` with the later time |
| Bookings.BookingsStore.constructor | src/stores/bookingsStore.js:10-14 | No bookings, no draft, step 0, not loading, no error |
| Bookings.BookingsStore.StartBooking | src/stores/bookingsStore.js:17-31 | Installs a fresh draft (given id and tour, no dates, empty travelers, price 0, no payment, status draft, created now) and step 0; `bookings` is untouched |
| Bookings.BookingsStore.SetTravelDates | src/stores/bookingsStore.js:34-42 | Only the draft's dates change; step 1 |
| Bookings.BookingsStore.SetTravelers | src/stores/bookingsStore.js:45-53 | Only the draft's travelers change; step 2 |
| Bookings.BookingsStore.CalculateTotal | src/stores/bookingsStore.js:56-68 | Returns and stores price times the traveler count; on the list shape this is the source's own product; nothing else changes |
| Bookings.BookingsStore.SetPaymentInfo | src/stores/bookingsStore.js:71-80 | Only the draft's payment method and status (confirmed) change; step 3 |
| Bookings.BookingsStore.ConfirmBooking | src/stores/bookingsStore.js:83-97 | Appends exactly one record (the draft plus a well-formed code and `confirmedAt`); earlier records unchanged; status carried over unchanged; draft cleared; step 0 |
| Bookings.BookingsStore.CancelBookingProcess | src/stores/bookingsStore.js:100-105 | Draft cleared and step 0; `bookings` untouched |
| Bookings.BookingsStore.CancelBooking | src/stores/bookingsStore.js:138-150 | The list becomes the cancelled list, with the same length |
| Bookings.BookingsStore.GoToStep | src/stores/bookingsStore.js:158-160 | Sets the step with no check; nothing else changes |
| Bookings.BookingsStore.ClearError | src/stores/bookingsStore.js:163 | Only the error is cleared |
| Bookings.EndToEndScenario | src/stores/bookingsStore.js:17-97 | Start, dates, one traveler, total at 1200, payment and confirm, in the screens' order, commit one confirmed record with the chosen tour, dates, travelers, payment method and confirmation time, the corrected total 1200 (not NaN) and a well-formed code |
| Favorites.Added | src/stores/favoritesStore.js:12-21 | The id is present afterwards; other ids' membership unchanged; no duplicates preserved |
| Favorites.Removed | src/stores/favoritesStore.js:24-28 | Every occurrence removed; the rest in order (a subsequence), every other id as often as before; no duplicates preserved |
| Favorites.Toggled | src/stores/favoritesStore.js:31-37 | Membership of the id flips; other ids unchanged; no duplicates preserved |
| Favorites.RemoveAbsentIsNoOp | src/stores/favoritesStore.js:24-28 | Removing an absent id returns the same list |
| Favorites.ToggleAbsentTwiceRestores | src/stores/favoritesStore.js:31-37 | Toggling an absent id twice restores the exact list |
| Favorites.TogglePresentTwiceMovesToEnd | src/stores/favoritesStore.js:31-37 | Toggling a present id twice moves it to the end |
| Favorites.FavoritesStore.constructor | src/stores/favoritesStore.js:9 | Empty list, invariant holds |
| Favorites.FavoritesStore.AddFavorite | src/stores/favoritesStore.js:12-21 | No-op when present, append at the end otherwise; no duplicates kept |
| Favorites.FavoritesStore.RemoveFavorite | src/stores/favoritesStore.js:24-28 | The list becomes the filtered list; no duplicates kept |
| Favorites.FavoritesStore.ToggleFavorite | src/stores/favoritesStore.js:31-37 | Flips the id's membership and no other; no duplicates kept |
| Favorites.FavoritesStore.IsFavorite | src/stores/favoritesStore.js:40-42 | True exactly when some entry equals the id |
| Favorites.FavoritesStore.ClearFavorites | src/stores/favoritesStore.js:50-52 | Empty list, invariant holds |
| Destinations.FindCivilization | src/stores/destinationsStore.js:422-424 | The first civilization with the id, or None exactly when there is none |
| Destinations.FindTour | src/stores/destinationsStore.js:446-448 | The first tour with the id, or None exactly when there is none |
| Destinations.ToursOfCivilization | src/stores/destinationsStore.js:441-443 | Exactly the tours of that civilization, in catalogue order, each as often as in the catalogue |
| Destinations.Found | src/stores/destinationsStore.js:471 | `filter(Boolean)`: exactly the present lookups, no more entries than lookups |
| Destinations.FoundAppend | src/stores/destinationsStore.js:471 | Filtering a concatenation is the concatenation of the filtered parts, so order is kept |
| Destinations.FoundOne | src/stores/destinationsStore.js:471 | A single lookup is kept exactly when it found a tour |
| Destinations.FeaturedTours | src/stores/destinationsStore.js:466-472 | The egypt-1 tour, then the greece-2 tour, then the china-1 tour, each included exactly when the catalogue has it |
| Destinations.FeaturedInOrder | src/stores/destinationsStore.js:467-471 | Three lookups are filtered one by one, keeping their order |
| Destinations.FeaturedAreCatalogueTours | src/stores/destinationsStore.js:466-472 | At most three tours, each from the catalogue and carrying a featured id |
| Destinations.FeaturedSkipsMissing | src/stores/destinationsStore.js:466-472 | A catalogue without greece-2 features egypt-1 then china-1 |
| Destinations.FeaturedWhenAllPresent | src/stores/destinationsStore.js:466-472 | When all three ids are found, the result is exactly those tours in the order egypt-1, greece-2, china-1 |
| Destinations.FindTourOfDistinct | src/stores/destinationsStore.js:446-448 | With distinct ids, looking up a tour's id returns that tour |
| Destinations.CatalogueTourIdsDistinct | src/stores/destinationsStore.js:108-405 | The catalogue's tour ids are distinct |
| Destinations.FeaturedToursOfCatalogue | src/stores/destinationsStore.js:466-472 | Over the catalogue, the featured tours are the Pyramids, Spartan and Silk Road tours, in that order |
| Destinations.SearchResults | src/stores/destinationsStore.js:475-484 | Exactly the tours whose lower-cased name or description contains the lower-cased query, in order, each as often as in the list |
| Destinations.EmptySearchMatchesAll | src/stores/destinationsStore.js:475-484 | The empty query returns the whole list |
| Destinations.ToursInPriceRange | src/stores/destinationsStore.js:487-493 | Exactly the tours with `min <= price <= max`, in order, each as often as in the list; empty when `min > max` |
| Destinations.ToursInDurationRange | src/stores/destinationsStore.js:496-502 | Exactly the tours with `min <= duration <= max`, in order, each as often as in the list; empty when `min > max` |
| Destinations.DestinationsStore.constructor | src/stores/destinationsStore.js:407-414 | The fixed catalogue, no selections, no filtered tours |
| Destinations.DestinationsStore.SetSelectedCivilization | src/stores/destinationsStore.js:427-433 | Selection is the lookup; filtered tours are that civilization's tours, empty for an unknown id |
| Destinations.DestinationsStore.SetSelectedTour | src/stores/destinationsStore.js:451-454 | Selection is the lookup of the id |
| Destinations.DestinationsStore.ClearSelections | src/stores/destinationsStore.js:457-463 | Both selections cleared and filtered tours empty |
| Destinations.DestinationsStore.SearchTours | src/stores/destinationsStore.js:475-484 | Returns and stores the search results |
| Destinations.DestinationsStore.FilterToursByPrice | src/stores/destinationsStore.js:487-493 | Returns and stores the price-range result |
| Destinations.DestinationsStore.FilterToursByDuration | src/stores/destinationsStore.js:496-502 | Returns and stores the duration-range result |
| Destinations.DestinationsStore.ResetFilters | src/stores/destinationsStore.js:505-516 | The selected civilization's tours when its id is a non-empty string, empty otherwise |
| Theme.ThemeStore.constructor | src/stores/themeStore.js:9-17 | Follows the system, dark mode equals the system scheme, theme matches |
| Theme.ThemeStore.ToggleTheme | src/stores/themeStore.js:20-25 | Dark mode negated, following off, theme still matches |
| Theme.ThemeStore.SetThemeMode | src/stores/themeStore.js:28-33 | Dark mode set, following off, theme matches; repeating it changes nothing |
| Theme.ThemeStore.ToggleFollowSystem | src/stores/themeStore.js:36-48 | Following negated; turning it on adopts the system scheme, turning it off keeps mode and theme |
| Theme.ThemeStore.UpdateFromSystem | src/stores/themeStore.js:51-59 | No-op unless following; when following, dark mode becomes the system scheme |
| Auth.PublicProfile | src/stores/authStore.js:95 | The stored user has no password key and exactly the other five keys |
| Auth.FindUser | src/stores/authStore.js:40-42 | None exactly when no user has both that username and password; otherwise the first such user in the list |
| Auth.InitialIdsAreSequential | src/stores/authStore.js:7-24 | The two mock users have ids "1" and "2" |
| Auth.NewUserKeepsIdsSequential | src/stores/authStore.js:81-92 | Pushing the new user keeps every id equal to its one-based position |
| Auth.SequentialIdsAreDistinct | src/stores/authStore.js:83 | Position-based ids are pairwise distinct |
| Auth.RegisteredUserCanLogIn | src/stores/authStore.js:81-92 | After a fresh username is pushed, the login lookup finds exactly the new user |
| Auth.MergeProfile | src/stores/authStore.js:131-138 | Keys of the update win; every other key of the old user is kept; no other keys |
| Auth.AuthStore.constructor | src/stores/authStore.js:28-32 | Signed out, not loading, no error, the two mock users |
| Auth.AuthStore.BeginRequest | src/stores/authStore.js:36 | Loading and no error |
| Auth.AuthStore.CompleteLogin | src/stores/authStore.js:39-59 | Success exactly when the lookup finds a user: that user's public profile, authenticated, no error; otherwise the fixed error and user unchanged; never loading afterwards |
| Auth.AuthStore.Login | src/stores/authStore.js:35-60 | As CompleteLogin, after BeginRequest |
| Auth.AuthStore.CompleteRegister | src/stores/authStore.js:63-103 | A taken username gives the fixed error and leaves users and user unchanged; otherwise exactly one user with the next id is appended and signed in without password; ids stay sequential |
| Auth.AuthStore.Register | src/stores/authStore.js:63-103 | As CompleteRegister, after BeginRequest |
| Auth.AuthStore.LoginAsGuest | src/stores/authStore.js:106-119 | The fixed guest record with `isGuest`, authenticated, no error |
| Auth.AuthStore.Logout | src/stores/authStore.js:122-128 | No user, not authenticated, no error |
| Auth.AuthStore.UpdateProfile | src/stores/authStore.js:131-138 | The user becomes the merged profile |
| Auth.AuthStore.ClearError | src/stores/authStore.js:141 | Only the error is cleared |
| Auth.RegisterThenLogin | src/stores/authStore.js:35-103 | Registering a fresh username and then logging in with it signs that new user in |
| Colors.GetColorFromValue | src/utils/colorUtils.js:1-17 | An "accent…" string comes back unchanged; otherwise the first key whose value equals the input; "primary" when none does; always the input, a key or "primary" |
| Colors.FoundKeyHasTheValue | src/utils/colorUtils.js:8-13 | With unique keys, looking up the returned key gives the colour searched for |
| TravelStats.InitialCounts | src/screens/profile/TravelStatsScreen.js:45-47 | Keys are exactly the civilizations' ids, every count zero |
| TravelStats.DaysBetweenRoundsUp | src/screens/profile/TravelStatsScreen.js:61-66 | The day count is the span in milliseconds divided by a day, rounded up, and does not depend on the order of the dates |
| TravelStats.StatsOver | src/screens/profile/TravelStatsScreen.js:39-70 | Total days never negative |
| TravelStats.ProcessBooking | src/screens/profile/TravelStatsScreen.js:50-70 | One booking's updates of the accumulators are one `TravelStats.AddBooking` step |
| TravelStats.CalculateStats | src/screens/profile/TravelStatsScreen.js:29-78 | The two loops compute `TravelStats.StatsOf` of the bookings; the empty list gives zeros, no civilizations and an empty map |
| TravelStats.StatsOverSnoc | src/screens/profile/TravelStatsScreen.js:50-70 | Processing one more booking is one fold step |
| TravelStats.CountsCountBookings | src/screens/profile/TravelStatsScreen.js:45-57 | Each count is the number of known-tour bookings of that civilization; keys are the catalogue's and the booked civilizations |
| TravelStats.VisitedAreKnownCivilizations | src/screens/profile/TravelStatsScreen.js:41-55 | Visited civilizations have no duplicates and are exactly the civilizations of known-tour bookings |
| TravelStats.VisitedHaveCounts | src/screens/profile/TravelStatsScreen.js:41-57 | Every visited civilization has a count of at least one |
| TravelStats.UnknownToursAreSkipped | src/screens/profile/TravelStatsScreen.js:51-52 | Bookings of tours missing from the catalogue change no statistic |
| TravelStats.SpentWhenAllKnown | src/screens/profile/TravelStatsScreen.js:58 | With every tour known, money spent is the sum of all prices |
| TravelStats.SpentIsSumOfKnownPrices | src/screens/profile/TravelStatsScreen.js:50-58 | Money spent is the sum of the prices of known-tour bookings, whatever their status |
| TravelStats.TotalDaysIsKnownTripDays | src/screens/profile/TravelStatsScreen.js:50-69 | Days travelled is the sum over known-tour bookings of the booked span in whole days, or the tour's duration when the booking has no dates |
| TravelStats.InitialCountsNotEmpty | src/screens/profile/TravelStatsScreen.js:45-47 | With at least one civilization, the initial counts are not empty |
| TravelStats.StatsOfOne | src/screens/profile/TravelStatsScreen.js:29-70 | A single booking is one fold step from the initial counts |
| TravelStats.EmptyAndUnknownDiffer | src/screens/profile/TravelStatsScreen.js:30-47 | No bookings give an empty count map, while one unknown-tour booking gives every civilization at zero |
| TravelerInfo.WithoutTraveler | src/screens/bookings/TravelerInfoScreen.js:52-54 | Removes every traveler with the id and keeps the rest in order, each as often as in the list |
| TravelerInfo.UpdatedTravelers | src/screens/bookings/TravelerInfoScreen.js:56-62 | Same length; non-matching entries identical; matching entries change only the named field |
| TravelerInfo.IncompleteMeansBlankField | src/screens/bookings/TravelerInfoScreen.js:64-68 | The check fails exactly when some traveler's name or age is blank after trimming |
| TravelerInfo.AddedTravelerBlocksContinue | src/screens/bookings/TravelerInfoScreen.js:42-50 | A freshly added traveler makes the check fail |
| TravelerInfo.RemoveDistinctId | src/screens/bookings/TravelerInfoScreen.js:52-54 | With distinct ids, removing an entry's id removes that entry alone |
| TravelerInfo.AddKeepsIdsPositions | src/screens/bookings/TravelerInfoScreen.js:42-50 | Adding without removing keeps ids "1", "2", … in position |
| TravelerInfo.RemoveThenAddDuplicatesId | src/screens/bookings/TravelerInfoScreen.js:42-54 | Removing an entry other than the last and then adding one gives two entries the same id |
| TravelerInfo.DuplicateIdEditsBoth | src/screens/bookings/TravelerInfoScreen.js:52-62 | After that, renaming the new entry by id renames the older entry too, and removing by that id removes both |
| TravelerInfo.TravelerForm.constructor | src/screens/bookings/TravelerInfoScreen.js:31-40 | One primary traveler with id "1", the user's name and age "35"; no special requests |
| TravelerInfo.TravelerForm.AddTraveler | src/screens/bookings/TravelerInfoScreen.js:42-50 | Appends one blank, non-primary traveler with id `length + 1` |
| TravelerInfo.TravelerForm.RemoveTraveler | src/screens/bookings/TravelerInfoScreen.js:52-54 | The list becomes the filtered list |
| TravelerInfo.TravelerForm.UpdateTraveler | src/screens/bookings/TravelerInfoScreen.js:56-62 | The list becomes the updated list |
| TravelerInfo.TravelerForm.SetSpecialRequests | src/screens/bookings/TravelerInfoScreen.js:40 | Only the special requests change |
| TravelerInfo.TravelerForm.HandleContinue | src/screens/bookings/TravelerInfoScreen.js:64-84 | Saves exactly when every traveler is complete: then the draft's travelers become the `{travelers, specialRequests}` payload and step 2; otherwise the booking store is unchanged |
| Signup.CheckSignup | src/screens/auth/SignupScreen.js:39-47 | Fields missing exactly when the trimmed username, the password or the trimmed name is empty; passwords differ only when all fields are present; submitted only when both checks pass |
| Signup.BlankPasswordIsAccepted | src/screens/auth/SignupScreen.js:39 | A password of spaces passes the required-fields check |
| Signup.MissingFieldsTakePrecedence | src/screens/auth/SignupScreen.js:39-47 | A blank username is reported even when the passwords differ |
| Signup.SignupForm.constructor | src/screens/auth/SignupScreen.js:25 | No validation error |
| Signup.SignupForm.HandleSignup | src/screens/auth/SignupScreen.js:33-51 | Both errors cleared first; a failed check sets its message and leaves the users and user unchanged; otherwise `register(username, password, name, "Roman")` with untrimmed values, with register's effects |

## Left out

- Persistence (the `persist` middleware, AsyncStorage and the `partialize` projections), i18n, rendering and navigation are not modelled. They are library calls, asynchronous I/O or layout. The translated messages are their translation keys.
- The `setTimeout` delays in the auth store are not modelled. Each callback body is a synchronous completion step (`CompleteLogin`, `CompleteRegister`).
- Values from outside the code are parameters: `uuidv4()`, `new Date()` (integer milliseconds, not ISO strings), `Math.random()` (a sequence of reals in [0, 1)) and `Appearance.getColorScheme()` (a boolean).
- The catalogue holds all five civilizations and all eight tours, with their ids, names, descriptions, accent colours, durations and prices. Ratings, images, highlights and other display fields are left out.
- `getCivilizations`, `getTours`, `getAllBookings`, `getCurrentStep` and `getFavorites` just return a field. In the model they are reads of that field.
- The theme token tables are left out. A theme is `LightTheme` or `DarkTheme`.
- `toLowerCase` and `trim` are ASCII-only. For `trim`, white space is space, tab, newline, carriage return, vertical tab, form feed and the no-break space; other Unicode white space and line terminators are not included.
- Bookings.BookingsStore.SetTravelDates, SetTravelers, SetPaymentInfo and ConfirmBooking require a draft. Without one the source spreads `null` into a record holding only the new fields; that partial record is not modelled.
- Bookings.BookingsStore.CalculateTotal requires a draft. Without one the source throws a TypeError when it reads `currentBooking.travelers.length` (src/stores/bookingsStore.js:57), before any spread; the exception is not modelled.
- Bookings.ActiveBookings and Bookings.BookingHistory require every confirmed record to carry dates. The source reads `travelDates.endDate` and would throw on a confirmed record without them.
- Bookings.BookingsStore.CancelBooking: the source's comment at src/stores/bookingsStore.js:137 says it cancels a confirmed booking. The code has no status guard and re-stamps `cancelledAt` on every call. The model follows the code (`Bookings.CancelTwiceRestamps`).
- TravelerInfo.TravelerForm.UpdateTraveler takes only the two keys the screen's inputs use (`name`, `age`), not an arbitrary computed key.
- TravelerInfo.TravelerForm.AddTraveler keeps the source's non-unique ids. `TravelerInfo.RemoveThenAddDuplicatesId` states the duplicate. The screen edits and removes travelers by id (src/screens/bookings/TravelerInfoScreen.js:184, 205, 227), so the two entries then move together (`TravelerInfo.DuplicateIdEditsBoth`). The model keeps this behaviour rather than inventing a different id scheme.
- TravelStats.CalculateStats: `booking.totalPrice || 0` maps a missing price or NaN to 0. A record's `totalPrice` in the model is the corrected integer total (see Findings), so money spent is the sum of those totals. The source as written stores NaN for every booking made through the screens, so its stats screen counts such bookings as 0 spent. `destCounts[civ] || 0` is modelled as a missing key counting 0.
- TravelStats.CountsCountBookings states each count as the number of occurrences; the sum over all counts is not stated separately.
- The floating-point display maths of the stats screen (bars, completion ring) is left out.

## Findings

| source | as written | input that shows it | evidently intended | confidence | as-written member | corrected member |
|---|---|---|---|---|---|---|
| src/stores/bookingsStore.js:56-68 | `calculateTotal` multiplies the price by `currentBooking.travelers.length`, but the traveler screen stores the object `{travelers, specialRequests}` there, which has no `length`, so the total is NaN | start a booking for egypt-1, save one traveler from the traveler screen, then `calculateTotal(1200)` | 1200: the price times the number of travelers in the payload | not executed | Bookings.TotalAsWritten, Bookings.PayloadTotalIsNaN | Bookings.BookingsStore.CalculateTotal |
