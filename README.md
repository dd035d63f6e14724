# Hotel admin client — a Dafny model

This project models the logic of a React admin client for a hotel-booking backend.
Every screen fetches lists from the REST backend, filters and aggregates them in
memory, and posts changes back. The model covers:

- the session: login acceptance, the two `localStorage` entries `auth` and `user`,
  restore at start-up, logout;
- the HTTP client's two interceptors;
- the route guards and the route table;
- the four management screens: bookings, rooms, hotels and the dashboard;
- the top bar.

Modules follow the source files:

| module | models |
|---|---|
| `Browser` | `localStorage` as a map and `window.location` as a field |
| `Api` | `src/services/api.js` |
| `Auth` | `src/utils/auth.js` |
| `Routes` | `src/App.js` |
| `Bookings` | `src/components/Bookings/BookingsManagement.js` |
| `Rooms` | `src/components/Rooms/RoomsManagement.js` |
| `Hotels` | `src/components/Hotels/HotelsManagement.js` |
| `Dashboard` | `src/components/Dashboard/Dashboard.js` |
| `Topbar` | `src/components/Layout/Topbar.js` |
| `Records` | the backend's records and the status tables the views share |

`Seqs`, `Text` and `Base64` supply the host functions the source calls:

- `Array.prototype.filter`, `find` and `slice`;
- `Number.prototype.toString`, ASCII `toLowerCase`/`toUpperCase`, `includes`;
- de-duplication and `sort` of strings;
- `btoa`/`atob`, as Base64 in section 4 of RFC 4648.

Modelling choices:

- **Component state as classes.** Code that changes state step by step is a class
  whose fields are the component's state. Examples: `AuthProvider`, `BookingsView`,
  `RoomsView`, `HotelsView`, `DashboardView`, `TopbarView`, and `Window` for the
  browser.
- **Service calls as inputs.** Each service call is a `Reply` the method receives:
  either `Ok(value)` or `Fail(HttpError(status))`, already passed through the response
  interceptor. Where a call is made, the method returns it as a `Call` value (verb,
  path, body), so contracts can state exactly what goes over the wire.
- **Instants and amounts.** Instants are integers (milliseconds since the epoch).
  Amounts and ratings are reals.
- **The dashboard sort stays an array sort.** `bookings.sort(...)` is an in-place
  insertion sort on an `array`. It is proved equal to a functional stable sort, and
  that sort is proved ordered newest first, a permutation, and stable.
- **Stored session values.** The stored values are `Text(s)` for `auth` and
  `UserJson(user)` for the serialised user. The invariant `WellFormed` keeps each
  key's kind fixed.

## Model

| member | source | states |
|---|---|---|
| Browser.WithoutSession | src/services/api.js:56-59 | removes exactly `auth` and `user`; every other key keeps its value; well-formedness is preserved |
| Browser.WithoutSessionIdempotent | src/utils/auth.js:54-57 | removing the session twice is the same as removing it once |
| Api.WithStoredAuth | src/services/api.js:17-20 | Authorization becomes the stored `auth` text exactly when that entry is truthy; otherwise the headers are unchanged; no other header changes |
| Api.InterceptRequest | src/services/api.js:15-22 | the config's headers become `WithStoredAuth` of the old headers and current storage |
| Api.InterceptResponseError | src/services/api.js:29-38 | on status 401, storage loses both session keys and location becomes /login; for any other error, or none, both are unchanged; the error is rejected unchanged |
| Api.Logout | src/services/api.js:56-59 | storage becomes `WithoutSession` of the old storage; location unchanged |
| Api.BasicAuthorization | src/services/api.js:44-50 | defined exactly when `email:password` is Latin-1 (btoa throws otherwise); starts with "Basic " |
| Api.BasicAuthorizationRoundTrip | src/services/api.js:44-50 | decoding the credential gives back the email and password, when the email has no colon (section 2 of RFC 7617) |
| Api.Login | src/services/api.js:43-53 | a btoa failure sends nothing; otherwise one POST to /api/users/login with body {email, password}, through both interceptors; a 401 wipes the session |
| Api.LoginHeaderOverriddenByStoredAuth | src/services/api.js:17-20 | when a truthy `auth` is stored, the request interceptor replaces the login call's own Basic header with the stored one |
| Api.LoginHeaderWithoutStoredAuth | src/services/api.js:44-50 | with no stored `auth`, the login call carries its own Basic header |
| Api.HotelPathInjective | src/services/api.js:65-68 | distinct hotel ids give distinct /api/hotels/{id} paths, and the converse |
| Api.PrefixedIdInjective | src/services/api.js:65-79 | an id path identifies its id |
| Api.UpdateBookingStatus | src/services/api.js:105-106 | PUT /api/bookings/{id}/status with body {status, changedBy, reason} |
| Api.CancelBooking | src/services/api.js:107-108 | PUT /api/bookings/{id}/cancel with body {changedBy, reason} |
| Api.BookingActionPathsDistinct | src/services/api.js:105-108 | a status path never equals a cancel path; two status paths are equal iff their ids are |
| Auth.Decide | src/utils/auth.js:32-50 | accepted iff the response arrived, has success, and its user has role ADMIN; unsuccessful or non-admin gives "Invalid credentials…"; a missing response or missing user gives "Login failed…" |
| Auth.NonAdminNeverAccepted | src/utils/auth.js:34 | a response whose user is not an ADMIN is always rejected as invalid credentials |
| Auth.AuthProvider.constructor | src/utils/auth.js:15-17 | no user, loading |
| Auth.AuthProvider.Restore | src/utils/auth.js:19-28 | the session user is set from storage only when both `user` and `auth` are truthy; loading always ends |
| Auth.AuthProvider.Login | src/utils/auth.js:30-52 | success iff the credential encodes, the call succeeds and `Decide` accepts. On success `auth` := "Basic " + Base64 and `user` := the user, and the session user is set. A rejected answer changes nothing. A btoa failure or a failed call gives "Login failed…". After a failed call, a 401 removes both session keys and moves to /login; any other error leaves storage and location unchanged. The request sent is the POST of {email, password} with the login headers as the request interceptor leaves them, and nothing is sent when btoa fails |
| Auth.AuthProvider.Logout | src/utils/auth.js:54-57 | both storage keys removed and the user cleared, whatever the prior state |
| Auth.UseAuth | src/utils/auth.js:7-13 | the provider's value inside a provider; the error "useAuth must be used within AuthProvider" outside one |
| Routes.ProtectedRoute | src/App.js:16-24 | loading screen while loading; children iff a user is present; otherwise a redirect to /login |
| Routes.PublicRoute | src/App.js:27-35 | loading screen while loading; children iff no user is present; otherwise a redirect to /dashboard |
| Routes.ExactlyOneGuardOpens | src/App.js:23-34 | once loading ends, exactly one of the two guards renders its children |
| Routes.Resolve | src/App.js:42-65 | /login goes through PublicRoute to the login screen; /dashboard, /hotels, /rooms and /bookings go through ProtectedRoute to their pages; the signed-in index redirects to /dashboard, and an index the guard stops shows what the guard shows; every path outside the table redirects to /dashboard |
| Routes.AnonymousEndsAtLogin | src/App.js:42-65 | for an anonymous visitor every path ends, after at most two redirects, on the login screen |
| Routes.SignedInEndsOnAPage | src/App.js:42-65 | for a signed-in user every path ends, after at most two redirects, on a page other than the login screen |
| Records.StatusInfoIn | src/components/Rooms/RoomsManagement.js:106-109 | a known status gives its table row; any other status gives {value: s, label: s, color: "secondary"} |
| Records.OtherStatusesSize | src/components/Bookings/BookingsManagement.js:382-383 | dropping the current status removes exactly one row when it is listed, and none otherwise |
| Records.GetHotelName | src/components/Bookings/BookingsManagement.js:96-99 | the name of the first hotel with the id; "Hotel " + id when none has it |
| Bookings.FilteredBookings | src/components/Bookings/BookingsManagement.js:115-147 | kept iff every non-empty filter holds: status equality, the hotel id's decimal string, the date range. Duplicates are kept with their multiplicity. With all filters empty, the list is unchanged |
| Bookings.FilteredBookingsIsSubsequence | src/components/Bookings/BookingsManagement.js:115-147 | the filtered list keeps the original order |
| Bookings.HotelFilterSelectsHotel | src/components/Bookings/BookingsManagement.js:118 | choosing hotel id n keeps exactly the bookings of hotel n |
| Bookings.WeekAndPastDisjoint | src/components/Bookings/BookingsManagement.js:129-139 | 'week' keeps [now, now + 7 days] inclusive and 'past' keeps instants before now; the two never overlap |
| Bookings.GetBookingCounts | src/components/Bookings/BookingsManagement.js:149-159 | the total is the list's length; each status count is at most the total |
| Bookings.CountsAddUp | src/components/Bookings/BookingsManagement.js:149-159 | when every booking has one of the five statuses, the five counts sum to the total |
| Bookings.GetStatusInfo | src/components/Bookings/BookingsManagement.js:101-105 | "booking" uses the booking table and any other type the payment table; unknown values get the generic badge |
| Bookings.CeilDays | src/components/Bookings/BookingsManagement.js:111 | Math.ceil of a duration in days: (d - 1) days < ms <= d days |
| Bookings.DaysUntilCheckIn | src/components/Bookings/BookingsManagement.js:107-113 | no more than 0 for a past check-in; at least 1 for a future one; 0 to 7 within the next week |
| Bookings.Nights | src/components/Bookings/BookingsManagement.js:344 | a stay that ends after it starts lasts at least one night |
| Bookings.DaysNotice | src/components/Bookings/BookingsManagement.js:330-335 | a notice exactly for 0 to 7 days: "Today", "Tomorrow", else "n days" |
| Bookings.StatusOptions | src/components/Bookings/BookingsManagement.js:382-383 | every booking status except the current one, in table order; 4 options for a known status, all 5 otherwise |
| Bookings.BookingsView.constructor | src/components/Bookings/BookingsManagement.js:7-18 | empty lists, loading, empty filters, no message, no history, nothing updating |
| Bookings.BookingsView.ClearFilters | src/components/Bookings/BookingsManagement.js:425-427 | all three filters empty, so the table lists every booking |
| Bookings.BookingsView.LoadData | src/components/Bookings/BookingsManagement.js:48-63 | both lists replaced together, or the load-error banner with the lists kept; loading ends |
| Bookings.BookingsView.HandleStatusUpdate | src/components/Bookings/BookingsManagement.js:65-82 | sends the status with the user's id and the reason "Status updated by admin to " + status. Success shows the success banner and reloads. An absent user or a rejection shows the error banner. No booking is marked as updating afterwards |
| Bookings.BookingsView.ViewBookingHistory | src/components/Bookings/BookingsManagement.js:84-94 | success opens the modal on the fetched history for that booking; failure shows the history error and leaves the modal alone |
| Rooms.FilteredRooms | src/components/Rooms/RoomsManagement.js:92-99 | kept iff every non-empty filter holds: the hotel id's decimal string, status equality, the room-type id's string. Multiplicities are kept. No filters keep everything |
| Rooms.FilteredRoomsIsSubsequence | src/components/Rooms/RoomsManagement.js:92-99 | the filtered list keeps the original order |
| Rooms.FilterSelectsHotelAndType | src/components/Rooms/RoomsManagement.js:94-96 | choosing hotel h and type t keeps exactly the rooms of hotel h and type t |
| Rooms.AvailableRoomTypes | src/components/Rooms/RoomsManagement.js:101-104 | every type with no hotel chosen; otherwise exactly the types whose hotel id string is the filter; order kept |
| Rooms.AvailableTypesOfHotel | src/components/Rooms/RoomsManagement.js:101-104 | choosing hotel n offers exactly hotel n's room types |
| Rooms.RoomTypeOf | src/components/Rooms/RoomsManagement.js:78 | the first room type with the id, None iff no type has it |
| Rooms.GetRoomTypeName | src/components/Rooms/RoomsManagement.js:77-80 | the first matching type's name, else "Type " + id |
| Rooms.GetRoomTypePrice | src/components/Rooms/RoomsManagement.js:82-85 | the first matching type's base price, else 0 |
| Rooms.GetRoomTypeCapacity | src/components/Rooms/RoomsManagement.js:87-90 | the first matching type's maximum occupancy, else 0 |
| Rooms.GetStatusInfo | src/components/Rooms/RoomsManagement.js:106-109 | a known status gives its row; others get the generic badge |
| Rooms.StatusOptions | src/components/Rooms/RoomsManagement.js:291-292 | every room status except the current one, in table order; 3 for a known status, all 4 otherwise |
| Rooms.GetStatusCounts | src/components/Rooms/RoomsManagement.js:111-120 | the total is the list's length; each status count is at most the total |
| Rooms.CountsAddUp | src/components/Rooms/RoomsManagement.js:111-120 | when every room has one of the four statuses, the four counts sum to the total |
| Rooms.RoomsView.constructor | src/components/Rooms/RoomsManagement.js:6-14 | empty lists, loading, empty filters, no message, nothing updating |
| Rooms.RoomsView.LoadData | src/components/Rooms/RoomsManagement.js:37-55 | the three lists replaced together, or the load-error banner; loading ends |
| Rooms.RoomsView.UpdateRoomStatus | src/components/Rooms/RoomsManagement.js:57-70 | PUT /api/rooms/{id} with the first room with that id, only its status replaced (the status alone when no room has the id). Success banner and reload, or the error banner. Nothing marked updating afterwards |
| Rooms.RoomsView.ClearFilters | src/components/Rooms/RoomsManagement.js:323-327 | all three filters empty, so the grid shows every room |
| Rooms.RoomsView.SelectHotel | src/components/Rooms/RoomsManagement.js:185-188 | the hotel filter takes the choice and the room-type filter is cleared; nothing else changes |
| Rooms.FirstFound | src/components/Rooms/RoomsManagement.js:59 | the room `find` returns is the first with the id |
| Rooms.SelectHotelShowsHotel | src/components/Rooms/RoomsManagement.js:185-188 | after a hotel is chosen, the grid shows exactly that hotel's rooms in the chosen status, whatever type was chosen before |
| Hotels.FilteredHotels | src/components/Hotels/HotelsManagement.js:55-63 | kept iff the lower-cased term occurs in the lower-cased name, city or address, and the city filter is empty or equal; multiplicities kept |
| Hotels.FilteredHotelsIsSubsequence | src/components/Hotels/HotelsManagement.js:55-63 | the filtered list keeps the original order |
| Hotels.NoFilterKeepsAll | src/components/Hotels/HotelsManagement.js:55-63 | an empty search with no city lists every hotel |
| Hotels.SearchIgnoresCase | src/components/Hotels/HotelsManagement.js:57-59 | the term, its lower case and its upper case list the same hotels |
| Hotels.CityFilterKeepsCity | src/components/Hotels/HotelsManagement.js:60 | a chosen city keeps only hotels in that city |
| Hotels.Cities | src/components/Hotels/HotelsManagement.js:65-67 | exactly the hotels' cities, each once, in strictly ascending order |
| Hotels.EveryCityListsAHotel | src/components/Hotels/HotelsManagement.js:65-67 | every city the menu offers lists at least one hotel while the search is empty |
| Hotels.FormFromHotel | src/components/Hotels/HotelsManagement.js:92-105 | the ten fields; missing text fields become '' and a missing rating 0; a hotel with nothing set gives the blank form |
| Hotels.ChangeKeepsFields | src/components/Hotels/HotelsManagement.js:138-144 | changing one of the ten fields keeps the form's field set |
| Hotels.RenderStars | src/components/Hotels/HotelsManagement.js:151-161 | five stars; the i-th (from 1) is filled iff i <= rating, that is iff i <= floor(rating); the filled ones come first |
| Hotels.HotelsView.constructor | src/components/Hotels/HotelsManagement.js:6-26 | no hotels, loading, modal closed, nothing edited, blank form |
| Hotels.HotelsView.LoadHotels | src/components/Hotels/HotelsManagement.js:42-53 | the list replaced, or the load-error banner; loading ends |
| Hotels.HotelsView.OpenModal | src/components/Hotels/HotelsManagement.js:193 | the modal opens; from a closed modal it opens blank with nothing being edited |
| Hotels.HotelsView.HandleEdit | src/components/Hotels/HotelsManagement.js:92-107 | the hotel is being edited, the form is `FormFromHotel`, the modal is open |
| Hotels.HotelsView.ResetForm | src/components/Hotels/HotelsManagement.js:122-136 | the blank form and nothing being edited |
| Hotels.HotelsView.HandleChange | src/components/Hotels/HotelsManagement.js:138-144 | the named field takes the input's text; every other field is unchanged |
| Hotels.HotelsView.HandleModalClose | src/components/Hotels/HotelsManagement.js:146-149 | the modal closes on a blank form with nothing being edited |
| Hotels.HotelsView.HandleSubmit | src/components/Hotels/HotelsManagement.js:69-90 | PUT to the edited hotel's id, or POST when none is edited, with the form as body. A saved form closes the modal and resets it whatever the reload brings. A rejected one stays open and unchanged behind the save-error banner |
| Hotels.HotelsView.HandleDelete | src/components/Hotels/HotelsManagement.js:109-120 | exactly one DELETE /api/hotels/{id} iff confirmed; success banner and reload, or the delete-error banner; the form is never touched |
| Hotels.ConfirmPrompt | src/components/Hotels/HotelsManagement.js:110 | the question names the hotel, quoted |
| Dashboard.ActiveCount | src/components/Dashboard/Dashboard.js:34-36 | the number of bookings in PENDING, CONFIRMED or CHECKED_IN, at most the total |
| Dashboard.ActiveIsPendingConfirmedCheckedIn | src/components/Dashboard/Dashboard.js:34-36 | the active count equals the bookings view's pending + confirmed + checked-in counts |
| Dashboard.SumAmountsPermutation | src/components/Dashboard/Dashboard.js:41-43 | the sum of amounts does not depend on order |
| Dashboard.RevenueOrderIndependent | src/components/Dashboard/Dashboard.js:41-43 | the PAID revenue (a missing amount counting 0) is the same for any reordering of the bookings |
| Dashboard.RevenueNonNegative | src/components/Dashboard/Dashboard.js:41-43 | with no negative amounts the revenue is not negative |
| Dashboard.OccupancyRate | src/components/Dashboard/Dashboard.js:45-46 | in [0, 100]; 0 iff there are no rooms or none is occupied; 100 iff every room is occupied |
| Dashboard.ComputeStats | src/components/Dashboard/Dashboard.js:33-57 | totals are the list lengths; active <= total; the available and occupied counts agree with the rooms view's counts and fit in the total; occupancy in [0, 100] |
| Dashboard.SortIsNewestFirst | src/components/Dashboard/Dashboard.js:60-61 | the sorted bookings are ordered by creation instant, newest first |
| Dashboard.SortPermutes | src/components/Dashboard/Dashboard.js:60-61 | the sorted bookings are a permutation of the fetched ones |
| Dashboard.SortIsStable | src/components/Dashboard/Dashboard.js:60-61 | bookings created at the same instant keep their fetched order |
| Dashboard.InsertPosition | src/components/Dashboard/Dashboard.js:61 | a booking is placed right after the last booking not older than it |
| Dashboard.SortRecentFirst | src/components/Dashboard/Dashboard.js:60-61 | the array, sorted in place, equals the stable newest-first sort of its old contents |
| Dashboard.InsertLast | src/components/Dashboard/Dashboard.js:61 | one insertion step: the prefix through i becomes the insertion of a[i] into the sorted prefix; the rest is untouched |
| Dashboard.Recent | src/components/Dashboard/Dashboard.js:60-62 | min(5, n) bookings |
| Dashboard.RecentAreNewest | src/components/Dashboard/Dashboard.js:60-62 | the recent list is newest first, drawn from the bookings, and no booking left off it is newer than one on it |
| Dashboard.DashboardView.constructor | src/components/Dashboard/Dashboard.js:6-18 | zero statistics, no recent bookings, loading, no error |
| Dashboard.DashboardView.LoadDashboardData | src/components/Dashboard/Dashboard.js:24-71 | statistics of the fetched lists and the five newest bookings, or the error "Failed to load dashboard data" with both kept; loading ends |
| Topbar.PageKey | src/components/Layout/Topbar.js:13 | the path without its first character; "" for "" |
| Topbar.PageTitle | src/components/Layout/Topbar.js:12-21 | the title of the page the key names; "Dashboard" for any other key |
| Topbar.PageDescription | src/components/Layout/Topbar.js:23-32 | non-empty exactly for the four page keys, with that page's description |
| Topbar.TitledExactlyOnPageRoutes | src/components/Layout/Topbar.js:12-32 | the four page routes get their own title and a description; a path with a description is one of them, after its first character |
| Topbar.Initial | src/components/Layout/Topbar.js:36 | the first character of a present, non-empty name, else nothing |
| Topbar.UserInitials | src/components/Layout/Topbar.js:34-37 | "A" with no user or no initials; otherwise the upper-cased initials of first and last name, one or two characters |
| Topbar.InitialsAreUpperCase | src/components/Layout/Topbar.js:36 | the first initial is the upper case of the first name's first letter |
| Topbar.TopbarView.constructor | src/components/Layout/Topbar.js:9 | the menu starts closed |
| Topbar.TopbarView.ToggleUserMenu | src/components/Layout/Topbar.js:80 | the menu flips between open and closed |
| Topbar.TopbarView.CloseUserMenu | src/components/Layout/Topbar.js:149 | the menu closes |
| Topbar.TopbarView.HandleLogout | src/components/Layout/Topbar.js:39-42 | the session ends (both keys removed, no user), the router moves to /login, and /login then renders the login screen |
| Seqs.Filter | src/components/Bookings/BookingsManagement.js:116 | Array.prototype.filter: kept iff in the list and the predicate holds; never longer |
| Seqs.FilterIsSubsequence | src/components/Rooms/RoomsManagement.js:93 | filter keeps the original order |
| Seqs.FilterMultiset | src/components/Hotels/HotelsManagement.js:56 | filter keeps every copy of a kept element and none of the others |
| Seqs.CountByKeysCoversAll | src/components/Rooms/RoomsManagement.js:111-120 | counting per key over distinct keys that cover every element counts each element once |
| Seqs.FilterKeyInCounts | src/components/Dashboard/Dashboard.js:34-36 | filtering by membership in distinct keys counts what counting key by key counts |
| Seqs.Find | src/components/Bookings/BookingsManagement.js:97 | Array.prototype.find: None iff nothing matches, otherwise the first match |
| Seqs.Take | src/components/Dashboard/Dashboard.js:62 | slice(0, n): min(n, length) elements, the list's own prefix |
| Text.IntToStringRoundTrip | src/components/Bookings/BookingsManagement.js:118 | the decimal string of an id parses back to the id |
| Text.IntToStringInjective | src/components/Rooms/RoomsManagement.js:94 | two ids have the same decimal string iff they are equal |
| Text.Includes | src/components/Hotels/HotelsManagement.js:57 | String.prototype.includes: true iff the needle occurs at some position |
| Text.SortDistinct | src/components/Hotels/HotelsManagement.js:66 | sort of distinct strings: same members, strictly ascending |
| Text.Dedupe | src/components/Hotels/HotelsManagement.js:66 | new Set: same members, no repeats |
| Text.LessTransitive | src/components/Hotels/HotelsManagement.js:66 | the string order sort uses is transitive |
| Text.LessTotal | src/components/Hotels/HotelsManagement.js:66 | any two distinct strings are ordered one way |
| Base64.Encode | src/services/api.js:44 | four symbols for each started group of three bytes: 4 * ceil(n / 3) symbols for n bytes |
| Base64.DecodeEncode | src/services/api.js:44 | decoding an encoding gives back the bytes (section 4 of RFC 4648) |
| Base64.Btoa | src/utils/auth.js:35 | defined exactly on Latin-1 strings, as btoa throws otherwise |
| Base64.BtoaRoundTrip | src/utils/auth.js:35 | atob(btoa(s)) == s for every Latin-1 string |

## Left out

- Rendering: JSX, CSS classes, spinners, emoji. The markup is not modelled; the view state that drives it is.
- The network, axios and `Promise.all`: calls are `Reply` inputs, already past the response interceptor. Fetch order and concurrency are not modelled.
- The 5-second `setTimeout` that clears a banner: a timer.
- JavaScript `Date`. The clock is a `Clock` value: the current instant, the instant `new Date(y, m + 1, d)` names, and the local-day function `toDateString` compares. Time zones and parsing of date strings are not modelled.
- The date-range buckets are not a partition. They compare with the current instant, not midnight, so a booking earlier today is both "today" and "past". Only the facts in `Bookings.WeekAndPastDisjoint` are stated.
- Floating point: `parseFloat` of amounts, IEEE addition order in the revenue sum, `toFixed(1)` (which makes the occupancy a rounded string), and `toLocaleString`. Amounts and the rate are reals.
- `JSON.parse`/`stringify`: the stored user is a `UserJson` value. Storage values written by other scripts are assumed well formed (`Browser.WellFormed`).
- Unicode: case mapping is ASCII-only. Strings are sequences of code points, not UTF-16 units. `sort` on strings is modelled by code-point order, which differs from UTF-16 order only for astral characters.
- `window.confirm` is the `confirmed` input of `HandleDelete`. The page reload that assigning `window.location.href` triggers is not modelled; only the new location is.
- React Router's matching is modelled as exact string equality, without case-insensitivity or trailing slashes.
- Topbar.PageTitle: does not model `titles[path]` hitting `Object.prototype` members such as "constructor", which would return a function rather than a title.
- Api.BookingHistory, Api.CreateHotel, Api.UpdateHotel, Api.DeleteHotel, Api.UpdateRoom: only build the call value; their verb and path are stated where the views use them.
- The service methods no core view calls (search, getByHotel, availability, room-type and room create/delete) are not modelled.
