# Event management front end — verified model of its client logic

This project models the client-side logic of a React front end for an event
management service (Jothikumar10/eventManagement-Frontend). It covers:

- the registration status vocabulary, normalised by case, with an explicit
  case for unknown or missing values;
- the end-of-day expiry rule for tickets;
- the labels, colour categories and gating of buttons that the user and admin
  pages derive from a status and an expiry flag;
- the local list and map updates each page applies after a successful request;
- the small string helpers: image-path resolution, ticket-number suffixes, ISO
  date truncation, the edit payload and the login redirect.

The pages do not agree with one another, and the model keeps every difference
instead of merging them. For example:

- an unknown status is red on the profile page but yellow on "my events";
- the profile page tests the exact `"approved"` for its badge text but ignores
  case for its colour;
- the event card's badge table only has upper-case keys.

Modules:

- `Common`: the JavaScript semantics the pages rely on (`Option`, truthiness,
  `||` fallbacks, ASCII case mapping, `startsWith`, `includes`, `slice(-n)`,
  `split(c)[0]`, `Array.prototype.filter`);
- `Records`: the API records the pages read;
- `Expiry`: the end-of-day rule;
- one module per page or component.

A page whose state changes is a `class` with those fields. An asynchronous
handler with a "request in flight" flag is split at its `await` into a
`Begin…` method (up to the request) and a `Finish…` method (the request's
outcome, a success/failure input). `window.confirm` is a boolean input.

Instants are integer milliseconds of local wall-clock time, and every day has
86 400 000 ms. `new Date(s)` reduced to its local calendar day is the
parameter `parse: string -> EventDate`, where `Invalid` stands for the Invalid
Date. Case mapping is ASCII-only.

## Model

| member | source | states |
|---|---|---|
| Common.Filter | src/Pages/Users/UserDashboard.jsx:52-56 | `Array.prototype.filter`: each value occurs in the result exactly as often as in the input when it is kept, and not at all otherwise; the result is an order-preserving subsequence of the input and no longer than it |
| Common.FilterKeepsAll | src/Pages/Users/UserDashboard.jsx:55 | a filter whose predicate holds for every element returns the input unchanged |
| Common.LowerMatchIffUpperMatch | src/Pages/Users/Profile.jsx:110-116 | for a lower-case word `w`, `s.toLowerCase() === w` holds exactly when `s.toUpperCase() === w.toUpperCase()`, so, under ASCII case mapping, the profile page's lower-case tests agree with the upper-case tests elsewhere |
| Common.Last | src/Pages/Users/Profile.jsx:155 | `slice(-n)` keeps `min(n, length)` characters and they end the string |
| Common.BeforeFirst | src/Pages/Admin/ManageEvents.jsx:180 | `split(c)[0]` is a prefix of the string with no `c` in it, and it is followed by `c` whenever it is shorter than the string |
| Records.EventOf | src/Pages/Users/MyEvents.jsx:49 | `reg.event \|\| {}`: a missing or unpopulated event reads as the empty object |
| Records.StatusOf | src/Pages/Admin/AdminRegistrations.jsx:57-60 | the upper-cased status compared with PENDING, APPROVED and REJECTED; anything else is `Unknown` and keeps its raw value |
| Records.IsPending | src/Pages/Admin/AdminRegistrations.jsx:95 | the pending test the queue applies here and the cancel control applies at RegisteredEvents.jsx:76-77: a pending status is always a seven-letter string, and both "pending" and "PENDING" pass |
| Records.LowerStatusMatch | src/Pages/Users/Profile.jsx:110-115 | `status?.toLowerCase()` equals "approved", "pending" or "rejected" exactly when the status is Approved, Pending or Rejected |
| Expiry.DayOf | src/Pages/Users/Profile.jsx:63-65 | every instant lies between the start and the end (23:59:59.999) of its own day |
| Expiry.LocalDay | src/Pages/Users/MyEvents.jsx:28-29 | a missing date is the Invalid Date |
| Expiry.IsExpired | src/Pages/Users/Profile.jsx:62-67 | a date is expired exactly when it is a valid date and now is at or after midnight starting the following day; an Invalid Date never is |
| Expiry.ExpiredIffLaterDay | src/Pages/Users/Profile.jsx:62-67 | `isExpired` holds exactly when today is a later day than the event's day |
| Expiry.OnEventDayNotExpired | src/Pages/Users/MyEvents.jsx:30-32 | any instant of the event's own day is not expired |
| Expiry.AfterEventDayExpired | src/Pages/Users/MyEvents.jsx:31-32 | any instant after 23:59:59.999 of the event's day is expired |
| Expiry.InvalidDateNeverExpires | src/Pages/Users/MyEvents.jsx:32 | an Invalid Date never expires (every comparison with it is false) |
| Expiry.ExpiryIsPermanent | src/Pages/Users/Profile.jsx:66 | once expired, always expired at later instants |
| Profile.ProgressFields | src/Pages/Users/Profile.jsx:104 | the six profile fields read for the strength bar |
| Profile.FilledCount | src/Pages/Users/Profile.jsx:105 | the number of truthy fields is at most the number of fields |
| Profile.CalculateProgress | src/Pages/Users/Profile.jsx:103-107 | an integer in 0..100 that is `Math.round(100·k/6)` for `k` filled fields (the nearest integer, halves up) |
| Profile.FilledCountZeroIff | src/Pages/Users/Profile.jsx:105 | the count is 0 exactly when no field is truthy |
| Profile.FilledCountFullIff | src/Pages/Users/Profile.jsx:105 | the count equals the number of fields exactly when every field is truthy |
| Profile.FilledCountMonotone | src/Pages/Users/Profile.jsx:105 | pointwise more filled fields never lower the count, and a newly filled field raises it |
| Profile.ProgressZeroIffEmpty | src/Pages/Users/Profile.jsx:103-107 | profile strength is 0 exactly when none of the six fields is truthy |
| Profile.ProgressFullIffComplete | src/Pages/Users/Profile.jsx:103-107 | profile strength is 100 exactly when all six fields are truthy |
| Profile.ProgressMonotone | src/Pages/Users/Profile.jsx:104-106 | filling more fields never lowers profile strength; filling one more field raises it |
| Profile.StatusStyle | src/Pages/Users/Profile.jsx:109-117 | grey iff approved (any case) and expired; green iff approved and not expired; yellow iff pending; red iff rejected, unknown or missing |
| Profile.BadgeLabel | src/Pages/Users/Profile.jsx:260 | the raw status, replaced by "Expired" exactly when expired and the status is exactly "approved" |
| Profile.TicketButton | src/Pages/Users/Profile.jsx:268-274 | present iff approved in any case; "Event Ended" iff also expired, "View Ticket" iff not |
| Profile.UpperCaseApprovedKeepsRawBadge | src/Pages/Users/Profile.jsx:110-116 | an expired "APPROVED" registration is styled grey and its button reads "Event Ended", but its badge still reads "APPROVED" |
| Profile.TicketNumber | src/Pages/Users/Profile.jsx:155 | the last 6 characters of the registration id (fewer for a shorter id), upper-cased |
| Profile.Modal | src/Pages/Users/Profile.jsx:135-192 | the expired overlay shows iff the ticket's event is expired; "Print Ticket" is offered iff it is not; the ticket number and the attendee name |
| Profile.PrintOfferedOnEventDay | src/Pages/Users/Profile.jsx:188-192 | a ticket can still be printed at any instant of its event's day |
| Profile.WithAvatar | src/Pages/Users/Profile.jsx:80 | `{ ...user, avatar }`: only the avatar changes; a missing user gives an object holding only the avatar |
| Profile.UploadNeverLowersProgress | src/Pages/Users/Profile.jsx:80 | a successful upload of a non-empty avatar never lowers profile strength |
| Profile.ProfilePage.constructor | src/Pages/Users/Profile.jsx:5-8 | no user, not editing, not uploading, no ticket selected |
| Profile.ProfilePage.Loaded | src/Pages/Users/Profile.jsx:33 | the fetched user replaces `user`; nothing else changes |
| Profile.ProfilePage.PressEditButton | src/Pages/Users/Profile.jsx:89-101 | the first press opens editing; while editing, a successful save replaces the user and closes editing, and a failed save changes nothing |
| Profile.ProfilePage.BeginUpload | src/Pages/Users/Profile.jsx:69-74 | without a chosen file nothing is sent and nothing changes; otherwise `uploading` is set |
| Profile.ProfilePage.FinishUpload | src/Pages/Users/Profile.jsx:80-86 | on success the avatar is replaced; `uploading` is cleared either way |
| Profile.ProfilePage.OpenTicket | src/Pages/Users/Profile.jsx:268-270 | the button exists only for an approved registration, and it selects the ticket even when the event has ended |
| Profile.ProfilePage.CloseTicket | src/Pages/Users/Profile.jsx:142 | the modal is closed; nothing else changes |
| EventCard.BadgeTone | src/components/Events/EventCard.jsx:8-12 | a tone exists exactly for the upper-case keys "PENDING", "APPROVED" and "REJECTED" (yellow, green, red) |
| EventCard.Render | src/components/Events/EventCard.jsx:3-92 | nothing for a missing event. Otherwise: the heading is `eventName` or "Untitled Event"; the image falls back to the placeholder URL and the description to "No description available."; a badge, showing the status, exactly for the three upper-case keys; date, location and category rows iff truthy; the button calls the handler iff one was given |
| EventCard.LowerCaseStatusHasNoBadge | src/components/Events/EventCard.jsx:36 | a lower-case status such as "pending" gets no badge |
| UserDashboard.RegistrationMap | src/Pages/Users/UserDashboard.jsx:32-36 | the map left by the `forEach` loop, each registration writing its own key in turn |
| UserDashboard.BuildRegistrationMap | src/Pages/Users/UserDashboard.jsx:32-36 | the loop computes exactly that map |
| UserDashboard.RegistrationMapKeys | src/Pages/Users/UserDashboard.jsx:119 | the map's keys are exactly the registrations' event keys, so the "Registered" counter counts distinct event keys (all populated events without `_id` share "[object Object]", all missing events "undefined") |
| UserDashboard.RegistrationMapLastWins | src/Pages/Users/UserDashboard.jsx:34-35 | the entry of an event key is the upper-cased status of the last registration with that key |
| UserDashboard.MarkPending | src/Pages/Users/UserDashboard.jsx:78 | the selected event's entry becomes "PENDING" and is added if absent; every other entry is unchanged |
| UserDashboard.MarkPendingLocksOnlyTarget | src/Pages/Users/UserDashboard.jsx:78 | after a successful registration, that event counts as already registered and every other event reads as before |
| UserDashboard.RegistrationKey | src/Pages/Users/UserDashboard.jsx:34 | `reg.event?._id \|\| reg.event` as a property key: an event id as itself, a populated event by its truthy `_id`, a populated event without one as "[object Object]", a missing event as "undefined" |
| UserDashboard.AlreadyRegistered | src/Pages/Users/UserDashboard.jsx:211-212 | an event counts as registered exactly when the map has an entry under its key and that entry is truthy |
| UserDashboard.EntryWithoutStatusDoesNotLock | src/Pages/Users/UserDashboard.jsx:211-212 | the register button is disabled exactly when the event's entry is truthy; an entry whose status was missing leaves it enabled |
| UserDashboard.StatusButtonStyle | src/Pages/Users/UserDashboard.jsx:92-99 | a locked style for exactly PENDING, APPROVED and REJECTED (an exact match); the active style for anything else, including undefined |
| UserDashboard.RegisterButtonText | src/Pages/Users/UserDashboard.jsx:215-219 | the entry itself when the event is registered, otherwise "Register Now" |
| UserDashboard.LockedStyleMeansDisabled | src/Pages/Users/UserDashboard.jsx:211-213 | a locked style never comes with an enabled button |
| UserDashboard.MatchesQuery | src/Pages/Users/UserDashboard.jsx:53-55 | the empty query matches every event; an event whose lower-cased title includes the lower-cased query matches; an event with no title, name or location matches only the empty query |
| UserDashboard.Search | src/Pages/Users/UserDashboard.jsx:52-56 | exactly the events whose lower-cased `title \|\| name \|\| ""` or location includes the lower-cased query, each as often as in the input, in the original order |
| UserDashboard.EmptyQueryKeepsAll | src/Pages/Users/UserDashboard.jsx:55 | an empty query keeps every event |
| UserDashboard.SearchIgnoresQueryCase | src/Pages/Users/UserDashboard.jsx:55 | two queries that differ only in ASCII case give the same result |
| UserDashboard.CardEvent | src/Pages/Users/UserDashboard.jsx:146-150 | the title falls back title → name → "Untitled Event" and the image imageUrl → image → "/placeholder.png"; the other fields are unchanged |
| UserDashboard.CardHeadingIgnoresTitle | src/Pages/Users/UserDashboard.jsx:144-153 | the card's heading is `eventName` or "Untitled Event", whatever the forced title is; its image is the resolved one |
| UserDashboard.Dashboard.constructor | src/Pages/Users/UserDashboard.jsx:6-12 | empty lists, empty query, empty map, closed modal |
| UserDashboard.Dashboard.Fetched | src/Pages/Users/UserDashboard.jsx:19-44 | a failed events request changes nothing; after a successful one the events are stored and filtered by the current query, and the map is rebuilt from the registrations only when a token is stored and the registrations request succeeds too, otherwise it is kept |
| UserDashboard.Dashboard.SetQuery | src/Pages/Users/UserDashboard.jsx:51-58 | the query is stored and the filter is re-run on the events |
| UserDashboard.Dashboard.OpenDetails | src/Pages/Users/UserDashboard.jsx:86-90 | the event is selected, the registration form is closed and the modal is shown |
| UserDashboard.Dashboard.CloseModal | src/Pages/Users/UserDashboard.jsx:204 | the modal is hidden; nothing else changes |
| UserDashboard.Dashboard.PressRegister | src/Pages/Users/UserDashboard.jsx:211 | the form opens only when the event is not already registered |
| UserDashboard.Dashboard.FinishRegister | src/Pages/Users/UserDashboard.jsx:74-80 | on success the modal and form are closed and the event is marked PENDING; on failure nothing changes |
| AdminRegistrations.ApiSegment | src/Pages/Admin/AdminRegistrations.jsx:31 | `apiMap`: "approve" exactly for APPROVE and "reject" exactly for REJECT |
| AdminRegistrations.NewStatus | src/Pages/Admin/AdminRegistrations.jsx:32 | `statusMap`: an upper-case word that reads Approved for APPROVE and Rejected for REJECT |
| AdminRegistrations.Endpoint | src/Pages/Admin/AdminRegistrations.jsx:40 | the PUT URL starts with BASE_URL + "/registrations/", then the action's own `apiMap` segment ("approve" or "reject") followed by "/", and ends with "/" and the registration id |
| AdminRegistrations.ActionMapsAgree | src/Pages/Admin/AdminRegistrations.jsx:31-32 | APPROVE writes a status that reads Approved and REJECT one that reads Rejected; the two actions never share an endpoint |
| AdminRegistrations.SetStatus | src/Pages/Admin/AdminRegistrations.jsx:45-47 | same length and order; every row whose `_id` matches gets the new status and keeps every other field; every other row is unchanged |
| AdminRegistrations.SetStatusIdempotent | src/Pages/Admin/AdminRegistrations.jsx:45-47 | applying the same update twice is the same as applying it once |
| AdminRegistrations.DesktopEnabled | src/Pages/Admin/AdminRegistrations.jsx:119 | `disabled={isLoading \|\| !isPending}` (also line 126): an enabled row is pending and not the row in flight; with nothing in flight exactly the pending rows are enabled |
| AdminRegistrations.MobileEnabled | src/Pages/Admin/AdminRegistrations.jsx:164 | `disabled={loadingId \|\| !isPending}` (also line 171): an enabled card is pending and no request with a non-empty id is in flight; with nothing in flight exactly the pending cards are enabled |
| AdminRegistrations.MobileStricterThanDesktop | src/Pages/Admin/AdminRegistrations.jsx:164 | for non-empty ids, a button enabled on a mobile card is enabled in the desktop table (line 119) too |
| AdminRegistrations.InFlightGating | src/Pages/Admin/AdminRegistrations.jsx:95-96 | while one request is in flight, the other pending rows stay enabled in the desktop table (line 119) but are disabled on mobile cards (line 164) |
| AdminRegistrations.UpdatedRowsLocked | src/Pages/Admin/AdminRegistrations.jsx:45-47 | after a successful update, the updated rows are no longer pending (line 95), so their buttons are disabled on both layouts (lines 119 and 164) |
| AdminRegistrations.StatusBadge | src/Pages/Admin/AdminRegistrations.jsx:56-62 | yellow, green or red exactly for pending, approved or rejected in any case; grey for anything else |
| AdminRegistrations.BadgeIgnoresCase | src/Pages/Admin/AdminRegistrations.jsx:57 | statuses that differ only in ASCII case get the same badge |
| AdminRegistrations.StatusText | src/Pages/Admin/AdminRegistrations.jsx:112 | a missing or empty status is shown as "UNKNOWN", any other as itself |
| AdminRegistrations.Queue.constructor | src/Pages/Admin/AdminRegistrations.jsx:5-6 | an empty queue and no request in flight |
| AdminRegistrations.Queue.Fetched | src/Pages/Admin/AdminRegistrations.jsx:18-28 | the queue is replaced on success and kept on failure |
| AdminRegistrations.Queue.BeginUpdate | src/Pages/Admin/AdminRegistrations.jsx:34-36 | a declined confirmation sends nothing and changes nothing; otherwise `loadingId` becomes the row's id |
| AdminRegistrations.Queue.FinishUpdate | src/Pages/Admin/AdminRegistrations.jsx:45-53 | on success the rows are rewritten by `SetStatus`; `loadingId` is cleared either way |
| MyEvents.RegistrationExpired | src/Pages/Users/MyEvents.jsx:50 | `isExpired((reg.event \|\| {}).date)`: never expired without an event date, and expired only on a valid parsed date |
| MyEvents.MissingDateNeverExpires | src/Pages/Users/MyEvents.jsx:28-50 | a registration whose event or event date is missing is not expired |
| MyEvents.ExpiredExactlyAfterEventDay | src/Pages/Users/MyEvents.jsx:27-33 | a registration is expired exactly when today is later than its event's day |
| MyEvents.HeaderLabel | src/Pages/Users/MyEvents.jsx:48-62 | the upper-cased status, replaced by "EXPIRED" exactly when it is APPROVED and the event is expired |
| MyEvents.HeaderTone | src/Pages/Users/MyEvents.jsx:56-61 | grey iff approved and expired; green iff approved and not expired; red iff rejected; yellow iff pending, unknown or missing |
| MyEvents.UnknownStatusColouredDifferently | src/Pages/Users/MyEvents.jsx:56-61 | a status that is none of the three is red on the profile page but yellow here |
| MyEvents.StatusPanel | src/Pages/Users/MyEvents.jsx:70-105 | the confirmation panel iff approved and not expired; the expired panel iff approved and expired; "declined by admin" iff rejected; "Waiting for approval..." for everything else |
| MyEvents.TicketOffer | src/Pages/Users/MyEvents.jsx:82-95 | "View Digital Ticket" iff approved and not expired; the "no longer valid" notice iff approved and expired |
| MyEvents.ViewableTicketIsGreen | src/Pages/Users/MyEvents.jsx:56-95 | a card that offers its ticket has a green header reading "APPROVED" |
| MyEvents.CardTitle | src/Pages/Users/MyEvents.jsx:67 | the event's title when truthy, otherwise "Untitled Event" |
| MyEvents.RegId | src/Pages/Users/MyEvents.jsx:150 | the last 8 characters of the registration id (fewer for a shorter id), upper-cased |
| MyEvents.Attendee | src/Pages/Users/MyEvents.jsx:129 | the registration's name when truthy, otherwise "Guest"; never empty |
| MyEvents.MyEventsPage.constructor | src/Pages/Users/MyEvents.jsx:5-7 | no registrations, loading, no ticket selected |
| MyEvents.MyEventsPage.Fetched | src/Pages/Users/MyEvents.jsx:11-21 | the rows on success, the list kept on failure; loading ends either way |
| MyEvents.MyEventsPage.ViewTicket | src/Pages/Users/MyEvents.jsx:89-90 | the ticket can be selected only from an approved, unexpired card |
| MyEvents.MyEventsPage.CloseTicket | src/Pages/Users/MyEvents.jsx:119 | the modal is closed; nothing else changes |
| RegisteredEvents.ResolveImage | src/Pages/Users/RegisteredEvents.jsx:28-36 | "/placeholder.png" without an event; an `imageUrl` starting with "http" wins; otherwise a non-empty `image` gives a URL that starts with BASE_URL + "/" and ends with the image; otherwise "/placeholder.png"; never empty |
| RegisteredEvents.ImagePathJoin | src/Pages/Users/RegisteredEvents.jsx:32-33 | a leading "/" is inserted exactly when the image lacks one |
| RegisteredEvents.CardEvent | src/Pages/Users/RegisteredEvents.jsx:72-86 | the title falls back to "Untitled Event", the image is the resolved one, and the other fields are those of `reg.event \|\| {}` |
| RegisteredEvents.CardShowsResolvedImage | src/Pages/Users/RegisteredEvents.jsx:81-89 | the card shows the resolved image, and its heading ignores the title set here |
| RegisteredEvents.Control | src/Pages/Users/RegisteredEvents.jsx:76-105 | a cancel button iff the status is pending in any case, disabled and reading "Cancelling..." exactly while its own id is being cancelled; "Status Locked" otherwise |
| RegisteredEvents.LowerCasePendingCancellableWithoutBadge | src/Pages/Users/RegisteredEvents.jsx:77-87 | a lower-case "pending" can be cancelled, yet its card gets no badge |
| RegisteredEvents.FetchedRegistrations | src/Pages/Users/RegisteredEvents.jsx:22 | a missing body yields the empty list |
| RegisteredEvents.RemoveRegistration | src/Pages/Users/RegisteredEvents.jsx:51 | exactly the registrations with that id are removed; the rest keep their multiplicity and order |
| RegisteredEvents.RemoveAbsentKeepsAll | src/Pages/Users/RegisteredEvents.jsx:51 | removing an id that no registration carries changes nothing |
| RegisteredEvents.RegisteredEventsPage.constructor | src/Pages/Users/RegisteredEvents.jsx:8-9 | no registrations and no cancellation in flight |
| RegisteredEvents.RegisteredEventsPage.Fetched | src/Pages/Users/RegisteredEvents.jsx:15-26 | `res.data \|\| []` on success; the list is kept on failure |
| RegisteredEvents.RegisteredEventsPage.BeginCancel | src/Pages/Users/RegisteredEvents.jsx:39-43 | a declined confirmation sends nothing and changes nothing; otherwise `cancelingId` becomes the id |
| RegisteredEvents.RegisteredEventsPage.FinishCancel | src/Pages/Users/RegisteredEvents.jsx:51-56 | on success the registration leaves the list; `cancelingId` is cleared either way |
| ManageEvents.DeleteEvents | src/Pages/Admin/ManageEvents.jsx:43 | exactly the events with that `_id` are removed; the others keep their multiplicity and order |
| ManageEvents.DeleteAbsentKeepsAll | src/Pages/Admin/ManageEvents.jsx:43 | deleting an id that no event carries changes nothing |
| ManageEvents.DateFieldValue | src/Pages/Admin/ManageEvents.jsx:180 | the stored date up to its first "T", and nothing for a missing date |
| ManageEvents.DateFieldStable | src/Pages/Admin/ManageEvents.jsx:180-181 | a date without a "T" (as the date input writes it) is shown unchanged; truncating twice is truncating once |
| ManageEvents.UpdatePayload | src/Pages/Admin/ManageEvents.jsx:52-56 | title, category and date in that order, each as text (a missing one as "undefined"); then "image" with the file, present exactly when a file was chosen |
| ManageEvents.InitialPreview | src/Pages/Admin/ManageEvents.jsx:142 | the event's image when truthy, otherwise null |
| ManageEvents.ManageEventsPage.constructor | src/Pages/Admin/ManageEvents.jsx:7-10 | no events, loading, no editor open and no preview |
| ManageEvents.ManageEventsPage.Fetched | src/Pages/Admin/ManageEvents.jsx:24-35 | the list is replaced on success and kept on failure; loading ends either way |
| ManageEvents.ManageEventsPage.Delete | src/Pages/Admin/ManageEvents.jsx:37-48 | a declined confirmation sends nothing; a successful request removes the events with that id; a failed one changes nothing |
| ManageEvents.ManageEventsPage.OpenEditor | src/Pages/Admin/ManageEvents.jsx:140-143 | the event becomes the draft with no file, and the preview is its image or null |
| ManageEvents.ManageEventsPage.EditTitle | src/Pages/Admin/ManageEvents.jsx:174-175 | only the draft's title changes |
| ManageEvents.ManageEventsPage.EditCategory | src/Pages/Admin/ManageEvents.jsx:177-178 | only the draft's category changes |
| ManageEvents.ManageEventsPage.EditDate | src/Pages/Admin/ManageEvents.jsx:180-181 | only the draft's date changes |
| ManageEvents.ManageEventsPage.ChooseImage | src/Pages/Admin/ManageEvents.jsx:189-192 | the draft records the file and the preview shows its object URL |
| ManageEvents.ManageEventsPage.CancelEdit | src/Pages/Admin/ManageEvents.jsx:199 | the editor closes and the preview is left as it was |
| ManageEvents.ManageEventsPage.FinishUpdate | src/Pages/Admin/ManageEvents.jsx:69-75 | a successful update closes the editor and clears the preview; a failed one changes nothing |
| AuthRedirect.Decide | src/components/auth/AuthRedirect.jsx:3-18 | the children are rendered exactly when no user is stored; a stored user is always redirected with `replace`, to "/admin/dashboard" iff the role is exactly "admin" and to "/user/dashboard" otherwise |
| AuthRedirect.RoleMatchIsExact | src/components/auth/AuthRedirect.jsx:10 | any role other than exactly "admin" (say "ADMIN", or none) goes to "/user/dashboard" |

## Left out

- HTTP requests, `localStorage`, toasts, `setTimeout`, `alert`, `window.print` and
  `URL.createObjectURL` are I/O. A request's outcome, a confirmation's answer,
  the fetched data and an object URL are inputs of the methods that need them.
- The real clock and JavaScript's date handling are left out: date-string
  parsing with its UTC versus local shift, `setHours` in local time,
  `toLocaleDateString` and daylight-saving days that are not 24 hours long.
  The model uses integer instants and the `parse` parameter instead.
- Unicode case mapping is left out. `toUpperCase`/`toLowerCase` are modelled
  on ASCII letters only.
- Records.StatusOf: a raw status that contains non-ASCII letters may be
  classified differently from the browser. For example, `"pendıng"` (with a
  dotless ı) upper-cases to "PENDING" in JavaScript, so the admin queue,
  the cancel control and "my events" treat it as pending. The model keeps it
  as `Unknown`.
- Common.LowerMatchIffUpperMatch holds under ASCII case mapping only. On the
  same input the profile page's `toLowerCase` gives `"pendıng"` (red), while
  the other pages see "PENDING".
- UserDashboard.Search: titles, locations and queries are free text, so
  the search and UserDashboard.SearchIgnoresQueryCase can disagree with the
  page on non-ASCII text: the title "CAFÉ" matches the query "é" in the browser but
  not in the model.
- JSON `null` in API fields is not modelled. A field is a string or missing
  (`undefined`), and `null` would behave differently wherever the page
  coerces or compares the value. The lines below name the places in the
  model, and the list is not claimed to be exhaustive:
- Expiry.LocalDay: `new Date(null)` is the epoch, so the page shows an event
  with a `null` date as expired, while the model's missing date never expires.
- Common.ToText: `String(null)` is "null", not "undefined", and this text
  would reach the FormData that ManageEvents.UpdatePayload builds.
- UserDashboard.RegistrationKey: a `null` `reg.event` puts its registration
  under the key "null", not "undefined".
- UserDashboard.EventKey: an event whose `_id` is `null` is written
  (UserDashboard.jsx:78) and read (lines 151 and 211-216) under the key
  "null", whereas the model's `EventKey(None)` is "undefined", the same key
  a registration without an event gets.
- ManageEvents.DeleteEvents: `e._id !== id` (ManageEvents.jsx:43) tells a
  `null` `_id` apart from a missing one, whereas the model reads both as
  `None`, so deleting one also removes the other.
- Profile.CalculateProgress: the page rounds the floating-point value
  `(filled / 6) * 100` with `Math.round`. The model computes `(100·k + 3) / 6`
  in exact integers instead, which gives the same value for every k in 0..6.
- The order in which concurrent requests complete is left out. This covers the
  events and registrations fetches of the dashboard, the refetch after an
  update, and a second handler started while one is in flight. Each handler
  runs from its own `Begin…` to its own `Finish…`.
- Handlers that read a stale closure are modelled as reading the current
  state. `handleDelete` filters the `events` of the render it was created in,
  and the model filters the current list, which is the same list when no
  other update happens between the two.
- EventCard.BadgeTone: the table is a plain object, so a status naming an
  inherited property (`"constructor"`, `"toString"`, …) would also show an
  unstyled badge. The model gives a badge only to the three table keys,
  because statuses come from the API's status vocabulary.
- Values of the wrong JSON type are left out: a non-string status, title or
  `imageUrl`, or a stored user that parses to `false`, `0` or `""`. A stored
  "user" entry that is not valid JSON, where `JSON.parse` throws, is left out
  too. Each field is a string or missing.
- ManageEvents.DateFieldValue: a missing date, where `split` throws while
  rendering, is the result `None`. The crash of the page is not modelled.
- ManageEvents.ManageEventsPage.ChooseImage: a file dialog closed without a
  file, where `createObjectURL(undefined)` throws, is left out. The method
  takes a chosen file.
- Component state that only feeds form inputs is left out: Profile's `form`
  (its `|| ""` initialisation and its fields) and the dashboard's `formData`.
  These only copy input fields into state and post them.
- The dashboard's `fetching` flag (UserDashboard.jsx:15) is left out. It is
  raised at the start of `fetchEvents` and cleared in its `finally`, and
  while it is set the event grid is replaced by three skeleton cards
  (line 139). The model's `Dashboard` has no such flag and no skeleton view.
- The dashboard's `loading` flag (UserDashboard.jsx:14) is left out. It is
  set while a registration request is in flight, and it disables the submit
  button and relabels it "Registering..." (lines 253-256). The model's
  `Dashboard.PressRegister` and `Dashboard.FinishRegister` do not track it,
  so a second submission during a request is not ruled out.
- MyEvents' loading screen is left out: while `loading` is set the page
  returns "Loading your events..." instead of the cards (MyEvents.jsx:35).
  `MyEvents.MyEventsPage` keeps the flag and clears it in `Fetched`, but
  the model has no view of the page that the flag could replace.
- Profile's fetch of the user's registrations (Profile.jsx:49-58) is left
  out. On success it stores `res.data` and on failure it logs, and the
  model's `ProfilePage` has no `registrations` field. Each card's logic is
  modelled by the per-registration functions (`StatusStyle`, `BadgeLabel`,
  `TicketButton`), and the "No registrations yet." empty state (line 250)
  is not.
- CSS class strings are reduced to the colour categories `Tone` and
  `ButtonStyle`. JSX layout is not modelled.
