# Photobooth rental front end, modelled in Dafny

The system is the web front end of a photobooth rental business. Customers
register and sign in. They book a photobooth through a two-step wizard: the
event details and package, then a down payment with a proof of payment. They
follow their bookings, payments and event photos.

Administrators sign in with a fixed account. They search and filter bookings
and payments, confirm, complete or cancel bookings, and verify or reject
payments. They manage the event photos, which are grouped by booking, browse
them in a gallery and upload new ones. An application shell picks the screen
from the session and remembers the signed-in account in browser storage. The
build configuration rewrites import specifiers that carry a trailing version.

The model keeps the logic of the event handlers and derived values. Each
screen's state becomes a class whose methods are the handlers. Derived lists
and figures become functions, and lemmas state what they mean. Money is `real`
(exact rationals); collections are sequences; browser storage is a map.

| file | module | models |
|---|---|---|
| common.dfy | Common | shared records, ASCII case folding, substring search, `trim`, `filter`/`map`/`reduce`, JavaScript `%`, initials, the new-password check |
| grouping.dfy | Grouping | the group-by-booking loop both photo screens use |
| booking_flow.dfy | BookingFlow | the booking wizard: rates, price, down payment, step validation, submission |
| user_bookings.dfy | UserBookings | the customer's bookings: create, cancel, edit form, rate display |
| admin_bookings.dfy | AdminBookings | the bookings screen: search, status buttons, payment verification |
| admin_payments.dfy | AdminPayments | the payments screen: search, statistics, verify and reject |
| user_payments.dfy | UserPayments | the customer's payments: totals, proof upload |
| event_photos.dfy | EventPhotos | the event photos screen: grouping, search, gallery, deletion, upload |
| user_photos.dfy | UserPhotos | the customer's photos: grouping, totals, gallery |
| users.dfy | Users | the users screen: search, booking history |
| session.dfy | Session | the shell: session restore, login, logout, screen selection |
| admin_login.dfy, user_login.dfy, user_register.dfy | AdminLogin, UserLogin, UserRegister | the three sign-in forms |
| account_page.dfy, user_account.dfy | AccountPage, UserAccount | the two account screens with their password forms |
| landing_page.dfy | LandingPage | the landing carousel |
| version_suffix.dfy | VersionSuffix | the import-specifier rewrite of the build configuration |

Three behaviours of the code worth knowing:

- Verifying a payment on the bookings screen confirms the booking whatever its
  status was, completed and cancelled included. It is not only a pending
  booking that gets confirmed (`AdminBookings.VerificationEffect`).
- The booking wizard does not reset its own state when it submits; the
  bookings page leaves the wizard instead (`BookingFlow.BookingWizard.Submit`).
- The bookings page keeps from the wizard's payment only the method, the
  proof, its file name and the upload date, and the payment type, amount paid
  and balance are dropped (`UserBookings.CreatedBooking`).

The model uses the following parameters:

- The answer to a `confirm()` question is a `bool`.
- Today's date is a `today` string.
- An object URL is a `url` string.
- A chosen file is a `File` value with its name and MIME type.
- A random or caller-made id is an `id` argument.
- Each screen's built-in sample data is a constructor argument, or a constant where the screen has other state beside it.
- A timer callback is a separate `Complete` step.
  - What the callback's closure captured is kept in a `pending` field.

## Model

| member | source | states |
|---|---|---|
| Common.OrElse | components/user/pages/UserAccountPage.tsx:11-15 | `field \|\| fallback`: the result is the fallback or the field's own value; a non-empty field is kept and a missing or empty one falls back; the result is empty only when both are |
| Common.CheckPassword | components/user/UserRegister.tsx:32-40 | mismatch exactly when the two passwords differ; too short exactly when they agree and are shorter than the minimum; acceptable otherwise, so the match is checked first |
| Common.TrimNonEmptyIff | components/pages/BookingsPage.tsx:357 | `text.trim()` is non-empty exactly when the text holds a character that is not white space |
| Common.EmptyTermMatches | components/pages/BookingsPage.tsx:146-149 | an empty search term matches every field |
| Common.FieldMatchesItself | components/pages/UsersPage.tsx:100-104 | a term taken from a field matches it, whatever the case of its letters |
| Common.FilterIsSubsequence | components/pages/BookingsPage.tsx:145-153 | a filtered list is an order-preserving subsequence holding exactly the elements that pass |
| Common.UpdateWhere | components/pages/BookingsPage.tsx:160-164 | the id-targeted `map`: same length, selected elements rewritten, every other element unchanged |
| Common.JsRem | components/LandingPage.tsx:78 | JavaScript's truncating `%`: the remainder differs from the dividend by a multiple of `n`, lies in `[0, n)` for a non-negative dividend and in `(-n, 0]` for a negative one |
| Common.NextPreviousInverse | components/pages/EventPhotosPage.tsx:339-345 | from an index in `[0, n)`, next is the index after it, wrapping from `n - 1` to 0, and previous the one before it, wrapping from 0 to `n - 1`; both stay in `[0, n)` and undo each other |
| Common.SplitSpaces | components/pages/UsersPage.tsx:143-144 | `split(' ')` gives one piece more than there are spaces, and no piece holds a space |
| Common.JoinSplitSpaces | components/pages/UsersPage.tsx:143-144 | joining the pieces of `split(' ')` with single spaces gives the name back |
| Common.SplitJoinSpaces | components/pages/UsersPage.tsx:143-144 | splitting a join of space-free pieces gives the pieces back |
| Common.InitialsAreWordStarts | components/pages/UsersPage.tsx:142-145 | the initials are exactly the first character of every non-empty space-separated word, in order; none is a space, each comes from the name, and there are no more of them than characters |
| Grouping.GroupByKey | components/pages/EventPhotosPage.tsx:113-129 | the reduce-into-dictionary loop yields one group per distinct key in ascending key order, each holding exactly that key's items in input order, non-empty, with the first item as cover |
| Grouping.InsertSorted | components/pages/EventPhotosPage.tsx:128 | a new integer key joins an object's key order so that it stays ascending |
| Grouping.VisitNewKey | components/pages/EventPhotosPage.tsx:115-125 | the first item of a key creates a group with that item as cover and as its only item, and the key joins the ascending key order |
| Grouping.VisitOldKey | components/pages/EventPhotosPage.tsx:124-125 | a later item of a key already seen is pushed onto the end of that key's group; nothing else changes |
| Grouping.VisitedAllIsGrouping | components/pages/EventPhotosPage.tsx:128 | once every item is visited, listing the groups in key order gives a correct grouping |
| Grouping.GroupSizesSum | components/pages/EventPhotosPage.tsx:156-157 | the group sizes of a grouping add up to the number of items |
| Grouping.GroupsAtMostItems | components/pages/EventPhotosPage.tsx:156-157 | there are never more groups than items |
| Grouping.HasKeyIffWithKey | components/pages/EventPhotosPage.tsx:114-125 | a key has a group exactly when some item carries it |
| Grouping.WithKeyOfFilter | components/pages/EventPhotosPage.tsx:139-150 | deleting and then grouping gives the same groups as grouping and then deleting from each group |
| BookingFlow.RateTable | components/user/pages/CreateBookingFlow.tsx:14-19 | the four-hour rates are 7499, 8999, 11999 and 14999 |
| BookingFlow.PriceIsRateTimesQuarterHours | components/user/pages/CreateBookingFlow.tsx:54 | four hours cost the package rate, every extra hour costs a quarter of it, and every price is a whole number of quarter pesos |
| BookingFlow.PriceOfFourHours | components/user/pages/CreateBookingFlow.tsx:54 | four hours cost exactly the package rate |
| BookingFlow.PriceTimesFour | components/user/pages/CreateBookingFlow.tsx:54 | four times the price is the rate times the hours, a whole number |
| BookingFlow.PriceStep | components/user/pages/CreateBookingFlow.tsx:54 | one more hour adds a quarter of the rate |
| BookingFlow.FindType | components/user/pages/CreateBookingFlow.tsx:55 | `find` by id: found exactly when some entry has the id, and then it is that entry |
| BookingFlow.PaymentTypeIds | components/user/pages/CreateBookingFlow.tsx:27-31 | only `partial`, `half` and `full` select a payment type, at 25, 50 and 100 percent |
| BookingFlow.AmountAndBalance | components/user/pages/CreateBookingFlow.tsx:55-57 | the amount to pay and the balance add up to the price; no type means 0 to pay; full leaves no balance; half splits the price evenly; the amount lies within a non-negative price |
| BookingFlow.StandardThreeHoursHalf | components/user/pages/CreateBookingFlow.tsx:34-57 | three hours of the Standard package cost 6749.25, half of which is due now |
| BookingFlow.Step1Requirements | components/user/pages/CreateBookingFlow.tsx:130-140 | step 1 is valid exactly when the event name, type, date, time and venue are filled in and the hours are not zero; the layout is optional; the initial form is not valid |
| BookingFlow.Submission | components/user/pages/CreateBookingFlow.tsx:107-128 | the booking carries the event details, the calculated price, status pending and today's date; the payment carries the same total, status pending, the down payment `AmountToPay` of the price for the chosen type, a balance that adds up with it to the total, and the chosen type, method and proof |
| BookingFlow.BookingWizard.constructor | components/user/pages/CreateBookingFlow.tsx:34-50 | the wizard starts on step 1 with the initial details and an empty payment |
| BookingFlow.BookingWizard.ChangeText | components/user/pages/CreateBookingFlow.tsx:59-61 | a text input rewrites its own field of the details and nothing else |
| BookingFlow.BookingWizard.SelectPackage | components/user/pages/CreateBookingFlow.tsx:282 | the package select rewrites the package only |
| BookingFlow.BookingWizard.ChangeHours | components/user/pages/CreateBookingFlow.tsx:300-303 | the hours input stores the parsed hours, or 4 for a non-number |
| BookingFlow.BookingWizard.ChangeLayout | components/user/pages/CreateBookingFlow.tsx:325 | the layout input stores the text upper-cased |
| BookingFlow.BookingWizard.ProceedToPayment | components/user/pages/CreateBookingFlow.tsx:103-105 | step 2 is reached only with valid details; the invariant keeps step 2 and valid details together |
| BookingFlow.BookingWizard.BackToDetails | components/user/pages/CreateBookingFlow.tsx:587 | back to step 1, the entered data kept |
| BookingFlow.BookingWizard.SelectPaymentType | components/user/pages/CreateBookingFlow.tsx:421 | a payment type card records its id and nothing else |
| BookingFlow.BookingWizard.SelectPaymentMethod | components/user/pages/CreateBookingFlow.tsx:453 | a payment method card records its id and nothing else |
| BookingFlow.BookingWizard.SelectFile | components/user/pages/CreateBookingFlow.tsx:63-72 | while no preview is shown, a chosen file becomes the proof with its preview; no file changes nothing |
| BookingFlow.BookingWizard.Drop | components/user/pages/CreateBookingFlow.tsx:79-93 | while no preview is shown, a dropped file becomes the proof only when its type starts with `image/` |
| BookingFlow.BookingWizard.RemoveFile | components/user/pages/CreateBookingFlow.tsx:95-101 | removing the proof clears both the file and the preview, which makes step 2 invalid |
| BookingFlow.BookingWizard.Submit | components/user/pages/CreateBookingFlow.tsx:107-128 | a submission is emitted exactly on step 2 with a valid payment, and it is the booking and payment above, with valid details and a proof |
| UserBookings.CreatedBooking | components/user/pages/UserBookingsPage.tsx:89-101 | the appended record has id `length + 1`, the wizard's details, price and status, and a pending payment with the wizard's method and proof |
| UserBookings.SeedIdsSequential | components/user/pages/UserBookingsPage.tsx:38-82 | the sample bookings are numbered 1, 2 |
| UserBookings.CreateKeepsIds | components/user/pages/UserBookingsPage.tsx:93 | the new id is not in use, and the list stays numbered 1..n |
| UserBookings.CancelEffect | components/user/pages/UserBookingsPage.tsx:116-122 | cancelling marks exactly the booking with that id cancelled; the length, the others and the numbering are kept; an unknown id changes nothing |
| UserBookings.ReplaceEffect | components/user/pages/UserBookingsPage.tsx:124-127 | an update replaces the booking with that id and nothing else, and keeps the numbering |
| UserBookings.CancelledBookingOffersNoChanges | components/user/pages/UserBookingsPage.tsx:239-255 | a cancelled booking offers neither Edit nor Cancel |
| UserBookings.RateShownIsBaseRate | components/user/pages/UserBookingsPage.tsx:490 | for a booking priced by the rate table, `price / (hours / 4)` is its package's rate |
| UserBookings.FormOf | components/user/pages/UserBookingsPage.tsx:530 | the edit form starts from the booking's details: its hours are filled in, and saving it unchanged gives back exactly those details |
| UserBookings.EditedBooking | components/user/pages/UserBookingsPage.tsx:553-562 | the saved booking takes the form's details and the recomputed price, and keeps id, status, creation date and payment |
| UserBookings.EditUnchangedOnlyReprices | components/user/pages/UserBookingsPage.tsx:553-562 | saving an unchanged form only reprices, and changes nothing for a booking priced by the table |
| UserBookings.EditBookingPage.constructor | components/user/pages/UserBookingsPage.tsx:529-530 | the form holds the booking's details |
| UserBookings.EditBookingPage.ChangeText | components/user/pages/UserBookingsPage.tsx:549 | a text input rewrites its own field |
| UserBookings.EditBookingPage.SelectPackage | components/user/pages/UserBookingsPage.tsx:549 | the package select rewrites the package |
| UserBookings.EditBookingPage.ChangeHours | components/user/pages/UserBookingsPage.tsx:667 | the hours input stores `parseInt` of the text, NaN included |
| UserBookings.EditBookingPage.ChangeLayout | components/user/pages/UserBookingsPage.tsx:689 | the layout input stores the text upper-cased |
| UserBookings.EditBookingPage.Submit | components/user/pages/UserBookingsPage.tsx:555-562 | the browser submits exactly a form with every required field and hours in 2..12, and the edited booking is handed on |
| UserBookings.UserBookingsPage.constructor | components/user/pages/UserBookingsPage.tsx:85-87 | the page starts on the list of sample bookings |
| UserBookings.UserBookingsPage.StartCreate | components/user/pages/UserBookingsPage.tsx:186 | "New Booking" opens the wizard |
| UserBookings.UserBookingsPage.CompleteCreate | components/user/pages/UserBookingsPage.tsx:89-102 | the created booking is appended, the list shown, and the numbering kept |
| UserBookings.UserBookingsPage.ViewBooking | components/user/pages/UserBookingsPage.tsx:106-109 | a listed booking opens in the details view |
| UserBookings.UserBookingsPage.EditBooking | components/user/pages/UserBookingsPage.tsx:111-114 | a pending listed booking opens in the edit form |
| UserBookings.UserBookingsPage.BackToList | components/user/pages/UserBookingsPage.tsx:135 | back to the list, the bookings kept |
| UserBookings.UserBookingsPage.CancelBooking | components/user/pages/UserBookingsPage.tsx:116-122 | a confirmed cancel marks the booking cancelled; a declined one changes nothing |
| UserBookings.UserBookingsPage.UpdateBooking | components/user/pages/UserBookingsPage.tsx:124-127 | the saved booking replaces the one with its id, and the list is shown |
| AdminBookings.FilteredBookingsSpec | components/pages/BookingsPage.tsx:145-153 | the shown bookings keep their order and are exactly those matching the search in client name, event name, event type or venue and the status filter; an empty search with "all" shows everything |
| AdminBookings.StatusChangedFrame | components/pages/BookingsPage.tsx:160-164 | only the status of the bookings with that id changes; the length and every other booking are kept |
| AdminBookings.VerificationEffect | components/pages/BookingsPage.tsx:166-178 | the payment takes the new status; the verification date is set exactly on verification; non-empty notes replace the old ones and empty or missing notes keep them; verification confirms the booking whatever its status was, and rejection leaves it; nothing else changes |
| AdminBookings.PaymentVerifiedFrame | components/pages/BookingsPage.tsx:166-178 | only the bookings with that id are rewritten |
| AdminBookings.OfferedTransitionsExactly | components/pages/BookingsPage.tsx:592-623 | the status buttons allow exactly pending to confirmed, confirmed to completed, and pending or confirmed to cancelled; completed and cancelled bookings offer none |
| AdminBookings.RejectionReplacesNotes | components/pages/BookingsPage.tsx:356-362 | a rejection from the dialog always replaces the old notes and leaves the booking status |
| AdminBookings.AdminBookingsPage.constructor | components/pages/BookingsPage.tsx:139-143 | the screen starts on the list with no search and "all", showing every booking |
| AdminBookings.AdminBookingsPage.Search | components/pages/BookingsPage.tsx:145-153 | the search box records the term only |
| AdminBookings.AdminBookingsPage.SelectFilter | components/pages/BookingsPage.tsx:145-153 | the status select records the filter only |
| AdminBookings.AdminBookingsPage.ViewDetails | components/pages/BookingsPage.tsx:155-158 | a shown booking opens in a fresh details view |
| AdminBookings.AdminBookingsPage.Back | components/pages/BookingsPage.tsx:383 | back to the list, everything else kept |
| AdminBookings.AdminBookingsPage.ChangeStatus | components/pages/BookingsPage.tsx:592-623 | an offered status button rewrites the status of that booking; cancelling asks first; the move is an offered transition |
| AdminBookings.AdminBookingsPage.VerifyPayment | components/pages/BookingsPage.tsx:350-354 | a confirmed verification of a pending payment verifies it and confirms the booking; a declined one changes nothing |
| AdminBookings.AdminBookingsPage.OpenRejectDialog | components/pages/BookingsPage.tsx:547-560 | "Reject" on a pending payment opens the dialog and nothing else |
| AdminBookings.AdminBookingsPage.TypeRejectNotes | components/pages/BookingsPage.tsx:678 | the notes field records the text |
| AdminBookings.AdminBookingsPage.CloseRejectDialog | components/pages/BookingsPage.tsx:684 | the dialog closes and keeps the typed notes |
| AdminBookings.AdminBookingsPage.SubmitReject | components/pages/BookingsPage.tsx:356-362 | a note that is not blank after trimming rejects with the note as typed, closes the dialog and clears the note; a blank note changes nothing |
| AdminPayments.FilteredPaymentsSpec | components/pages/PaymentsPage.tsx:93-100 | the shown payments keep their order and are exactly those matching the search in client name, event name or event type and the status filter; an empty search with "all" shows everything |
| AdminPayments.StatusCountsAddUp | components/pages/PaymentsPage.tsx:154-156 | the pending, verified and rejected counts add up to the number of payments |
| AdminPayments.StatsSpec | components/pages/PaymentsPage.tsx:152-157 | the total adds `amountPaid` over the shown payments whatever their status; the three counts add up to the number shown; no payments give zeros |
| AdminPayments.VerifiedInFrame | components/pages/PaymentsPage.tsx:107-117 | verification rewrites only the status and the verification date of that payment |
| AdminPayments.RejectedInFrame | components/pages/PaymentsPage.tsx:119-123 | rejection rewrites only the status and the notes of that payment, replacing the old notes outright |
| AdminPayments.DecidedPaymentsOfferNothing | components/pages/PaymentsPage.tsx:302 | a verified or rejected payment offers no further action |
| AdminPayments.AdminPaymentsPage.constructor | components/pages/PaymentsPage.tsx:87-91 | the screen starts on the table with no search and "all", showing every payment |
| AdminPayments.AdminPaymentsPage.Search | components/pages/PaymentsPage.tsx:93-100 | the search box records the term only |
| AdminPayments.AdminPaymentsPage.SelectFilter | components/pages/PaymentsPage.tsx:93-100 | the status select records the filter only |
| AdminPayments.AdminPaymentsPage.ViewDetails | components/pages/PaymentsPage.tsx:102-105 | a shown payment opens in a fresh details view |
| AdminPayments.AdminPaymentsPage.VerifyFromList | components/pages/PaymentsPage.tsx:107-117 | a confirmed verification from the table verifies the payment; a declined one changes nothing |
| AdminPayments.AdminPaymentsPage.Back | components/pages/PaymentsPage.tsx:379 | back to the table, everything else kept |
| AdminPayments.AdminPaymentsPage.VerifyFromDetails | components/pages/PaymentsPage.tsx:513-523 | the details view verifies after a confirmed question and returns to the table either way |
| AdminPayments.AdminPaymentsPage.OpenRejectDialog | components/pages/PaymentsPage.tsx:513-530 | "Reject" on a pending payment opens the dialog and nothing else |
| AdminPayments.AdminPaymentsPage.TypeRejectNotes | components/pages/PaymentsPage.tsx:579 | the reason field records the text |
| AdminPayments.AdminPaymentsPage.CloseRejectDialog | components/pages/PaymentsPage.tsx:585 | the dialog closes and keeps the typed reason |
| AdminPayments.AdminPaymentsPage.SubmitReject | components/pages/PaymentsPage.tsx:347-358 | a reason that is not blank after trimming rejects the payment, closes the dialog and returns to the table; a blank reason changes nothing |
| UserPayments.PendingPaymentsSpec | components/user/pages/UserPaymentsPage.tsx:79 | the payments awaiting proof keep their order and are exactly the pending payments without a proof |
| UserPayments.TotalsPartitionAmounts | components/user/pages/UserPaymentsPage.tsx:80-81 | the verified, pending and rejected amounts add up to all amounts |
| UserPayments.WithProofFrame | components/user/pages/UserPaymentsPage.tsx:241-253 | an upload sets the proof, its file name and the upload date of that payment and changes nothing else, its status included |
| UserPayments.UploadKeepsTotals | components/user/pages/UserPaymentsPage.tsx:241-253 | an upload leaves "Total Paid" and "Pending" as they were, and the payment no longer awaits proof |
| UserPayments.WithProofKeepsAmounts | components/user/pages/UserPaymentsPage.tsx:241-253 | an upload keeps the sum of amounts of every status |
| UserPayments.OfferedUploadSpec | components/user/pages/UserPaymentsPage.tsx:201-224 | "Upload" appears exactly for pending payments without proof, "Re-upload" exactly for pending payments with one, and neither otherwise |
| UserPayments.UploadProofModal.constructor | components/user/pages/UserPaymentsPage.tsx:276-277 | the modal starts with no file |
| UserPayments.UploadProofModal.SelectFile | components/user/pages/UserPaymentsPage.tsx:280-286 | while no preview is shown, a chosen file is selected with its preview; no file changes nothing |
| UserPayments.UploadProofModal.Drop | components/user/pages/UserPaymentsPage.tsx:293-304 | while no preview is shown, a dropped file is selected only when its type starts with `image/` |
| UserPayments.UploadProofModal.RemoveFile | components/user/pages/UserPaymentsPage.tsx:368 | removing clears the file and the preview |
| UserPayments.UploadProofModal.Submit | components/user/pages/UserPaymentsPage.tsx:306-311 | the file is handed on exactly when one is selected |
| UserPayments.UserPaymentsPage.constructor | components/user/pages/UserPaymentsPage.tsx:43-46 | the page starts with the sample payments and no modal |
| UserPayments.UserPaymentsPage.OpenUpload | components/user/pages/UserPaymentsPage.tsx:201-224 | an offered upload button opens the modal for that payment |
| UserPayments.UserPaymentsPage.ViewProof | components/user/pages/UserPaymentsPage.tsx:48-51 | "View" on a payment with a proof opens the proof modal |
| UserPayments.UserPaymentsPage.CloseUpload | components/user/pages/UserPaymentsPage.tsx:240 | the upload modal closes, everything else kept |
| UserPayments.UserPaymentsPage.CloseView | components/user/pages/UserPaymentsPage.tsx:261 | the proof modal closes, everything else kept |
| UserPayments.UserPaymentsPage.Upload | components/user/pages/UserPaymentsPage.tsx:241-253 | the file becomes the selected payment's proof, the totals are kept and the modal closes |
| EventPhotos.GroupPhotosByEvent | components/pages/EventPhotosPage.tsx:113-131 | one event per booking with photos, in ascending booking order, each holding exactly that booking's photos in order, non-empty, with the first photo as cover and source of its names; the sizes add up to the number of photos |
| EventPhotos.EventsOfGrouping | components/pages/EventPhotosPage.tsx:119-128 | the events built from a correct grouping, one per group with its names from the cover, form a correct event grouping |
| EventPhotos.EventSizesOfGroups | components/pages/EventPhotosPage.tsx:156 | the events hold as many photos as the groups they are built from |
| EventPhotos.FilteredEventsSpec | components/pages/EventPhotosPage.tsx:133-137 | the shown events keep their order and are exactly those whose event or client name matches; an empty search shows every event |
| EventPhotos.DeletePhotoSpec | components/pages/EventPhotosPage.tsx:139-143 | deleting removes exactly the photos with that id and keeps the rest in order; each event loses exactly that photo |
| EventPhotos.DeletePhotoFromEvent | components/pages/EventPhotosPage.tsx:139-143 | an event with no photo of that id keeps all its photos; an event all of whose photos have that id disappears |
| EventPhotos.PhotosOfBelong | components/pages/EventPhotosPage.tsx:114-125 | a booking's photos all carry its id |
| EventPhotos.DeleteEventRemovesIt | components/pages/EventPhotosPage.tsx:145-150 | deleting an event removes every photo of its booking, so the event is gone |
| EventPhotos.DeleteEventKeepsOthers | components/pages/EventPhotosPage.tsx:145-150 | deleting an event leaves every other event's photos as they were |
| EventPhotos.UploadIntoEmptyCollides | components/pages/EventPhotosPage.tsx:283 | as written: uploading two or more photos into an empty collection gives them all the id `-Infinity` |
| EventPhotos.MaxIdOrZero | components/pages/EventPhotosPage.tsx:283 | the largest id, at least every id and equal to one when there are photos, 0 for none |
| EventPhotos.MaxIdAgrees | components/pages/EventPhotosPage.tsx:283 | on a non-empty collection the corrected maximum is `Math.max` of the ids |
| EventPhotos.UploadIdsFresh | components/pages/EventPhotosPage.tsx:282-283 | uploaded ids are pairwise distinct and differ from every existing id, and agree with the code on a non-empty collection |
| EventPhotos.NewPhotos | components/pages/EventPhotosPage.tsx:282-295 | one photo per file, with a fresh id, the chosen booking and its names, the file's name, size and URL, and today's date |
| EventPhotos.UploadKeepsIdsDistinct | components/pages/EventPhotosPage.tsx:297 | appending the uploaded photos keeps the ids pairwise distinct |
| EventPhotos.IndexAfterDeleteSpec | components/pages/EventPhotosPage.tsx:347-356 | the gallery closes exactly for a one-photo event; the last index steps back by one; any other index stays; the result is a valid index |
| EventPhotos.RemovedAt | components/pages/EventPhotosPage.tsx:511-513 | removing at a valid index drops that file and shifts the rest; any other index changes nothing |
| EventPhotos.UploadModal.constructor | components/pages/EventPhotosPage.tsx:500-501 | no booking and no files at first |
| EventPhotos.UploadModal.SelectBooking | components/pages/EventPhotosPage.tsx:567-570 | the booking select records its option |
| EventPhotos.UploadModal.AddFiles | components/pages/EventPhotosPage.tsx:504-509 | the file picker appends every chosen file |
| EventPhotos.UploadModal.Drop | components/pages/EventPhotosPage.tsx:530-540 | a drop appends the dropped image files, in order |
| EventPhotos.UploadModal.RemoveFile | components/pages/EventPhotosPage.tsx:511-513 | removing drops the file at that index |
| EventPhotos.UploadModal.Submit | components/pages/EventPhotosPage.tsx:515-523 | the upload is handed on exactly with a booking chosen and at least one file |
| EventPhotos.EventPhotosPage.constructor | components/pages/EventPhotosPage.tsx:107-110 | the screen starts with the sample photos, no search, no gallery and no modal |
| EventPhotos.EventPhotosPage.Summary | components/pages/EventPhotosPage.tsx:131-137 | the events shown are the search over a correct grouping; "Total Photos" is the photo count and "Events" the number of groups, never more |
| EventPhotos.EventPhotosPage.Search | components/pages/EventPhotosPage.tsx:207 | the search box records the term only |
| EventPhotos.EventPhotosPage.OpenEvent | components/pages/EventPhotosPage.tsx:235 | an event card opens its gallery at the first photo |
| EventPhotos.EventPhotosPage.CloseGallery | components/pages/EventPhotosPage.tsx:267 | the gallery closes, everything else kept |
| EventPhotos.EventPhotosPage.GalleryNext | components/pages/EventPhotosPage.tsx:339-341 | the circular next index, still valid |
| EventPhotos.EventPhotosPage.GalleryPrevious | components/pages/EventPhotosPage.tsx:343-345 | the circular previous index, still valid |
| EventPhotos.EventPhotosPage.GalleryShow | components/pages/EventPhotosPage.tsx:441 | a thumbnail shows its photo |
| EventPhotos.EventPhotosPage.GalleryDelete | components/pages/EventPhotosPage.tsx:347-356 | after both questions the photo is deleted; on the gallery's answer the index is adjusted or the gallery closes |
| EventPhotos.EventPhotosPage.GalleryDeleteEvent | components/pages/EventPhotosPage.tsx:145-150 | after both questions every photo of the booking is deleted and the gallery closes; otherwise nothing changes |
| EventPhotos.EventPhotosPage.OpenUpload | components/pages/EventPhotosPage.tsx:152-154 | the upload modal opens, everything else kept |
| EventPhotos.EventPhotosPage.CloseUpload | components/pages/EventPhotosPage.tsx:276 | the upload modal closes, everything else kept |
| EventPhotos.EventPhotosPage.Upload | components/pages/EventPhotosPage.tsx:277-299 | the new photos are appended, distinct ids stay distinct, and the modal closes |
| UserPhotos.GroupPhotosByEvent | components/user/pages/UserPhotosPage.tsx:70-90 | one event per booking with photos, each holding exactly that booking's photos in order with the first as cover; the sizes add up to the number of photos |
| UserPhotos.EventsOfGrouping | components/user/pages/UserPhotosPage.tsx:72-85 | the events built from a correct grouping, one per group with its name and date from the cover, form a correct event grouping |
| UserPhotos.EventSizesOfGroups | components/user/pages/UserPhotosPage.tsx:92-94 | the events hold as many photos as the groups they are built from |
| UserPhotos.UserPhotosPage.constructor | components/user/pages/UserPhotosPage.tsx:66-67 | the collection is the sample photos, fixed for the page's lifetime, and no gallery is open |
| UserPhotos.UserPhotosPage.Summary | components/user/pages/UserPhotosPage.tsx:92-94 | the events are a correct grouping; "Total Photos" is the photo count and "Events" the number of groups, never more |
| UserPhotos.UserPhotosPage.OpenEvent | components/user/pages/UserPhotosPage.tsx:145 | an event card opens a fresh gallery at the first photo |
| UserPhotos.UserPhotosPage.CloseGallery | components/user/pages/UserPhotosPage.tsx:194 | the gallery closes |
| UserPhotos.UserPhotosPage.GalleryNext | components/user/pages/UserPhotosPage.tsx:226-228 | the circular next index, still valid |
| UserPhotos.UserPhotosPage.GalleryPrevious | components/user/pages/UserPhotosPage.tsx:230-232 | the circular previous index, still valid |
| UserPhotos.UserPhotosPage.GalleryShow | components/user/pages/UserPhotosPage.tsx:332 | a thumbnail shows its photo |
| Users.FilteredUsersSpec | components/pages/UsersPage.tsx:100-104 | the shown users keep their order and are exactly those whose name or email matches; an empty search shows everyone |
| Users.BookingsOfUserSpec | components/pages/UsersPage.tsx:200 | a user's history is exactly the bookings carrying their id, in order |
| Users.UsersPage.constructor | components/pages/UsersPage.tsx:96-98 | the list is the sample users, with no search and nobody selected |
| Users.UsersPage.Search | components/pages/UsersPage.tsx:126 | the search box records the term only |
| Users.UsersPage.ViewUser | components/pages/UsersPage.tsx:174 | a shown user is selected |
| Users.UsersPage.History | components/pages/UsersPage.tsx:200 | the history holds exactly the selected user's bookings, in their order in the booking list |
| Users.UsersPage.Back | components/pages/UsersPage.tsx:107 | back to the list, the search kept |
| Session.ScreenOf | App.tsx:59-91 | signed out, an authentication screen by view; signed in, the admin dashboard exactly for the admin role |
| Session.FollowIsSignedOutMove | App.tsx:59-84 | a link leads from one view to another exactly for landing to either login, admin login to user login, user login to registration, and registration to user login |
| Session.App.constructor | App.tsx:10-33 | a stored admin account wins over a stored customer account; either one signs in; with consistent storage the admin dashboard shows exactly for the admin key |
| Session.App.Navigate | App.tsx:59-84 | a link moves along a signed-out move and changes nothing else |
| Session.App.HandleLogin | App.tsx:35-45 | the account is signed in and stored under the admin key with the admin-login view for the admin role, or under the customer key with the user-login view; the admin dashboard shows exactly in the first case |
| Session.App.HandleLogout | App.tsx:47-56 | signed out to the landing view, removing the key the view names; consistent storage stays consistent |
| AdminLogin.LoginForm.constructor | components/Login.tsx:10-13 | empty fields and no error |
| AdminLogin.LoginForm.ChangeEmail | components/Login.tsx:73 | the email field records the text |
| AdminLogin.LoginForm.ChangePassword | components/Login.tsx:89 | the password field records the text |
| AdminLogin.LoginForm.Submit | components/Login.tsx:15-30 | a login happens exactly for `admin@photobooth.com` with `admin123`, as the admin account with id 1 and role admin, and clears the error; otherwise the error is "Invalid email or password" |
| UserLogin.LoginForm.constructor | components/user/UserLogin.tsx:10-13 | empty fields, no error, not loading |
| UserLogin.LoginForm.ChangeEmail | components/user/UserLogin.tsx:65 | the email field records the text |
| UserLogin.LoginForm.ChangePassword | components/user/UserLogin.tsx:77 | the password field records the text |
| UserLogin.LoginForm.Submit | components/user/UserLogin.tsx:15-18 | the error is cleared, loading starts, and the entered credentials are captured |
| UserLogin.LoginForm.Complete | components/user/UserLogin.tsx:21-34 | the captured credentials are checked; failure sets "Invalid email or password"; loading ends either way |
| UserLogin.SubmitAndWait | components/user/UserLogin.tsx:15-35 | a submit and its completion log in exactly with the right credentials, with the customer account and no error, and end with loading off |
| UserRegister.RegisterPage.constructor | components/user/UserRegister.tsx:10-18 | an empty form, no error, not loading |
| UserRegister.RegisterPage.Change | components/user/UserRegister.tsx:20-25 | the input named by the event takes the typed text; the other fields, the error and the loading state are kept |
| UserRegister.RegisterPage.Submit | components/user/UserRegister.tsx:27-42 | a mismatch reports "Passwords do not match" before the length is checked; a shorter password reports the 6-character error; loading starts exactly for an acceptable password, with the error cleared and the form captured |
| UserRegister.RegisterPage.Complete | components/user/UserRegister.tsx:44-54 | for an id drawn from 0 to 999, loading ends and the registered account is built from the captured form |
| AccountPage.AvatarLetters | components/pages/AccountPage.tsx:87-90 | the avatar shows the first character of every space-separated word of the name |
| AccountPage.ProfileForm.constructor | components/pages/AccountPage.tsx:61-68 | the form starts from the initial profile, not saving |
| AccountPage.ProfileForm.Edit | components/pages/AccountPage.tsx:113-143 | typing into the name, email or phone input rewrites that field only; the role is kept |
| AccountPage.ProfileForm.Submit | components/pages/AccountPage.tsx:70-72 | saving starts and the profile is kept |
| AccountPage.ProfileForm.Complete | components/pages/AccountPage.tsx:75-78 | saving ends and the profile is kept |
| AccountPage.PasswordForm.constructor | components/pages/AccountPage.tsx:199-212 | empty fields, no error, not saving |
| AccountPage.PasswordForm.Edit | components/pages/AccountPage.tsx:266-312 | typing into one of the three inputs rewrites that field only; saving state and error are kept |
| AccountPage.PasswordForm.Submit | components/pages/AccountPage.tsx:214-229 | a mismatch reports "New passwords do not match" before the length is checked; a shorter password reports the 8-character error; saving starts exactly for an acceptable password, with the error cleared |
| AccountPage.PasswordForm.Complete | components/pages/AccountPage.tsx:231-239 | saving ends and all three fields are emptied |
| UserAccount.UserAccountPage.constructor | components/user/pages/UserAccountPage.tsx:9-15 | the form holds the account's details, not editing, no modal |
| UserAccount.UserAccountPage.StartEditing | components/user/pages/UserAccountPage.tsx:100 | "Edit Profile" enters edit mode and keeps the form |
| UserAccount.UserAccountPage.Edit | components/user/pages/UserAccountPage.tsx:62-91 | typing into the name, email or phone input, enabled only in edit mode, rewrites that field only |
| UserAccount.UserAccountPage.Save | components/user/pages/UserAccountPage.tsx:17-21 | saving leaves edit mode and keeps the entered values |
| UserAccount.UserAccountPage.Cancel | components/user/pages/UserAccountPage.tsx:23-30 | cancelling restores the account's values, or empty ones, and leaves edit mode |
| UserAccount.UserAccountPage.OpenPasswordModal | components/user/pages/UserAccountPage.tsx:140 | the password modal opens |
| UserAccount.UserAccountPage.ClosePasswordModal | components/user/pages/UserAccountPage.tsx:171 | the password modal closes |
| UserAccount.ChangePasswordModal.constructor | components/user/pages/UserAccountPage.tsx:183-189 | empty fields, no error, no success |
| UserAccount.ChangePasswordModal.Edit | components/user/pages/UserAccountPage.tsx:245-270 | typing into one of the three inputs rewrites that field only; error and success are kept |
| UserAccount.ChangePasswordModal.Submit | components/user/pages/UserAccountPage.tsx:191-212 | a mismatch reports "New passwords do not match" before the length is checked; a shorter password reports the 6-character error; success, and the timer that closes the modal, come exactly with an acceptable password |
| LandingPage.Carousel.constructor | components/LandingPage.tsx:71-72 | the first slide, autoplay on |
| LandingPage.Carousel.Tick | components/LandingPage.tsx:74-82 | while autoplay is on, a tick moves to the next slide, modulo the five slides |
| LandingPage.Carousel.ShowPrevious | components/LandingPage.tsx:84-87 | the previous slide, modulo five; autoplay off |
| LandingPage.Carousel.ShowNext | components/LandingPage.tsx:89-92 | the next slide, modulo five; autoplay off |
| LandingPage.Carousel.ShowSlide | components/LandingPage.tsx:161-164 | an indicator shows its slide; autoplay off |
| LandingPage.NextThenPrevious | components/LandingPage.tsx:84-92 | next then previous returns to the slide it left |
| VersionSuffix.DigitsLen | vite.config.ts:11 | the length of the leading digit run |
| VersionSuffix.LastIndexOf | vite.config.ts:11 | the last position of a character, or none |
| VersionSuffix.StripVersionSuffix | vite.config.ts:17-20 | a stripped specifier is strictly shorter than the source |
| VersionSuffix.DigitsLenOf | vite.config.ts:11 | a digit run followed by a non-digit has the run's length |
| VersionSuffix.ParseVersionSound | vite.config.ts:11 | a parsed version is well formed and renders back to the text it came from |
| VersionSuffix.ParseVersionComplete | vite.config.ts:11 | every well-formed version parses from its rendering |
| VersionSuffix.RenderHasNoAt | vite.config.ts:11 | a version's rendering holds no `@`, so the split is at the last `@` |
| VersionSuffix.StripVersionSuffixSound | vite.config.ts:11-20 | a result is the text before the last `@`, on one line, with a well-formed version after it |
| VersionSuffix.StripVersionSuffixComplete | vite.config.ts:11-20 | every source of the form prefix `@` version, with a prefix free of line terminators, strips to its prefix |
| VersionSuffix.StripVersionSuffixSpec | vite.config.ts:11-21 | the specifier is rewritten exactly when it is a one-line prefix, `@`, three dot-separated digit runs and an optional `-` pre-release, and the result is that unique prefix; otherwise it is left alone |
| VersionSuffix.ScopedNameKeepsScope | vite.config.ts:11-20 | `@scope/pkg@1.2.3` strips to `@scope/pkg` |
| VersionSuffix.UnversionedLeftAlone | vite.config.ts:11-18 | `pkg` and `pkg@1.2` are left alone |

Some functions only name a value that the rows above use, and their contracts
only spell that value out, so they have no row of their own:

- `BookingFlow.HoursFromInput` is the hours input's stored value (components/user/pages/CreateBookingFlow.tsx:300-303), used by `BookingFlow.BookingWizard.ChangeHours`.
- `EventPhotos.EventOf` and `UserPhotos.EventOf` build an event from a group (components/pages/EventPhotosPage.tsx:119-125, components/user/pages/UserPhotosPage.tsx:72-80). What they mean is stated by `EventPhotos.EventsOfGrouping` and `UserPhotos.EventsOfGrouping`.
- `UserLogin.CheckCredentials` is the one test account (components/user/UserLogin.tsx:22-32), used by the login form's rows.
- `UserRegister.RegisteredUser` is the account a registration creates (components/user/UserRegister.tsx:45-54), used by the registration form's rows.
- `AccountPage.InitialProfile` and `UserAccount.ContactOf` are the two account forms' first values (components/pages/AccountPage.tsx:60-66, components/user/pages/UserAccountPage.tsx:11-15). Each field is the account's value or a fallback, as `Common.OrElse` states.

## Left out

- Markup, styling, icons and the colour helpers for statuses are left out, because they are presentation only.
- `alert`, `console.log` and the photo download are left out, because they are output only.
  - The download covers "Download" and "Download All" and their staggered timers.
- Timer delays are not modelled as time. Each timer callback is a separate `Complete` step (login, registration, profile and password saving).
  - The change-password modal's close timer is only reported, as `Submit`'s result.
- `window.confirm`, the current date, `URL.createObjectURL`, file sizes and their "MB" formatting are parameters.
- `Math.random` ids and the registered account's id are parameters.
- Browser storage is modelled as a map from key to account. JSON serialisation and parsing are left out, and so is a stored value that does not parse.
- Each screen's sample data is a constructor argument, or a constant for the customer's bookings and payments and for the users screen's booking history. It is not transcribed field by field where the screen only reads it.
- Seed prices that do not follow the rate formula are kept as data. The rate display is proved only for prices that follow it (`UserBookings.RateShownIsBaseRate`).
- Case folding is modelled for ASCII letters only. `toLowerCase` and `toUpperCase` on other characters are not modelled.
- Dafny characters stand for JavaScript's UTF-16 code units; surrogate pairs are not modelled.
- In the booking wizard and the edit form the package is one of the four packages, because the select offers no other. The price of an unknown package name (NaN) is therefore not modelled.
- The browser's own validation (`required`, `type="email"`) is not modelled on the login, registration and password forms, whose handlers do not depend on it. It is modelled on the edit form, where it decides whether the handler runs.
- Keyboard, backdrop and drag-over listeners that only prevent a default or close a modal are left out. Closing is modelled by the close methods.
- `UserPayments.UserPaymentsPage.ViewProof`, `AdminBookings.AdminBookingsPage.ViewDetails` and `AdminPayments.AdminPaymentsPage.ViewDetails` show the record captured when the view opened. Later rewrites of the list do not refresh that captured record. The model keeps the snapshot exactly as the code does.
- `this.resolve` of the rewritten specifier is left out, because it calls into the bundler. `VersionSuffix.StripVersionSuffix` returns the specifier that would be resolved.
- components/pages/ReportsPage.tsx, components/pages/DashboardHome.tsx, components/AdminDashboard.tsx, components/user/UserDashboard.tsx, components/Sidebar.tsx, components/Header.tsx and components/user/UserNavbar.tsx are not part of this model. They render fixed figures or switch between the modelled screens.
- `UserBookings.EditBookingPage.Submit` models the browser's validation of the `required`, `min` and `max` attributes as a single predicate. It does not model the order in which the browser reports them.
- EventPhotos.NewPhotos: ids come from the corrected formula of the Findings row (`EventPhotos.UploadIdsFresh`), not the `-Infinity` id that the code gives to an upload into an empty collection (`EventPhotos.UploadIntoEmptyCollides`).
- EventPhotos.UploadKeepsIdsDistinct: holds for the corrected ids only. With the code's ids, two uploads into an empty collection collide.
- EventPhotos.EventPhotosPage.Upload: uses `EventPhotos.NewPhotos`, so it keeps ids distinct only with the corrected ids.
- BookingFlow.BookingWizard.ChangeLayout and UserBookings.EditBookingPage.ChangeLayout store the whole upper-cased text. The input's `maxLength={1}` is enforced by the browser and is not modelled.
- Money is exact `real` arithmetic, not JavaScript doubles. The prices, rates and percentages involved are small enough that doubles would give the same results, but the model does not state this.

## Findings

| source | as written | input that shows it | evidently intended | confidence | as-written member | corrected member |
|---|---|---|---|---|---|---|
| components/pages/EventPhotosPage.tsx:283 | uploaded photos get `Math.max(...photos.map(p => p.id)) + index + 1` | delete every photo, then upload two files: `Math.max()` of no ids is `-Infinity`, so both new photos get the id `-Infinity` | fresh, distinct ids also when the collection is empty, such as counting from 0 | not executed | EventPhotos.UploadIntoEmptyCollides | EventPhotos.UploadIdsFresh |
