/** The administrator's bookings screen: a searchable, status-filtered list, a
    details view with the status buttons the booking's state allows, and the
    payment verification and rejection that rewrite a booking record. */
module AdminBookings {
  import opened Common

  datatype AdminBooking = AdminBooking(
    id: int, eventName: string, eventType: string, eventDate: string, eventTime: string,
    venue: string, packageType: string, hours: int, price: real, status: BookingStatus,
    createdAt: string, clientName: string, clientEmail: string, clientPhone: string,
    layout: Option<string>, payment: PaymentInfo)

  // ---------------------------------------------------------------------
  // Search and filter

  /** The search box matches the client name, event name, event type or venue. */
  predicate MatchesSearch(b: AdminBooking, term: string) {
    MatchesTerm(b.clientName, term) || MatchesTerm(b.eventName, term) ||
    MatchesTerm(b.eventType, term) || MatchesTerm(b.venue, term)
  }

  predicate Kept(b: AdminBooking, term: string, filter: StatusFilter<BookingStatus>) {
    MatchesSearch(b, term) && MatchesStatus(filter, b.status)
  }

  function FilteredBookings(bookings: seq<AdminBooking>, term: string, filter: StatusFilter<BookingStatus>): seq<AdminBooking> {
    Filter(bookings, (b: AdminBooking) => Kept(b, term, filter))
  }

  /** The shown list keeps the order of the bookings, holds exactly the bookings
      that match the search and the status filter, and is everything when the
      search is empty and the filter is "All Status". */
  lemma FilteredBookingsSpec(bookings: seq<AdminBooking>, term: string, filter: StatusFilter<BookingStatus>)
    ensures IsSubsequence(FilteredBookings(bookings, term, filter), bookings)
    ensures forall i :: 0 <= i < |FilteredBookings(bookings, term, filter)| ==>
              var b := FilteredBookings(bookings, term, filter)[i];
              MatchesSearch(b, term) && (filter.Only? ==> b.status == filter.status)
    ensures forall i :: 0 <= i < |bookings| && Kept(bookings[i], term, filter) ==>
              bookings[i] in FilteredBookings(bookings, term, filter)
    ensures FilteredBookings(bookings, "", All) == bookings
  {
    FilterIsSubsequence(bookings, (b: AdminBooking) => Kept(b, term, filter));
    forall i | 0 <= i < |bookings|
      ensures Kept(bookings[i], "", All)
    {
      EmptyTermMatches(bookings[i].clientName);
    }
    FilterKeepsAll(bookings, (b: AdminBooking) => Kept(b, "", All));
  }

  // ---------------------------------------------------------------------
  // Record updates

  /** `handleStatusChange`: the map that rewrites the status of the booking with that id. */
  function StatusChanged(bookings: seq<AdminBooking>, id: int, status: BookingStatus): seq<AdminBooking> {
    UpdateWhere(bookings, (b: AdminBooking) => b.id == id, (b: AdminBooking) => b.(status := status))
  }

  /** Only the status of the bookings with that id changes; the length and every
      other booking are kept. */
  lemma StatusChangedFrame(bookings: seq<AdminBooking>, id: int, status: BookingStatus)
    ensures |StatusChanged(bookings, id, status)| == |bookings|
    ensures forall i :: 0 <= i < |bookings| ==>
              var r := StatusChanged(bookings, id, status)[i];
              if bookings[i].id == id then r == bookings[i].(status := status) && r.status == status
              else r == bookings[i]
  {
  }

  /** The rewrite of one booking by `handlePaymentVerification`; `notes == None` is
      a call without notes. */
  function Verification(b: AdminBooking, status: PaymentStatus, notes: Option<string>, today: string): AdminBooking {
    b.(payment := b.payment.(
                    paymentStatus := Some(status),
                    verifiedAt := if status == Verified then Some(today) else b.payment.verifiedAt,
                    notes := if notes.Some? && notes.value != "" then notes else b.payment.notes),
       status := if status == Verified then Confirmed else b.status)
  }

  /** The payment gets the new status; the verification date is set exactly on
      verification; notes replace the old ones only when non-empty; verifying
      confirms the booking whatever its status was, rejecting leaves it. Nothing
      else in the record changes. */
  lemma VerificationEffect(b: AdminBooking, status: PaymentStatus, notes: Option<string>, today: string)
    ensures Verification(b, status, notes, today).payment.paymentStatus == Some(status)
    ensures Verification(b, status, notes, today).payment.verifiedAt ==
              (if status == Verified then Some(today) else b.payment.verifiedAt)
    ensures (notes.Some? && notes.value != []) ==> Verification(b, status, notes, today).payment.notes == notes
    ensures (notes.None? || notes.value == []) ==> Verification(b, status, notes, today).payment.notes == b.payment.notes
    ensures status == Verified ==> Verification(b, status, notes, today).status == Confirmed
    ensures status != Verified ==> Verification(b, status, notes, today).status == b.status
    ensures Verification(b, status, notes, today).(status := b.status, payment := b.payment) == b
    ensures Verification(b, status, notes, today).payment.(paymentStatus := b.payment.paymentStatus,
              verifiedAt := b.payment.verifiedAt, notes := b.payment.notes) == b.payment
  {
  }

  function PaymentVerified(bookings: seq<AdminBooking>, id: int, status: PaymentStatus,
                           notes: Option<string>, today: string): seq<AdminBooking> {
    UpdateWhere(bookings, (b: AdminBooking) => b.id == id, (b: AdminBooking) => Verification(b, status, notes, today))
  }

  lemma PaymentVerifiedFrame(bookings: seq<AdminBooking>, id: int, status: PaymentStatus, notes: Option<string>, today: string)
    ensures |PaymentVerified(bookings, id, status, notes, today)| == |bookings|
    ensures forall i :: 0 <= i < |bookings| ==>
              PaymentVerified(bookings, id, status, notes, today)[i] ==
                if bookings[i].id == id then Verification(bookings[i], status, notes, today) else bookings[i]
  {
  }

  // ---------------------------------------------------------------------
  // Actions offered by the details view

  datatype StatusAction = ConfirmBooking | MarkCompleted | CancelBooking

  function Target(a: StatusAction): BookingStatus {
    match a
    case ConfirmBooking => Confirmed
    case MarkCompleted => Completed
    case CancelBooking => Cancelled
  }

  /** The status buttons rendered for a booking in a given state. */
  function OfferedActions(s: BookingStatus): set<StatusAction> {
    (if s == BookingPending then {ConfirmBooking} else {}) +
    (if s == Confirmed then {MarkCompleted} else {}) +
    (if s == BookingPending || s == Confirmed then {CancelBooking} else {})
  }

  /** A status transition the buttons can make. */
  predicate OfferedTransition(from: BookingStatus, to: BookingStatus) {
    exists a :: a in OfferedActions(from) && Target(a) == to
  }

  /** The buttons allow exactly pending to confirmed, confirmed to completed, and
      pending or confirmed to cancelled; completed and cancelled bookings offer none. */
  lemma OfferedTransitionsExactly(from: BookingStatus, to: BookingStatus)
    ensures OfferedTransition(from, to) <==>
              (from == BookingPending && to == Confirmed) ||
              (from == Confirmed && to == Completed) ||
              ((from == BookingPending || from == Confirmed) && to == Cancelled)
    ensures from == Completed || from == Cancelled ==> OfferedActions(from) == {}
  {
    if from == BookingPending && to == Confirmed {
      assert ConfirmBooking in OfferedActions(from);
    } else if from == Confirmed && to == Completed {
      assert MarkCompleted in OfferedActions(from);
    } else if (from == BookingPending || from == Confirmed) && to == Cancelled {
      assert CancelBooking in OfferedActions(from);
    }
  }

  /** Verify and Reject are rendered only inside the payment panel, which needs a
      non-empty payment type, and only while the payment is pending. */
  predicate PaymentActionsOffered(b: AdminBooking) {
    b.payment.paymentType.Some? && b.payment.paymentType.value != ""
    && b.payment.paymentStatus == Some(PaymentPending)
  }

  // ---------------------------------------------------------------------
  // Page state

  datatype ViewMode = List | View

  /** The bookings screen. The details view shows `selected`, the record captured
      when the view was opened; the handlers rewrite `bookings` and leave that
      captured record as it was. `showRejectDialog` and `rejectNotes` belong to
      the details view and start afresh each time it is opened. */
  class AdminBookingsPage {
    var bookings: seq<AdminBooking>
    var searchTerm: string
    var statusFilter: StatusFilter<BookingStatus>
    var viewMode: ViewMode
    var selected: Option<AdminBooking>
    var showRejectDialog: bool
    var rejectNotes: string

    ghost predicate Valid()
      reads this
    {
      (viewMode == View ==> selected.Some?) && (showRejectDialog ==> viewMode == View)
    }

    /** The list as shown. */
    function Shown(): seq<AdminBooking>
      reads this
    {
      FilteredBookings(bookings, searchTerm, statusFilter)
    }

    /** `initial` is the page's built-in mock data. */
    constructor (initial: seq<AdminBooking>)
      ensures Valid()
      ensures bookings == initial && searchTerm == "" && statusFilter == All
      ensures viewMode == List && selected == None && !showRejectDialog && rejectNotes == ""
      ensures Shown() == initial
    {
      bookings := initial;
      searchTerm := "";
      statusFilter := All;
      viewMode := List;
      selected := None;
      showRejectDialog := false;
      rejectNotes := "";
      FilteredBookingsSpec(initial, "", All);
    }

    method Search(term: string)
      requires Valid() && viewMode == List
      modifies this
      ensures Valid() && searchTerm == term
      ensures bookings == old(bookings) && statusFilter == old(statusFilter) && viewMode == List
      ensures selected == old(selected) && showRejectDialog == old(showRejectDialog) && rejectNotes == old(rejectNotes)
    {
      searchTerm := term;
    }

    method SelectFilter(filter: StatusFilter<BookingStatus>)
      requires Valid() && viewMode == List
      modifies this
      ensures Valid() && statusFilter == filter
      ensures bookings == old(bookings) && searchTerm == old(searchTerm) && viewMode == List
      ensures selected == old(selected) && showRejectDialog == old(showRejectDialog) && rejectNotes == old(rejectNotes)
    {
      statusFilter := filter;
    }

    /** The "View" button of a listed booking opens a fresh details view. */
    method ViewDetails(b: AdminBooking)
      requires Valid() && viewMode == List && b in Shown()
      modifies this
      ensures Valid() && viewMode == View && selected == Some(b)
      ensures !showRejectDialog && rejectNotes == ""
      ensures bookings == old(bookings) && searchTerm == old(searchTerm) && statusFilter == old(statusFilter)
    {
      selected := Some(b);
      viewMode := View;
      showRejectDialog := false;
      rejectNotes := "";
    }

    method Back()
      requires Valid() && viewMode == View && !showRejectDialog
      modifies this
      ensures Valid() && viewMode == List
      ensures bookings == old(bookings) && searchTerm == old(searchTerm) && statusFilter == old(statusFilter)
      ensures selected == old(selected) && showRejectDialog == old(showRejectDialog) && rejectNotes == old(rejectNotes)
    {
      viewMode := List;
    }

    /** A status button of the details view; `confirmed` answers the question that
        only "Cancel Booking" asks. */
    method ChangeStatus(a: StatusAction, confirmed: bool)
      requires Valid() && viewMode == View && !showRejectDialog
      requires a in OfferedActions(selected.value.status)
      modifies this
      ensures Valid()
      ensures bookings == if a == CancelBooking && !confirmed then old(bookings)
                          else StatusChanged(old(bookings), old(selected).value.id, Target(a))
      ensures OfferedTransition(old(selected).value.status, Target(a))
      ensures searchTerm == old(searchTerm) && statusFilter == old(statusFilter) && viewMode == View
      ensures selected == old(selected) && showRejectDialog == old(showRejectDialog) && rejectNotes == old(rejectNotes)
    {
      assert a in OfferedActions(selected.value.status);
      if a != CancelBooking || confirmed {
        bookings := StatusChanged(bookings, selected.value.id, Target(a));
      }
    }

    /** "Verify Payment"; `confirmed` is the answer to the question. */
    method VerifyPayment(confirmed: bool, today: string)
      requires Valid() && viewMode == View && !showRejectDialog && PaymentActionsOffered(selected.value)
      modifies this
      ensures Valid()
      ensures bookings == if confirmed then PaymentVerified(old(bookings), old(selected).value.id, Verified, None, today)
                          else old(bookings)
      ensures searchTerm == old(searchTerm) && statusFilter == old(statusFilter) && viewMode == View
      ensures selected == old(selected) && showRejectDialog == old(showRejectDialog) && rejectNotes == old(rejectNotes)
    {
      if confirmed {
        bookings := PaymentVerified(bookings, selected.value.id, Verified, None, today);
      }
    }

    method OpenRejectDialog()
      requires Valid() && viewMode == View && !showRejectDialog && PaymentActionsOffered(selected.value)
      modifies this
      ensures Valid() && showRejectDialog
      ensures bookings == old(bookings) && searchTerm == old(searchTerm) && statusFilter == old(statusFilter)
      ensures viewMode == View && selected == old(selected) && rejectNotes == old(rejectNotes)
    {
      showRejectDialog := true;
    }

    method TypeRejectNotes(text: string)
      requires Valid() && showRejectDialog
      modifies this
      ensures Valid() && showRejectDialog && rejectNotes == text
      ensures bookings == old(bookings) && searchTerm == old(searchTerm) && statusFilter == old(statusFilter)
      ensures viewMode == old(viewMode) && selected == old(selected)
    {
      rejectNotes := text;
    }

    /** The dialog's "Cancel" hides it and keeps the typed notes. */
    method CloseRejectDialog()
      requires Valid() && showRejectDialog
      modifies this
      ensures Valid() && !showRejectDialog
      ensures bookings == old(bookings) && searchTerm == old(searchTerm) && statusFilter == old(statusFilter)
      ensures viewMode == old(viewMode) && selected == old(selected) && rejectNotes == old(rejectNotes)
    {
      showRejectDialog := false;
    }

    /** "Reject Payment" in the dialog: only a note that is not blank after trimming
        rejects, with the note as typed; the dialog then closes and the note is cleared.
        A blank note changes nothing. */
    method SubmitReject(today: string)
      requires Valid() && showRejectDialog
      modifies this
      ensures Valid()
      ensures Trim(old(rejectNotes)) != [] ==>
                bookings == PaymentVerified(old(bookings), old(selected).value.id, Rejected, Some(old(rejectNotes)), today) &&
                !showRejectDialog && rejectNotes == ""
      ensures Trim(old(rejectNotes)) == [] ==>
                bookings == old(bookings) && showRejectDialog && rejectNotes == old(rejectNotes)
      ensures searchTerm == old(searchTerm) && statusFilter == old(statusFilter)
      ensures viewMode == old(viewMode) && selected == old(selected)
    {
      if Trim(rejectNotes) != "" {
        bookings := PaymentVerified(bookings, selected.value.id, Rejected, Some(rejectNotes), today);
        showRejectDialog := false;
        rejectNotes := "";
      }
    }
  }

  /** A rejection dispatched from the dialog always carries a note that is not
      blank, so it always replaces the booking's old note. */
  lemma RejectionReplacesNotes(b: AdminBooking, notes: string, today: string)
    requires Trim(notes) != []
    ensures Verification(b, Rejected, Some(notes), today).payment.notes == Some(notes)
    ensures Verification(b, Rejected, Some(notes), today).status == b.status
  {
    TrimNonEmptyIff(notes);
    assert notes != [];
  }
}
