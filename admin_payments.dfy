/** The administrator's payments screen: a searchable, status-filtered table of
    payment records with statistics over what is shown, verification from the
    table or the details view, and rejection with a note from the details view. */
module AdminPayments {
  import opened Common

  datatype Payment = Payment(
    id: int, bookingId: int, eventName: string, clientName: string, eventType: string,
    eventDate: string, packageType: string, totalAmount: real, paymentType: string,
    paymentMethod: string, amountPaid: real, remainingBalance: real, status: PaymentStatus,
    proofUrl: Option<string>, proofFileName: Option<string>, uploadedAt: string,
    verifiedAt: Option<string>, notes: Option<string>)

  // ---------------------------------------------------------------------
  // Search and filter

  /** The search box matches the client name, event name or event type. */
  predicate MatchesSearch(p: Payment, term: string) {
    MatchesTerm(p.clientName, term) || MatchesTerm(p.eventName, term) || MatchesTerm(p.eventType, term)
  }

  predicate Kept(p: Payment, term: string, filter: StatusFilter<PaymentStatus>) {
    MatchesSearch(p, term) && MatchesStatus(filter, p.status)
  }

  function FilteredPayments(payments: seq<Payment>, term: string, filter: StatusFilter<PaymentStatus>): seq<Payment> {
    Filter(payments, (p: Payment) => Kept(p, term, filter))
  }

  /** The table keeps the order of the payments and holds exactly those that match
      the search and the status filter; an empty search with "All Status" shows all. */
  lemma FilteredPaymentsSpec(payments: seq<Payment>, term: string, filter: StatusFilter<PaymentStatus>)
    ensures IsSubsequence(FilteredPayments(payments, term, filter), payments)
    ensures forall i :: 0 <= i < |FilteredPayments(payments, term, filter)| ==>
              var p := FilteredPayments(payments, term, filter)[i];
              MatchesSearch(p, term) && (filter.Only? ==> p.status == filter.status)
    ensures forall i :: 0 <= i < |payments| && Kept(payments[i], term, filter) ==>
              payments[i] in FilteredPayments(payments, term, filter)
    ensures FilteredPayments(payments, "", All) == payments
  {
    FilterIsSubsequence(payments, (p: Payment) => Kept(p, term, filter));
    forall i | 0 <= i < |payments|
      ensures Kept(payments[i], "", All)
    {
      EmptyTermMatches(payments[i].clientName);
    }
    FilterKeepsAll(payments, (p: Payment) => Kept(p, "", All));
  }

  // ---------------------------------------------------------------------
  // Statistics

  function CountStatus(payments: seq<Payment>, s: PaymentStatus): nat {
    |Filter(payments, (p: Payment) => p.status == s)|
  }

  datatype Stats = Stats(total: real, pending: nat, verified: nat, rejected: nat)

  /** The four cards above the table, computed over the shown payments. */
  function StatsOf(shown: seq<Payment>): Stats {
    Stats(Sum(shown, (p: Payment) => p.amountPaid),
          CountStatus(shown, PaymentPending), CountStatus(shown, Verified), CountStatus(shown, Rejected))
  }

  /** Every payment has exactly one of the three statuses, so the counts add up to
      the number of payments. */
  lemma {:induction false} StatusCountsAddUp(payments: seq<Payment>)
    ensures CountStatus(payments, PaymentPending) + CountStatus(payments, Verified) +
            CountStatus(payments, Rejected) == |payments|
  {
    if payments != [] {
      StatusCountsAddUp(payments[1..]);
      var hd := payments[0];
      assert Filter(payments, (p: Payment) => p.status == PaymentPending) ==
             (if hd.status == PaymentPending then [hd] else []) + Filter(payments[1..], (p: Payment) => p.status == PaymentPending);
      assert Filter(payments, (p: Payment) => p.status == Verified) ==
             (if hd.status == Verified then [hd] else []) + Filter(payments[1..], (p: Payment) => p.status == Verified);
      assert Filter(payments, (p: Payment) => p.status == Rejected) ==
             (if hd.status == Rejected then [hd] else []) + Filter(payments[1..], (p: Payment) => p.status == Rejected);
    }
  }

  /** The statistics: the total adds `amountPaid` over the shown payments, whatever
      their status, and the three counts add up to the number shown. */
  lemma StatsSpec(shown: seq<Payment>)
    ensures StatsOf(shown).pending + StatsOf(shown).verified + StatsOf(shown).rejected == |shown|
    ensures StatsOf(shown).total == Sum(shown, (p: Payment) => p.amountPaid)
    ensures shown == [] ==> StatsOf(shown) == Stats(0.0, 0, 0, 0)
  {
    StatusCountsAddUp(shown);
  }

  // ---------------------------------------------------------------------
  // Record updates

  function VerifiedIn(payments: seq<Payment>, id: int, today: string): seq<Payment> {
    UpdateWhere(payments, (p: Payment) => p.id == id, (p: Payment) => p.(status := Verified, verifiedAt := Some(today)))
  }

  function RejectedIn(payments: seq<Payment>, id: int, notes: string): seq<Payment> {
    UpdateWhere(payments, (p: Payment) => p.id == id, (p: Payment) => p.(status := Rejected, notes := Some(notes)))
  }

  /** Verification rewrites only the status and the verification date of the
      payments with that id; the others and the length are kept. */
  lemma VerifiedInFrame(payments: seq<Payment>, id: int, today: string)
    ensures |VerifiedIn(payments, id, today)| == |payments|
    ensures forall i :: 0 <= i < |payments| ==>
              var r := VerifiedIn(payments, id, today)[i];
              if payments[i].id == id
              then r.status == Verified && r.verifiedAt == Some(today) &&
                   r.(status := payments[i].status, verifiedAt := payments[i].verifiedAt) == payments[i]
              else r == payments[i]
  {
  }

  /** Rejection rewrites only the status and the note of the payments with that id,
      and the new note replaces the old one whatever it was. */
  lemma RejectedInFrame(payments: seq<Payment>, id: int, notes: string)
    ensures |RejectedIn(payments, id, notes)| == |payments|
    ensures forall i :: 0 <= i < |payments| ==>
              var r := RejectedIn(payments, id, notes)[i];
              if payments[i].id == id
              then r.status == Rejected && r.notes == Some(notes) &&
                   r.(status := payments[i].status, notes := payments[i].notes) == payments[i]
              else r == payments[i]
  {
  }

  /** Verify and reject are offered, in the table and in the details view, only for
      pending payments. */
  predicate ActionsOffered(p: Payment) {
    p.status == PaymentPending
  }

  /** Once verified or rejected, a payment offers no further action. */
  lemma DecidedPaymentsOfferNothing(payments: seq<Payment>, id: int, today: string, notes: string)
    ensures forall i :: 0 <= i < |payments| && payments[i].id == id ==>
              !ActionsOffered(VerifiedIn(payments, id, today)[i]) && !ActionsOffered(RejectedIn(payments, id, notes)[i])
  {
    VerifiedInFrame(payments, id, today);
    RejectedInFrame(payments, id, notes);
  }

  // ---------------------------------------------------------------------
  // Page state

  datatype ViewMode = List | Details

  /** The payments screen. The details view shows `selected`, the record captured
      when it was opened; its dialog state starts afresh each time it opens. */
  class AdminPaymentsPage {
    var payments: seq<Payment>
    var searchTerm: string
    var statusFilter: StatusFilter<PaymentStatus>
    var viewMode: ViewMode
    var selected: Option<Payment>
    var showRejectDialog: bool
    var rejectNotes: string

    ghost predicate Valid()
      reads this
    {
      (viewMode == Details ==> selected.Some?) && (showRejectDialog ==> viewMode == Details)
    }

    function Shown(): seq<Payment>
      reads this
    {
      FilteredPayments(payments, searchTerm, statusFilter)
    }

    function Statistics(): Stats
      reads this
    {
      StatsOf(Shown())
    }

    /** `initial` is the page's built-in mock data. */
    constructor (initial: seq<Payment>)
      ensures Valid()
      ensures payments == initial && searchTerm == "" && statusFilter == All
      ensures viewMode == List && selected == None && !showRejectDialog && rejectNotes == ""
      ensures Shown() == initial
    {
      payments := initial;
      searchTerm := "";
      statusFilter := All;
      viewMode := List;
      selected := None;
      showRejectDialog := false;
      rejectNotes := "";
      FilteredPaymentsSpec(initial, "", All);
    }

    method Search(term: string)
      requires Valid() && viewMode == List
      modifies this
      ensures Valid() && searchTerm == term
      ensures payments == old(payments) && statusFilter == old(statusFilter) && viewMode == List
      ensures selected == old(selected) && showRejectDialog == old(showRejectDialog) && rejectNotes == old(rejectNotes)
    {
      searchTerm := term;
    }

    method SelectFilter(filter: StatusFilter<PaymentStatus>)
      requires Valid() && viewMode == List
      modifies this
      ensures Valid() && statusFilter == filter
      ensures payments == old(payments) && searchTerm == old(searchTerm) && viewMode == List
      ensures selected == old(selected) && showRejectDialog == old(showRejectDialog) && rejectNotes == old(rejectNotes)
    {
      statusFilter := filter;
    }

    /** The "View Details" button, and the table's "Reject Payment" button, which
        opens the same view. */
    method ViewDetails(p: Payment)
      requires Valid() && viewMode == List && p in Shown()
      modifies this
      ensures Valid() && viewMode == Details && selected == Some(p)
      ensures !showRejectDialog && rejectNotes == ""
      ensures payments == old(payments) && searchTerm == old(searchTerm) && statusFilter == old(statusFilter)
    {
      selected := Some(p);
      viewMode := Details;
      showRejectDialog := false;
      rejectNotes := "";
    }

    /** The table's "Verify Payment" button on a pending row; `confirmed` is the
        answer to the question. */
    method VerifyFromList(p: Payment, confirmed: bool, today: string)
      requires Valid() && viewMode == List && p in Shown() && ActionsOffered(p)
      modifies this
      ensures Valid()
      ensures payments == if confirmed then VerifiedIn(old(payments), p.id, today) else old(payments)
      ensures searchTerm == old(searchTerm) && statusFilter == old(statusFilter) && viewMode == List
      ensures selected == old(selected) && showRejectDialog == old(showRejectDialog) && rejectNotes == old(rejectNotes)
    {
      if confirmed {
        payments := VerifiedIn(payments, p.id, today);
      }
    }

    method Back()
      requires Valid() && viewMode == Details && !showRejectDialog
      modifies this
      ensures Valid() && viewMode == List
      ensures payments == old(payments) && searchTerm == old(searchTerm) && statusFilter == old(statusFilter)
      ensures selected == old(selected) && showRejectDialog == old(showRejectDialog) && rejectNotes == old(rejectNotes)
    {
      viewMode := List;
    }

    /** The details view's "Verify Payment": the question is asked, and the view
        returns to the table whatever the answer. */
    method VerifyFromDetails(confirmed: bool, today: string)
      requires Valid() && viewMode == Details && !showRejectDialog && ActionsOffered(selected.value)
      modifies this
      ensures Valid() && viewMode == List
      ensures payments == if confirmed then VerifiedIn(old(payments), old(selected).value.id, today) else old(payments)
      ensures searchTerm == old(searchTerm) && statusFilter == old(statusFilter)
      ensures selected == old(selected) && showRejectDialog == old(showRejectDialog) && rejectNotes == old(rejectNotes)
    {
      if confirmed {
        payments := VerifiedIn(payments, selected.value.id, today);
      }
      viewMode := List;
    }

    method OpenRejectDialog()
      requires Valid() && viewMode == Details && !showRejectDialog && ActionsOffered(selected.value)
      modifies this
      ensures Valid() && showRejectDialog
      ensures payments == old(payments) && searchTerm == old(searchTerm) && statusFilter == old(statusFilter)
      ensures viewMode == Details && selected == old(selected) && rejectNotes == old(rejectNotes)
    {
      showRejectDialog := true;
    }

    method TypeRejectNotes(text: string)
      requires Valid() && showRejectDialog
      modifies this
      ensures Valid() && showRejectDialog && rejectNotes == text
      ensures payments == old(payments) && searchTerm == old(searchTerm) && statusFilter == old(statusFilter)
      ensures viewMode == old(viewMode) && selected == old(selected)
    {
      rejectNotes := text;
    }

    /** The dialog's "Cancel" hides it and keeps the typed note. */
    method CloseRejectDialog()
      requires Valid() && showRejectDialog
      modifies this
      ensures Valid() && !showRejectDialog
      ensures payments == old(payments) && searchTerm == old(searchTerm) && statusFilter == old(statusFilter)
      ensures viewMode == old(viewMode) && selected == old(selected) && rejectNotes == old(rejectNotes)
    {
      showRejectDialog := false;
    }

    /** The dialog's "Reject Payment": a note that is not blank after trimming
        rejects with the note as typed, closes the dialog, clears the note and
        returns to the table; a blank note changes nothing. */
    method SubmitReject()
      requires Valid() && showRejectDialog
      modifies this
      ensures Valid()
      ensures Trim(old(rejectNotes)) != [] ==>
                payments == RejectedIn(old(payments), old(selected).value.id, old(rejectNotes)) &&
                !showRejectDialog && rejectNotes == "" && viewMode == List
      ensures Trim(old(rejectNotes)) == [] ==>
                payments == old(payments) && showRejectDialog && rejectNotes == old(rejectNotes) && viewMode == old(viewMode)
      ensures searchTerm == old(searchTerm) && statusFilter == old(statusFilter) && selected == old(selected)
    {
      if Trim(rejectNotes) != "" {
        payments := RejectedIn(payments, selected.value.id, rejectNotes);
        showRejectDialog := false;
        rejectNotes := "";
        viewMode := List;
      }
    }
  }
}
