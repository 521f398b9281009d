/** The customer's "My Bookings" page: a list of bookings kept in page state, a
    create flow that appends to it, a details view, an edit form that replaces a
    booking by id, and cancellation. */
module UserBookings {
  import opened Common
  import opened BookingFlow

  /** A booking as the page keeps it. An absent layout is the empty string, which
      the page treats the same way. */
  datatype Booking = Booking(
    id: int, details: BookingData, price: real, status: BookingStatus,
    createdAt: string, payment: PaymentInfo)

  /** The ids of the list are 1, 2, ..., n in order. */
  predicate IdsSequential(bookings: seq<Booking>) {
    forall i :: 0 <= i < |bookings| ==> bookings[i].id == i + 1
  }

  /** The two bookings the page starts with. */
  const SeedBookings: seq<Booking> := [
    Booking(1, BookingData("Sarah & Mike Wedding", "Wedding", "2026-03-15", "18:00",
                           "Grand Ballroom, Manila Hotel", Premium, 5, ""),
            31250.0, Confirmed, "2026-02-01",
            PaymentInfo(Some("Half Payment"), Some("GCash"),
                        Some("https://images.unsplash.com/photo-1554224155-8d04cb21cd6c?w=400"),
                        Some("gcash_payment_001.jpg"), Some(15625.0), Some(15625.0),
                        Some(Verified), Some("2026-02-05"), Some("2026-02-06"), None)),
    Booking(2, BookingData("Isabella's 18th Birthday", "Debut", "2026-04-20", "19:00",
                           "Marquis Events Place, BGC", Standard, 4, ""),
            18000.0, BookingPending, "2026-02-05",
            PaymentInfo(Some("Partial Payment"), Some("Bank Transfer"),
                        Some("https://images.unsplash.com/photo-1554224155-8d04cb21cd6c?w=400"),
                        Some("bank_deposit_002.jpg"), Some(4500.0), Some(13500.0),
                        Some(PaymentPending), Some("2026-02-05"), None, None))
  ]

  /** The record `handleCreateComplete` appends: the wizard's booking, the next id,
      and from the payment only its method, proof (`url` is the proof's object URL),
      file name and upload date, with the payment status pending. The payment type,
      amount paid and balance of the wizard's payment are not copied. */
  function CreatedBooking(nb: NewBooking, np: NewPayment, count: nat, url: string): (b: Booking)
    ensures b.id == count + 1
    ensures b.details == nb.data && b.price == nb.price && b.status == nb.status && b.createdAt == nb.createdAt
    ensures b.payment.paymentStatus == Some(PaymentPending)
    ensures b.payment.paymentMethod == Some(np.paymentMethod)
    ensures b.payment.proofUrl.Some? <==> np.proofFile.Some?
    ensures b.payment.proofFileName == np.proofFileName && b.payment.uploadedAt == Some(np.uploadedAt)
    ensures b.payment.paymentType.None? && b.payment.amountPaid.None? && b.payment.remainingBalance.None?
    ensures b.payment.verifiedAt.None? && b.payment.notes.None?
  {
    Booking(count + 1, nb.data, nb.price, nb.status, nb.createdAt,
            PaymentInfo(None, Some(np.paymentMethod),
                        if np.proofFile.Some? then Some(url) else None,
                        np.proofFileName, None, None, Some(PaymentPending),
                        Some(np.uploadedAt), None, None))
  }

  /** `bookings.map(b => b.id === id ? {...b, status: 'cancelled'} : b)`. */
  function CancelledIn(bookings: seq<Booking>, id: int): seq<Booking> {
    UpdateWhere(bookings, (b: Booking) => b.id == id, (b: Booking) => b.(status := Cancelled))
  }

  /** `bookings.map(b => b.id === updated.id ? updated : b)`. */
  function ReplacedIn(bookings: seq<Booking>, updated: Booking): seq<Booking> {
    UpdateWhere(bookings, (b: Booking) => b.id == updated.id, (b: Booking) => updated)
  }

  /** The initial list is numbered 1, 2. */
  lemma SeedIdsSequential()
    ensures IdsSequential(SeedBookings)
  {
  }

  /** Appending a created booking keeps the numbering, and its id was not in use. */
  lemma CreateKeepsIds(bookings: seq<Booking>, nb: NewBooking, np: NewPayment, url: string)
    requires IdsSequential(bookings)
    ensures forall i :: 0 <= i < |bookings| ==> bookings[i].id != CreatedBooking(nb, np, |bookings|, url).id
    ensures IdsSequential(bookings + [CreatedBooking(nb, np, |bookings|, url)])
  {
    var s := bookings + [CreatedBooking(nb, np, |bookings|, url)];
    forall i | 0 <= i < |s|
      ensures s[i].id == i + 1
    {
      if i < |bookings| {
        assert s[i] == bookings[i];
      }
    }
  }

  /** Cancelling marks exactly the booking with that id cancelled, leaves every other
      booking and the numbering as they were, and does nothing for an unknown id. */
  lemma CancelEffect(bookings: seq<Booking>, id: int)
    requires IdsSequential(bookings)
    ensures |CancelledIn(bookings, id)| == |bookings|
    ensures IdsSequential(CancelledIn(bookings, id))
    ensures 1 <= id <= |bookings| ==>
              CancelledIn(bookings, id)[id - 1] == bookings[id - 1].(status := Cancelled)
    ensures forall i :: 0 <= i < |bookings| && i != id - 1 ==> CancelledIn(bookings, id)[i] == bookings[i]
    ensures !(1 <= id <= |bookings|) ==> CancelledIn(bookings, id) == bookings
  {
  }

  /** Saving an edited booking replaces the booking with the same id, and only it; the
      numbering is kept whatever record is saved. */
  lemma ReplaceEffect(bookings: seq<Booking>, updated: Booking)
    requires IdsSequential(bookings)
    ensures IdsSequential(ReplacedIn(bookings, updated))
    ensures 1 <= updated.id <= |bookings| ==> ReplacedIn(bookings, updated)[updated.id - 1] == updated
    ensures forall i :: 0 <= i < |bookings| && i != updated.id - 1 ==> ReplacedIn(bookings, updated)[i] == bookings[i]
  {
  }

  /** The list offers Edit and Cancel only for pending bookings. */
  predicate OffersChanges(b: Booking) {
    b.status == BookingPending
  }

  /** Once cancelled, a booking offers neither Edit nor Cancel again. */
  lemma CancelledBookingOffersNoChanges(bookings: seq<Booking>, id: int)
    requires IdsSequential(bookings) && 1 <= id <= |bookings|
    ensures !OffersChanges(CancelledIn(bookings, id)[id - 1])
  {
    CancelEffect(bookings, id);
  }

  /** The "Package Rate" of the details view, `price / (hours / 4)`. */
  function RateShown(b: Booking): real
    requires b.details.hours != 0
  {
    b.price / (b.details.hours as real / 4.0)
  }

  /** For a booking priced by the rate table, the rate shown is its package's rate. */
  lemma RateShownIsBaseRate(b: Booking)
    requires b.details.hours != 0
    requires b.price == CalculatedPrice(b.details.packageType, b.details.hours)
    ensures RateShown(b) == BaseRate(b.details.packageType)
  {
    var q := b.details.hours as real / 4.0;
    assert q != 0.0;
    assert b.price == BaseRate(b.details.packageType) * q;
  }

  // ---------------------------------------------------------------------
  // Edit form

  /** The edit form's fields; `hours == None` is the NaN that `parseInt` stores
      when the hours input is cleared. */
  datatype EditForm = EditForm(
    eventName: string, eventType: string, eventDate: string, eventTime: string,
    venue: string, packageType: Package, hours: Option<int>, layout: string)

  /** The edit form seeded from a booking: saving it unchanged gives back the
      booking's details. */
  function FormOf(b: Booking): (f: EditForm)
    ensures f.hours.Some? && EditedBooking(b, f).details == b.details
  {
    var d := b.details;
    EditForm(d.eventName, d.eventType, d.eventDate, d.eventTime, d.venue, d.packageType, Some(d.hours), d.layout)
  }

  /** The browser's constraint validation of the form: every `required` input is
      filled in and the hours lie within `min="2"` and `max="12"`. */
  predicate FormSubmittable(f: EditForm) {
    f.eventName != "" && f.eventType != "" && f.eventDate != "" && f.eventTime != "" &&
    f.venue != "" && f.hours.Some? && 2 <= f.hours.value <= 12
  }

  /** `{...booking, ...formData, price: calculatedPrice}`. */
  function EditedBooking(b: Booking, f: EditForm): (r: Booking)
    requires f.hours.Some?
    ensures r.id == b.id && r.status == b.status && r.createdAt == b.createdAt && r.payment == b.payment
    ensures r.details.eventName == f.eventName && r.details.eventType == f.eventType
    ensures r.details.eventDate == f.eventDate && r.details.eventTime == f.eventTime
    ensures r.details.venue == f.venue && r.details.packageType == f.packageType
    ensures r.details.hours == f.hours.value && r.details.layout == f.layout
    ensures r.price == CalculatedPrice(f.packageType, f.hours.value)
  {
    var h := f.hours.value;
    b.(details := BookingData(f.eventName, f.eventType, f.eventDate, f.eventTime, f.venue, f.packageType, h, f.layout),
       price := CalculatedPrice(f.packageType, h))
  }

  /** Saving the form unchanged gives back the booking, repriced by the rate table. */
  lemma EditUnchangedOnlyReprices(b: Booking)
    ensures EditedBooking(b, FormOf(b)) == b.(price := CalculatedPrice(b.details.packageType, b.details.hours))
    ensures b.price == CalculatedPrice(b.details.packageType, b.details.hours) ==> EditedBooking(b, FormOf(b)) == b
  {
  }

  datatype EditField = EditName | EditType | EditDate | EditTime | EditVenue

  class EditBookingPage {
    const booking: Booking
    var form: EditForm

    constructor (b: Booking)
      ensures booking == b && form == FormOf(b)
    {
      booking := b;
      form := FormOf(b);
    }

    method ChangeText(field: EditField, value: string)
      modifies this
      ensures form == match field
                case EditName => old(form).(eventName := value)
                case EditType => old(form).(eventType := value)
                case EditDate => old(form).(eventDate := value)
                case EditTime => old(form).(eventTime := value)
                case EditVenue => old(form).(venue := value)
    {
      match field
      case EditName => form := form.(eventName := value);
      case EditType => form := form.(eventType := value);
      case EditDate => form := form.(eventDate := value);
      case EditTime => form := form.(eventTime := value);
      case EditVenue => form := form.(venue := value);
    }

    method SelectPackage(p: Package)
      modifies this
      ensures form == old(form).(packageType := p)
    {
      form := form.(packageType := p);
    }

    /** The hours input stores `parseInt` of the text with no fallback. */
    method ChangeHours(parsed: Option<int>)
      modifies this
      ensures form == old(form).(hours := parsed)
    {
      form := form.(hours := parsed);
    }

    method ChangeLayout(value: string)
      modifies this
      ensures form == old(form).(layout := Upper(value))
    {
      form := form.(layout := Upper(value));
    }

    /** A submit of the form: the browser lets it through only when the form is
        submittable, and then the edited booking is handed to the page. */
    method Submit() returns (r: Option<Booking>)
      ensures r.Some? <==> FormSubmittable(form)
      ensures r.Some? ==> r.value == EditedBooking(booking, form)
      ensures r.Some? ==> r.value.id == booking.id && 2 <= r.value.details.hours <= 12
    {
      if FormSubmittable(form) {
        r := Some(EditedBooking(booking, form));
      } else {
        r := None;
      }
    }
  }

  // ---------------------------------------------------------------------
  // Page

  datatype ViewMode = List | Create | View | Edit

  class UserBookingsPage {
    var bookings: seq<Booking>
    var viewMode: ViewMode
    var selected: Option<Booking>

    ghost predicate Valid()
      reads this
    {
      IdsSequential(bookings) && (viewMode == View || viewMode == Edit ==> selected.Some?)
    }

    constructor ()
      ensures Valid()
      ensures bookings == SeedBookings && viewMode == List && selected == None
    {
      bookings := SeedBookings;
      viewMode := List;
      selected := None;
    }

    /** "New Booking". */
    method StartCreate()
      requires Valid() && viewMode == List
      modifies this
      ensures Valid() && viewMode == Create
      ensures bookings == old(bookings) && selected == old(selected)
    {
      viewMode := Create;
    }

    /** The wizard's completion: the created booking is appended and the list shown. */
    method CompleteCreate(nb: NewBooking, np: NewPayment, url: string)
      requires Valid() && viewMode == Create
      modifies this
      ensures Valid() && viewMode == List && selected == old(selected)
      ensures bookings == old(bookings) + [CreatedBooking(nb, np, |old(bookings)|, url)]
    {
      CreateKeepsIds(bookings, nb, np, url);
      bookings := bookings + [CreatedBooking(nb, np, |bookings|, url)];
      viewMode := List;
    }

    /** "View Details" on a listed booking. */
    method ViewBooking(b: Booking)
      requires Valid() && viewMode == List && b in bookings
      modifies this
      ensures Valid() && viewMode == View && selected == Some(b) && bookings == old(bookings)
    {
      selected := Some(b);
      viewMode := View;
    }

    /** "Edit" on a listed booking, offered only while it is pending. */
    method EditBooking(b: Booking)
      requires Valid() && viewMode == List && b in bookings && OffersChanges(b)
      modifies this
      ensures Valid() && viewMode == Edit && selected == Some(b) && bookings == old(bookings)
    {
      selected := Some(b);
      viewMode := Edit;
    }

    /** The wizard's cancel, the details view's back and the edit form's cancel. */
    method BackToList()
      requires Valid()
      modifies this
      ensures Valid() && viewMode == List && bookings == old(bookings) && selected == old(selected)
    {
      viewMode := List;
    }

    /** "Cancel" on a listed booking; `confirmed` is the answer to the question. */
    method CancelBooking(id: int, confirmed: bool)
      requires Valid() && viewMode == List
      modifies this
      ensures Valid() && viewMode == List && selected == old(selected)
      ensures bookings == if confirmed then CancelledIn(old(bookings), id) else old(bookings)
    {
      if confirmed {
        CancelEffect(bookings, id);
        bookings := CancelledIn(bookings, id);
      }
    }

    /** The edit form's save: the booking with the same id is replaced. */
    method UpdateBooking(updated: Booking)
      requires Valid() && viewMode == Edit
      modifies this
      ensures Valid() && viewMode == List && selected == old(selected)
      ensures bookings == ReplacedIn(old(bookings), updated)
    {
      ReplaceEffect(bookings, updated);
      bookings := ReplacedIn(bookings, updated);
      viewMode := List;
    }
  }
}
