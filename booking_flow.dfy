/** The customer's two-step booking wizard: event details and a price
    (step 1), then payment type, method and proof (step 2), then one booking
    record and one payment record handed to the bookings screen. */
module BookingFlow {
  import opened Common

  // ---------------------------------------------------------------------
  // Rate table and price arithmetic

  datatype Package = Starter | Standard | Deluxe | Premium

  /** The rate of a package, in pesos, for a four-hour rental. */
  function BaseRate(p: Package): real {
    match p
    case Starter => 7499.0
    case Standard => 8999.0
    case Deluxe => 11999.0
    case Premium => 14999.0
  }

  function PackageName(p: Package): string {
    match p
    case Starter => "Starter Package"
    case Standard => "Standard Package"
    case Deluxe => "Deluxe Package"
    case Premium => "Premium Package"
  }

  /** `packages[packageType] * (hours / 4)`, in exact rationals. */
  function CalculatedPrice(p: Package, hours: int): real {
    BaseRate(p) * (hours as real / 4.0)
  }

  /** The rates of the four packages. */
  lemma RateTable()
    ensures BaseRate(Starter) == 7499.0 && BaseRate(Standard) == 8999.0
    ensures BaseRate(Deluxe) == 11999.0 && BaseRate(Premium) == 14999.0
  {
  }

  /** The rate is the price of four hours, prices grow linearly with the hours, and
      every price is a whole number of quarter pesos. */
  lemma PriceIsRateTimesQuarterHours(p: Package, hours: int)
    ensures CalculatedPrice(p, 4) == BaseRate(p)
    ensures 4.0 * CalculatedPrice(p, hours) == BaseRate(p) * hours as real
    ensures CalculatedPrice(p, hours + 1) - CalculatedPrice(p, hours) == BaseRate(p) / 4.0
    ensures (4.0 * CalculatedPrice(p, hours)).Floor as real == 4.0 * CalculatedPrice(p, hours)
  {
    PriceOfFourHours(p);
    PriceTimesFour(p, hours);
    PriceStep(p, hours);
  }

  lemma PriceOfFourHours(p: Package)
    ensures CalculatedPrice(p, 4) == BaseRate(p)
  {
    assert CalculatedPrice(p, 4) == BaseRate(p) * 1.0;
  }

  lemma PriceTimesFour(p: Package, hours: int)
    ensures 4.0 * CalculatedPrice(p, hours) == BaseRate(p) * hours as real
    ensures (4.0 * CalculatedPrice(p, hours)).Floor as real == 4.0 * CalculatedPrice(p, hours)
  {
    var b := BaseRate(p);
    ScaleByQuarter(b, hours as real);
    assert b == b.Floor as real;
    WholeProduct(b, hours);
  }

  lemma PriceStep(p: Package, hours: int)
    ensures CalculatedPrice(p, hours + 1) - CalculatedPrice(p, hours) == BaseRate(p) / 4.0
  {
    var h := hours as real;
    assert (hours + 1) as real == h + 1.0;
    ScaleByQuarter(BaseRate(p), h);
  }

  /** A whole number of pesos times a whole number is whole. */
  lemma WholeProduct(b: real, n: int)
    requires b == b.Floor as real
    ensures (b * n as real).Floor as real == b * n as real
  {
    assert b * n as real == (b.Floor * n) as real;
  }

  /** `b * (h / 4)` is a quarter of `b * h`, and one more hour adds a quarter of `b`. */
  lemma ScaleByQuarter(b: real, h: real)
    ensures 4.0 * (b * (h / 4.0)) == b * h
    ensures b * ((h + 1.0) / 4.0) - b * (h / 4.0) == b / 4.0
  {
  }

  datatype PaymentTypeInfo = PaymentTypeInfo(id: string, title: string, percentage: nat)

  const PaymentTypes: seq<PaymentTypeInfo> := [
    PaymentTypeInfo("partial", "Partial Payment", 25),
    PaymentTypeInfo("half", "Half Payment", 50),
    PaymentTypeInfo("full", "Full Payment", 100)
  ]

  const PaymentMethodIds: seq<string> := ["gcash", "bank", "credit"]

  /** `paymentTypes.find((pt) => pt.id === id)` over a table. */
  function FindType(types: seq<PaymentTypeInfo>, id: string): (r: Option<PaymentTypeInfo>)
    ensures r.Some? <==> exists i :: 0 <= i < |types| && types[i].id == id
    ensures r.Some? ==> r.value in types && r.value.id == id
  {
    if types == [] then None
    else if types[0].id == id then Some(types[0])
    else FindType(types[1..], id)
  }

  function FindPaymentType(id: string): Option<PaymentTypeInfo> {
    FindType(PaymentTypes, id)
  }

  /** Only the three ids of the table select a payment type, at 25, 50 or 100 percent. */
  lemma PaymentTypeIds(id: string)
    ensures FindPaymentType(id).Some? <==> id in ["partial", "half", "full"]
    ensures FindPaymentType(id).Some? ==> FindPaymentType(id).value.percentage in {25, 50, 100}
    ensures id == "partial" ==> FindPaymentType(id).value.percentage == 25
    ensures id == "half" ==> FindPaymentType(id).value.percentage == 50
    ensures id == "full" ==> FindPaymentType(id).value.percentage == 100
  {
    assert PaymentTypes[0].id == "partial" && PaymentTypes[1].id == "half" && PaymentTypes[2].id == "full";
  }

  /** `selectedPaymentType ? (price * percentage) / 100 : 0`. */
  function AmountToPay(price: real, paymentType: string): real {
    match FindPaymentType(paymentType)
    case None => 0.0
    case Some(t) => price * t.percentage as real / 100.0
  }

  function RemainingBalance(price: real, paymentType: string): real {
    price - AmountToPay(price, paymentType)
  }

  /** The down payment and the balance always add up to the price; no payment type
      means nothing to pay yet, a full payment leaves nothing, a half payment splits
      the price evenly, and the down payment never exceeds a non-negative price. */
  lemma AmountAndBalance(price: real, paymentType: string)
    ensures AmountToPay(price, paymentType) + RemainingBalance(price, paymentType) == price
    ensures FindPaymentType(paymentType).None? ==> AmountToPay(price, paymentType) == 0.0
    ensures FindPaymentType(paymentType).Some? ==>
              AmountToPay(price, paymentType) == price * FindPaymentType(paymentType).value.percentage as real / 100.0
    ensures paymentType == "full" ==> RemainingBalance(price, paymentType) == 0.0
    ensures paymentType == "half" ==> AmountToPay(price, paymentType) == RemainingBalance(price, paymentType)
    ensures paymentType == "partial" ==> 3.0 * AmountToPay(price, paymentType) == RemainingBalance(price, paymentType)
    ensures price >= 0.0 ==> 0.0 <= AmountToPay(price, paymentType) <= price
  {
    PaymentTypeIds(paymentType);
    if FindPaymentType(paymentType).Some? {
      var q := FindPaymentType(paymentType).value.percentage as real;
      assert q == 25.0 || q == 50.0 || q == 100.0;
      assert AmountToPay(price, paymentType) == price * (q / 100.0);
    }
  }

  /** A worked example: three hours of the Standard package at half payment. */
  lemma StandardThreeHoursHalf()
    ensures CalculatedPrice(Standard, 3) == 6749.25
    ensures AmountToPay(CalculatedPrice(Standard, 3), "half") == 3374.625
    ensures RemainingBalance(CalculatedPrice(Standard, 3), "half") == 3374.625
  {
    PaymentTypeIds("half");
  }

  // ---------------------------------------------------------------------
  // Wizard state

  datatype BookingData = BookingData(
    eventName: string, eventType: string, eventDate: string, eventTime: string,
    venue: string, packageType: Package, hours: int, layout: string)

  datatype PaymentData = PaymentData(
    paymentType: string, paymentMethod: string,
    proofFile: Option<File>, proofPreview: Option<string>)

  const InitialBookingData := BookingData("", "Wedding", "", "", "", Standard, 3, "")
  const InitialPaymentData := PaymentData("", "", None, None)

  /** The "Proceed to Payment" button is enabled: every event field is filled in and
      the hours are not zero. The layout is optional. */
  predicate IsStep1Valid(b: BookingData) {
    b.eventName != "" && b.eventType != "" && b.eventDate != "" && b.eventTime != "" &&
    b.venue != "" && PackageName(b.packageType) != "" && b.hours != 0
  }

  /** The "Submit Booking" button is enabled: a payment type, a payment method and
      a proof file have been chosen. */
  predicate IsStep2Valid(p: PaymentData) {
    p.paymentType != "" && p.paymentMethod != "" && p.proofFile.Some?
  }

  lemma Step1Requirements(b: BookingData)
    ensures IsStep1Valid(b) <==>
              b.eventName != [] && b.eventType != [] && b.eventDate != [] && b.eventTime != [] &&
              b.venue != [] && b.hours != 0
    ensures IsStep1Valid(b) ==> IsStep1Valid(b.(layout := ""))
    ensures !IsStep1Valid(b.(hours := 0))
    ensures !IsStep1Valid(InitialBookingData)
  {
    match b.packageType
    case Starter =>
    case Standard =>
    case Deluxe =>
    case Premium =>
  }

  /** The value the hours input stores: `isNaN(value) ? 4 : value`, where `parsed`
      is the result of `parseInt` and `None` stands for NaN. */
  function HoursFromInput(parsed: Option<int>): (h: int)
    ensures parsed.None? ==> h == 4
    ensures parsed.Some? ==> h == parsed.value
  {
    match parsed
    case None => 4
    case Some(v) => v
  }

  /** The booking handed to the bookings screen: the event fields plus price,
      status and creation date. */
  datatype NewBooking = NewBooking(data: BookingData, price: real, status: BookingStatus, createdAt: string)

  /** The payment handed to the bookings screen. */
  datatype NewPayment = NewPayment(
    paymentType: string, paymentMethod: string,
    proofFile: Option<File>, proofFileName: Option<string>,
    amountPaid: real, totalAmount: real, remainingBalance: real,
    status: PaymentStatus, uploadedAt: string)

  /** What `handleSubmit` emits; `today` is the date part of the current time. */
  function Submission(b: BookingData, p: PaymentData, today: string): (r: (NewBooking, NewPayment))
    ensures r.0.data == b && r.0.status == BookingPending && r.0.createdAt == today
    ensures r.0.price == CalculatedPrice(b.packageType, b.hours)
    ensures r.1.totalAmount == r.0.price && r.1.status == PaymentPending
    ensures r.1.amountPaid == AmountToPay(r.0.price, p.paymentType)
    ensures r.1.amountPaid + r.1.remainingBalance == r.1.totalAmount
    ensures r.1.paymentType == p.paymentType && r.1.paymentMethod == p.paymentMethod
    ensures r.1.proofFile == p.proofFile && r.1.uploadedAt == today
    ensures r.1.proofFileName == (if p.proofFile.Some? then Some(p.proofFile.value.name) else None)
  {
    var price := CalculatedPrice(b.packageType, b.hours);
    AmountAndBalance(price, p.paymentType);
    (NewBooking(b, price, BookingPending, today),
     NewPayment(p.paymentType, p.paymentMethod, p.proofFile,
                if p.proofFile.Some? then Some(p.proofFile.value.name) else None,
                AmountToPay(price, p.paymentType), price, RemainingBalance(price, p.paymentType),
                PaymentPending, today))
  }

  datatype TextField = EventName | EventType | EventDate | EventTime | Venue

  class BookingWizard {
    var step: nat
    var bookingData: BookingData
    var paymentData: PaymentData

    /** Step 2 is only ever entered through the enabled "Proceed" button, and the
        event fields cannot be edited while on it. */
    ghost predicate Valid()
      reads this
    {
      (step == 1 || step == 2) && (step == 2 ==> IsStep1Valid(bookingData))
    }

    constructor ()
      ensures Valid()
      ensures step == 1 && bookingData == InitialBookingData && paymentData == InitialPaymentData
    {
      step := 1;
      bookingData := InitialBookingData;
      paymentData := InitialPaymentData;
    }

    /** `handleBookingChange(field, value)` for the text inputs of step 1. */
    method ChangeText(field: TextField, value: string)
      requires Valid() && step == 1
      modifies this
      ensures Valid() && step == 1 && paymentData == old(paymentData)
      ensures bookingData == match field
                case EventName => old(bookingData).(eventName := value)
                case EventType => old(bookingData).(eventType := value)
                case EventDate => old(bookingData).(eventDate := value)
                case EventTime => old(bookingData).(eventTime := value)
                case Venue => old(bookingData).(venue := value)
    {
      match field
      case EventName => bookingData := bookingData.(eventName := value);
      case EventType => bookingData := bookingData.(eventType := value);
      case EventDate => bookingData := bookingData.(eventDate := value);
      case EventTime => bookingData := bookingData.(eventTime := value);
      case Venue => bookingData := bookingData.(venue := value);
    }

    method SelectPackage(p: Package)
      requires Valid() && step == 1
      modifies this
      ensures Valid() && step == 1 && paymentData == old(paymentData)
      ensures bookingData == old(bookingData).(packageType := p)
    {
      bookingData := bookingData.(packageType := p);
    }

    /** The hours input; `parsed` is `parseInt` of the typed text. */
    method ChangeHours(parsed: Option<int>)
      requires Valid() && step == 1
      modifies this
      ensures Valid() && step == 1 && paymentData == old(paymentData)
      ensures bookingData == old(bookingData).(hours := HoursFromInput(parsed))
    {
      bookingData := bookingData.(hours := HoursFromInput(parsed));
    }

    /** The layout input stores the typed text upper-cased. */
    method ChangeLayout(value: string)
      requires Valid() && step == 1
      modifies this
      ensures Valid() && step == 1 && paymentData == old(paymentData)
      ensures bookingData == old(bookingData).(layout := Upper(value))
    {
      bookingData := bookingData.(layout := Upper(value));
    }

    /** The "Proceed to Payment" button, disabled unless step 1 is valid. */
    method ProceedToPayment()
      requires Valid() && step == 1
      modifies this
      ensures Valid()
      ensures step == (if IsStep1Valid(old(bookingData)) then 2 else 1)
      ensures bookingData == old(bookingData) && paymentData == old(paymentData)
    {
      if IsStep1Valid(bookingData) {
        step := 2;
      }
    }

    /** The "Back" button of step 2. */
    method BackToDetails()
      requires Valid() && step == 2
      modifies this
      ensures Valid() && step == 1
      ensures bookingData == old(bookingData) && paymentData == old(paymentData)
    {
      step := 1;
    }

    /** A click on one of the payment type cards, which carry the table's ids. */
    method SelectPaymentType(id: string)
      requires Valid() && step == 2 && FindPaymentType(id).Some?
      modifies this
      ensures Valid() && step == 2 && bookingData == old(bookingData)
      ensures paymentData == old(paymentData).(paymentType := id)
    {
      paymentData := paymentData.(paymentType := id);
    }

    method SelectPaymentMethod(id: string)
      requires Valid() && step == 2 && id in PaymentMethodIds
      modifies this
      ensures Valid() && step == 2 && bookingData == old(bookingData)
      ensures paymentData == old(paymentData).(paymentMethod := id)
    {
      paymentData := paymentData.(paymentMethod := id);
    }

    /** The file picker, shown only while there is no preview: the first chosen
        file, if any, becomes the proof; `url` stands for its object URL. */
    method SelectFile(file: Option<File>, url: string)
      requires Valid() && step == 2 && paymentData.proofPreview == None
      modifies this
      ensures Valid() && step == 2 && bookingData == old(bookingData)
      ensures paymentData == if file.Some?
                             then old(paymentData).(proofFile := file, proofPreview := Some(url))
                             else old(paymentData)
    {
      if file.Some? {
        paymentData := paymentData.(proofFile := file, proofPreview := Some(url));
      }
    }

    /** A drop on the upload area, shown only while there is no preview: the first
        dropped file becomes the proof only when its type starts with `image/`. */
    method Drop(file: Option<File>, url: string)
      requires Valid() && step == 2 && paymentData.proofPreview == None
      modifies this
      ensures Valid() && step == 2 && bookingData == old(bookingData)
      ensures paymentData == if file.Some? && IsImageType(file.value.mimeType)
                             then old(paymentData).(proofFile := file, proofPreview := Some(url))
                             else old(paymentData)
    {
      if file.Some? {
        if IsImageType(file.value.mimeType) {
          paymentData := paymentData.(proofFile := file, proofPreview := Some(url));
        }
      }
    }

    method RemoveFile()
      requires Valid() && step == 2
      modifies this
      ensures Valid() && step == 2 && bookingData == old(bookingData)
      ensures paymentData == old(paymentData).(proofFile := None, proofPreview := None)
      ensures !IsStep2Valid(paymentData)
    {
      paymentData := paymentData.(proofFile := None, proofPreview := None);
    }

    /** The "Submit Booking" button: enabled on step 2 when step 2 is valid, it
        emits the booking and the payment; the wizard's own state is left as it is. */
    method Submit(today: string) returns (r: Option<(NewBooking, NewPayment)>)
      requires Valid()
      ensures r.Some? <==> step == 2 && IsStep2Valid(paymentData)
      ensures r.Some? ==> r.value == Submission(bookingData, paymentData, today)
      ensures r.Some? ==> IsStep1Valid(r.value.0.data) && r.value.1.proofFile.Some?
    {
      if step == 2 && IsStep2Valid(paymentData) {
        r := Some(Submission(bookingData, paymentData, today));
      } else {
        r := None;
      }
    }
  }
}
