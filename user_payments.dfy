/** The customer's payments page: the payment records of their bookings, the
    totals over them, and the modal that attaches a proof of payment to one. */
module UserPayments {
  import opened Common

  datatype UserPayment = UserPayment(
    id: int, bookingId: int, bookingName: string, amount: real, status: PaymentStatus,
    proofUrl: Option<string>, proofFileName: Option<string>, uploadedAt: Option<string>,
    verifiedAt: Option<string>, notes: Option<string>)

  const SeedPayments: seq<UserPayment> := [
    UserPayment(1, 1, "Sarah & Mike Wedding", 25000.0, Verified,
                Some("https://images.unsplash.com/photo-1554224155-8d04cb21cd6c?w=400"),
                Some("payment_proof_001.jpg"), Some("2026-02-05"), Some("2026-02-06"), None),
    UserPayment(2, 2, "Isabella's 18th Birthday", 18000.0, PaymentPending, None, None, None, None, None)
  ]

  // ---------------------------------------------------------------------
  // Derived values

  /** A payment still waiting for its proof. */
  predicate AwaitingProof(p: UserPayment) {
    p.status == PaymentPending && p.proofUrl.None?
  }

  function PendingPayments(payments: seq<UserPayment>): seq<UserPayment> {
    Filter(payments, AwaitingProof)
  }

  /** The payments awaiting proof keep their order and are exactly the pending
      payments that have no proof yet. */
  lemma PendingPaymentsSpec(payments: seq<UserPayment>)
    ensures IsSubsequence(PendingPayments(payments), payments)
    ensures forall i :: 0 <= i < |PendingPayments(payments)| ==>
              PendingPayments(payments)[i].status == PaymentPending && PendingPayments(payments)[i].proofUrl.None?
    ensures forall i :: 0 <= i < |payments| && payments[i].status == PaymentPending && payments[i].proofUrl.None? ==>
              payments[i] in PendingPayments(payments)
  {
    FilterIsSubsequence(payments, AwaitingProof);
  }

  function AmountWith(payments: seq<UserPayment>, s: PaymentStatus): real {
    Sum(Filter(payments, (p: UserPayment) => p.status == s), (p: UserPayment) => p.amount)
  }

  /** "Total Paid": the amounts of the verified payments. */
  function TotalPaid(payments: seq<UserPayment>): real {
    AmountWith(payments, Verified)
  }

  /** "Pending": the amounts of the pending payments, with or without proof. */
  function TotalPending(payments: seq<UserPayment>): real {
    AmountWith(payments, PaymentPending)
  }

  /** Every amount falls into exactly one of the verified, pending and rejected sums. */
  lemma {:induction false} TotalsPartitionAmounts(payments: seq<UserPayment>)
    ensures TotalPaid(payments) + TotalPending(payments) + AmountWith(payments, Rejected) ==
            Sum(payments, (p: UserPayment) => p.amount)
  {
    if payments != [] {
      TotalsPartitionAmounts(payments[1..]);
      AmountWithCons(payments, Verified);
      AmountWithCons(payments, PaymentPending);
      AmountWithCons(payments, Rejected);
    }
  }

  /** Attaching a proof to the payment with that id: `url` is the file's object URL. */
  function WithProof(payments: seq<UserPayment>, id: int, url: string, fileName: string, today: string): seq<UserPayment> {
    UpdateWhere(payments, (p: UserPayment) => p.id == id,
                (p: UserPayment) => p.(proofUrl := Some(url), proofFileName := Some(fileName), uploadedAt := Some(today)))
  }

  /** An upload sets the proof, its file name and the upload date of the payments
      with that id and changes nothing else, its status included. */
  lemma WithProofFrame(payments: seq<UserPayment>, id: int, url: string, fileName: string, today: string)
    ensures |WithProof(payments, id, url, fileName, today)| == |payments|
    ensures forall i :: 0 <= i < |payments| ==>
              var r := WithProof(payments, id, url, fileName, today)[i];
              if payments[i].id == id
              then r.proofUrl == Some(url) && r.proofFileName == Some(fileName) && r.uploadedAt == Some(today) &&
                   r.status == payments[i].status &&
                   r.(proofUrl := payments[i].proofUrl, proofFileName := payments[i].proofFileName,
                      uploadedAt := payments[i].uploadedAt) == payments[i]
              else r == payments[i]
  {
  }

  /** Uploading a proof moves no money between the totals: statuses and amounts
      are kept, and the uploaded payment no longer awaits proof. */
  lemma UploadKeepsTotals(payments: seq<UserPayment>, id: int, url: string, fileName: string, today: string)
    ensures TotalPaid(WithProof(payments, id, url, fileName, today)) == TotalPaid(payments)
    ensures TotalPending(WithProof(payments, id, url, fileName, today)) == TotalPending(payments)
    ensures forall i :: 0 <= i < |payments| && payments[i].id == id ==>
              !AwaitingProof(WithProof(payments, id, url, fileName, today)[i])
  {
    WithProofKeepsAmounts(payments, id, url, fileName, today, Verified);
    WithProofKeepsAmounts(payments, id, url, fileName, today, PaymentPending);
  }

  lemma {:induction false} WithProofKeepsAmounts(payments: seq<UserPayment>, id: int, url: string, fileName: string,
                                                 today: string, s: PaymentStatus)
    ensures AmountWith(WithProof(payments, id, url, fileName, today), s) == AmountWith(payments, s)
  {
    if payments != [] {
      var r := WithProof(payments, id, url, fileName, today);
      WithProofKeepsAmounts(payments[1..], id, url, fileName, today, s);
      assert r[1..] == WithProof(payments[1..], id, url, fileName, today);
      assert r[0].status == payments[0].status && r[0].amount == payments[0].amount;
      AmountWithCons(r, s);
      AmountWithCons(payments, s);
    }
  }

  lemma AmountWithCons(payments: seq<UserPayment>, s: PaymentStatus)
    requires payments != []
    ensures AmountWith(payments, s) ==
            (if payments[0].status == s then payments[0].amount else 0.0) + AmountWith(payments[1..], s)
  {
    var keep := (p: UserPayment) => p.status == s;
    if payments[0].status == s {
      assert Filter(payments, keep) == [payments[0]] + Filter(payments[1..], keep);
      assert ([payments[0]] + Filter(payments[1..], keep))[1..] == Filter(payments[1..], keep);
    } else {
      assert Filter(payments, keep) == Filter(payments[1..], keep);
    }
  }

  // ---------------------------------------------------------------------
  // Buttons

  datatype UploadButton = UploadProof | ReUploadProof

  /** The upload button a payment card shows, if any. */
  function OfferedUpload(p: UserPayment): Option<UploadButton> {
    if p.status != PaymentPending then None
    else if p.proofUrl.None? then Some(UploadProof)
    else Some(ReUploadProof)
  }

  /** "Upload" appears exactly on the payments awaiting proof, "Re-upload" exactly
      on pending payments that have one, and verified or rejected payments show neither. */
  lemma OfferedUploadSpec(p: UserPayment)
    ensures OfferedUpload(p) == Some(UploadProof) <==> AwaitingProof(p)
    ensures OfferedUpload(p) == Some(ReUploadProof) <==> p.status == PaymentPending && p.proofUrl.Some?
    ensures OfferedUpload(p).None? <==> p.status != PaymentPending
  {
  }

  // ---------------------------------------------------------------------
  // Upload modal

  /** The proof-upload modal's own state, fresh each time it opens. */
  class UploadProofModal {
    var selectedFile: Option<File>
    var preview: Option<string>

    constructor ()
      ensures selectedFile == None && preview == None
    {
      selectedFile := None;
      preview := None;
    }

    /** The file picker, shown only while there is no preview: the first chosen
        file, if any, is selected; `url` is its object URL. */
    method SelectFile(file: Option<File>, url: string)
      requires preview == None
      modifies this
      ensures selectedFile == (if file.Some? then file else old(selectedFile))
      ensures preview == (if file.Some? then Some(url) else old(preview))
    {
      if file.Some? {
        selectedFile := file;
        preview := Some(url);
      }
    }

    /** A drop on the upload area, shown only while there is no preview, selects the
        first dropped file only when it is an image. */
    method Drop(file: Option<File>, url: string)
      requires preview == None
      modifies this
      ensures file.Some? && IsImageType(file.value.mimeType) ==> selectedFile == file && preview == Some(url)
      ensures !(file.Some? && IsImageType(file.value.mimeType)) ==>
                selectedFile == old(selectedFile) && preview == old(preview)
    {
      if file.Some? && IsImageType(file.value.mimeType) {
        selectedFile := file;
        preview := Some(url);
      }
    }

    method RemoveFile()
      modifies this
      ensures selectedFile == None && preview == None
    {
      selectedFile := None;
      preview := None;
    }

    /** "Upload Proof": hands the selected file to the page, if there is one. */
    method Submit() returns (r: Option<File>)
      ensures r == selectedFile
      ensures r.Some? <==> selectedFile.Some?
    {
      r := selectedFile;
    }
  }

  // ---------------------------------------------------------------------
  // Page

  class UserPaymentsPage {
    var payments: seq<UserPayment>
    var showUploadModal: bool
    var showViewModal: bool
    var selected: Option<UserPayment>

    ghost predicate Valid()
      reads this
    {
      (showUploadModal || showViewModal ==> selected.Some?)
    }

    constructor ()
      ensures Valid()
      ensures payments == SeedPayments && !showUploadModal && !showViewModal && selected == None
    {
      payments := SeedPayments;
      showUploadModal := false;
      showViewModal := false;
      selected := None;
    }

    /** A card's Upload or Re-upload button. */
    method OpenUpload(p: UserPayment)
      requires Valid() && p in payments && OfferedUpload(p).Some?
      modifies this
      ensures Valid() && showUploadModal && selected == Some(p)
      ensures payments == old(payments) && showViewModal == old(showViewModal)
    {
      selected := Some(p);
      showUploadModal := true;
    }

    /** A card's "View" link, shown when the payment has a proof. */
    method ViewProof(p: UserPayment)
      requires Valid() && p in payments && p.proofUrl.Some?
      modifies this
      ensures Valid() && showViewModal && selected == Some(p)
      ensures payments == old(payments) && showUploadModal == old(showUploadModal)
    {
      selected := Some(p);
      showViewModal := true;
    }

    method CloseUpload()
      requires Valid()
      modifies this
      ensures Valid() && !showUploadModal
      ensures payments == old(payments) && showViewModal == old(showViewModal) && selected == old(selected)
    {
      showUploadModal := false;
    }

    method CloseView()
      requires Valid()
      modifies this
      ensures Valid() && !showViewModal
      ensures payments == old(payments) && showUploadModal == old(showUploadModal) && selected == old(selected)
    {
      showViewModal := false;
    }

    /** The modal's `onUpload`: the file, with object URL `url`, becomes the proof of
        the selected payment on day `today`, and the modal closes. */
    method Upload(file: File, url: string, today: string)
      requires Valid() && showUploadModal
      modifies this
      ensures Valid() && !showUploadModal
      ensures payments == WithProof(old(payments), old(selected).value.id, url, file.name, today)
      ensures TotalPaid(payments) == TotalPaid(old(payments)) && TotalPending(payments) == TotalPending(old(payments))
      ensures showViewModal == old(showViewModal) && selected == old(selected)
    {
      UploadKeepsTotals(payments, selected.value.id, url, file.name, today);
      payments := WithProof(payments, selected.value.id, url, file.name, today);
      showUploadModal := false;
    }
  }
}
