/** The administrator's event photos screen: uploaded photos grouped into one
    event per booking, a search over the events, a gallery over one event's
    photos with deletion, and an upload modal that appends photos. */
module EventPhotos {
  import opened Common
  import opened Grouping

  datatype EventPhoto = EventPhoto(
    id: int, bookingId: nat, eventName: string, clientName: string,
    fileName: string, fileSize: string, uploadDate: string, url: string)

  datatype EventGroup = EventGroup(
    bookingId: nat, eventName: string, clientName: string,
    photos: seq<EventPhoto>, coverPhoto: EventPhoto)

  function BookingOf(p: EventPhoto): nat {
    p.bookingId
  }

  /** The photos of booking `k`, in upload order. */
  function PhotosOf(photos: seq<EventPhoto>, k: nat): seq<EventPhoto> {
    WithKey(photos, BookingOf, k)
  }

  // ---------------------------------------------------------------------
  // Grouping

  /** The event built from a group: its header fields are the cover photo's. */
  function EventOf(g: Group<EventPhoto>): (e: EventGroup)
    ensures e.bookingId == g.key && e.photos == g.items && e.coverPhoto == g.cover
    ensures e.eventName == g.cover.eventName && e.clientName == g.cover.clientName
  {
    EventGroup(g.key, g.cover.eventName, g.cover.clientName, g.items, g.cover)
  }

  /** One event of a correct grouping of `photos`. */
  ghost predicate IsEventOf(photos: seq<EventPhoto>, e: EventGroup) {
    e.photos == PhotosOf(photos, e.bookingId) && e.photos != [] &&
    e.coverPhoto == e.photos[0] &&
    e.eventName == e.coverPhoto.eventName && e.clientName == e.coverPhoto.clientName
  }

  /** What `groupPhotosByEvent` produces: one event per booking that has photos, in
      ascending booking order, each holding exactly that booking's photos in order
      and named after its first photo. */
  ghost predicate IsEventGrouping(photos: seq<EventPhoto>, events: seq<EventGroup>) {
    (forall i, j :: 0 <= i < j < |events| ==> events[i].bookingId < events[j].bookingId) &&
    (forall k :: HasKey(photos, BookingOf, k) <==> exists j :: 0 <= j < |events| && events[j].bookingId == k) &&
    (forall j :: 0 <= j < |events| ==> IsEventOf(photos, events[j]))
  }

  function EventSizes(events: seq<EventGroup>): nat {
    if events == [] then 0 else |events[0].photos| + EventSizes(events[1..])
  }

  method GroupPhotosByEvent(photos: seq<EventPhoto>) returns (events: seq<EventGroup>)
    ensures IsEventGrouping(photos, events)
    ensures EventSizes(events) == |photos| && |events| <= |photos|
  {
    var groups := GroupByKey(photos, BookingOf);
    events := seq(|groups|, j requires 0 <= j < |groups| => EventOf(groups[j]));
    GroupSizesSum(photos, BookingOf, groups);
    GroupsAtMostItems(photos, BookingOf, groups);
    EventsOfGrouping(photos, groups, events);
    EventSizesOfGroups(groups, events);
  }

  /** The events built group by group from a correct grouping form a correct event grouping. */
  lemma EventsOfGrouping(photos: seq<EventPhoto>, groups: seq<Group<EventPhoto>>, events: seq<EventGroup>)
    requires IsGrouping(photos, BookingOf, groups)
    requires |events| == |groups| && forall j :: 0 <= j < |groups| ==> events[j] == EventOf(groups[j])
    ensures IsEventGrouping(photos, events)
  {
    forall i, j | 0 <= i < j < |events| ensures events[i].bookingId < events[j].bookingId {
      assert KeysOf(groups)[i] < KeysOf(groups)[j];
    }
    forall k | HasKey(photos, BookingOf, k)
      ensures exists j :: 0 <= j < |events| && events[j].bookingId == k
    {
      var j :| 0 <= j < |groups| && KeysOf(groups)[j] == k;
      assert events[j].bookingId == k;
    }
    forall k | exists j :: 0 <= j < |events| && events[j].bookingId == k
      ensures HasKey(photos, BookingOf, k)
    {
      var j :| 0 <= j < |events| && events[j].bookingId == k;
      assert KeysOf(groups)[j] == k;
    }
    forall j | 0 <= j < |events| ensures IsEventOf(photos, events[j]) {
      assert events[j] == EventOf(groups[j]);
    }
  }

  lemma {:induction false} EventSizesOfGroups(groups: seq<Group<EventPhoto>>, events: seq<EventGroup>)
    requires |events| == |groups|
    requires forall j :: 0 <= j < |groups| ==> events[j].photos == groups[j].items
    ensures EventSizes(events) == SizeSum(groups)
  {
    if groups != [] {
      EventSizesOfGroups(groups[1..], events[1..]);
    }
  }

  /** The search box matches an event's name or its client's name. */
  predicate EventMatches(e: EventGroup, term: string) {
    MatchesTerm(e.eventName, term) || MatchesTerm(e.clientName, term)
  }

  function FilteredEvents(events: seq<EventGroup>, term: string): seq<EventGroup> {
    Filter(events, (e: EventGroup) => EventMatches(e, term))
  }

  /** The shown events keep their order and are exactly those matching the search;
      an empty search shows every event. */
  lemma FilteredEventsSpec(events: seq<EventGroup>, term: string)
    ensures IsSubsequence(FilteredEvents(events, term), events)
    ensures forall i :: 0 <= i < |FilteredEvents(events, term)| ==> EventMatches(FilteredEvents(events, term)[i], term)
    ensures forall i :: 0 <= i < |events| && EventMatches(events[i], term) ==> events[i] in FilteredEvents(events, term)
    ensures FilteredEvents(events, "") == events
  {
    FilterIsSubsequence(events, (e: EventGroup) => EventMatches(e, term));
    forall i | 0 <= i < |events|
      ensures EventMatches(events[i], "")
    {
      EmptyTermMatches(events[i].eventName);
    }
    FilterKeepsAll(events, (e: EventGroup) => EventMatches(e, ""));
  }

  // ---------------------------------------------------------------------
  // Deletion

  function IdIsNot(id: int): EventPhoto -> bool {
    (p: EventPhoto) => p.id != id
  }

  function BookingIsNot(k: nat): EventPhoto -> bool {
    (p: EventPhoto) => p.bookingId != k
  }

  /** `handleDeletePhoto`'s filter. */
  function WithoutPhoto(photos: seq<EventPhoto>, id: int): seq<EventPhoto> {
    Filter(photos, IdIsNot(id))
  }

  /** `handleDeleteEvent`'s filter. */
  function WithoutEvent(photos: seq<EventPhoto>, k: nat): seq<EventPhoto> {
    Filter(photos, BookingIsNot(k))
  }

  /** Deleting a photo removes every photo with that id and keeps the others in
      order, and takes that photo out of each event's photos. */
  lemma DeletePhotoSpec(photos: seq<EventPhoto>, id: int, k: nat)
    ensures IsSubsequence(WithoutPhoto(photos, id), photos)
    ensures forall i :: 0 <= i < |WithoutPhoto(photos, id)| ==> WithoutPhoto(photos, id)[i].id != id
    ensures forall i :: 0 <= i < |photos| && photos[i].id != id ==> photos[i] in WithoutPhoto(photos, id)
    ensures PhotosOf(WithoutPhoto(photos, id), k) == WithoutPhoto(PhotosOf(photos, k), id)
  {
    FilterIsSubsequence(photos, IdIsNot(id));
    WithKeyOfFilter(photos, BookingOf, k, IdIsNot(id));
  }

  /** An event none of whose photos has that id keeps all of them; an event all of
      whose photos have it disappears. */
  lemma DeletePhotoFromEvent(photos: seq<EventPhoto>, id: int, k: nat)
    ensures (forall i :: 0 <= i < |PhotosOf(photos, k)| ==> PhotosOf(photos, k)[i].id != id) ==>
              PhotosOf(WithoutPhoto(photos, id), k) == PhotosOf(photos, k)
    ensures (forall i :: 0 <= i < |PhotosOf(photos, k)| ==> PhotosOf(photos, k)[i].id == id) ==>
              !HasKey(WithoutPhoto(photos, id), BookingOf, k)
  {
    WithKeyOfFilter(photos, BookingOf, k, IdIsNot(id));
    var mine := PhotosOf(photos, k);
    if forall i :: 0 <= i < |mine| ==> mine[i].id != id {
      FilterKeepsAll(mine, IdIsNot(id));
    }
    if forall i :: 0 <= i < |mine| ==> mine[i].id == id {
      FilterKeepsNone(mine, IdIsNot(id));
      HasKeyIffWithKey(WithoutPhoto(photos, id), BookingOf, k);
    }
  }

  /** Every photo of `PhotosOf(photos, k)` belongs to booking `k`. */
  lemma PhotosOfBelong(photos: seq<EventPhoto>, k: nat)
    ensures forall i :: 0 <= i < |PhotosOf(photos, k)| ==> PhotosOf(photos, k)[i].bookingId == k
  {
    var mine := PhotosOf(photos, k);
    forall i | 0 <= i < |mine|
      ensures mine[i].bookingId == k
    {
      assert KeyIs(BookingOf, k)(mine[i]);
    }
  }

  /** Deleting an event removes every photo of its booking, so the event is gone. */
  lemma DeleteEventRemovesIt(photos: seq<EventPhoto>, k: nat)
    ensures IsSubsequence(WithoutEvent(photos, k), photos)
    ensures !HasKey(WithoutEvent(photos, k), BookingOf, k)
  {
    FilterIsSubsequence(photos, BookingIsNot(k));
    WithKeyOfFilter(photos, BookingOf, k, BookingIsNot(k));
    PhotosOfBelong(photos, k);
    FilterKeepsNone(PhotosOf(photos, k), BookingIsNot(k));
    HasKeyIffWithKey(WithoutEvent(photos, k), BookingOf, k);
  }

  /** Deleting an event leaves every other event's photos as they were. */
  lemma DeleteEventKeepsOthers(photos: seq<EventPhoto>, k: nat, other: nat)
    requires other != k
    ensures PhotosOf(WithoutEvent(photos, k), other) == PhotosOf(photos, other)
  {
    WithKeyOfFilter(photos, BookingOf, other, BookingIsNot(k));
    PhotosOfBelong(photos, other);
    FilterKeepsAll(PhotosOf(photos, other), BookingIsNot(k));
  }

  // ---------------------------------------------------------------------
  // Upload ids

  /** `Math.max(...ids)` over an integer list, where the empty list gives -Infinity. */
  datatype ExtInt = NegInfinity | Finite(n: int)

  function MaxExt(a: ExtInt, b: int): ExtInt {
    match a
    case NegInfinity => Finite(b)
    case Finite(n) => Finite(if n < b then b else n)
  }

  function MaxIdAsWritten(photos: seq<EventPhoto>): ExtInt {
    if photos == [] then NegInfinity else MaxExt(MaxIdAsWritten(photos[..|photos| - 1]), photos[|photos| - 1].id)
  }

  /** `-Infinity + n` is `-Infinity`. */
  function AddExt(a: ExtInt, n: int): ExtInt {
    match a
    case NegInfinity => NegInfinity
    case Finite(m) => Finite(m + n)
  }

  /** The ids the upload gives as written: `Math.max(...ids) + index + 1`. */
  function UploadIdsAsWritten(photos: seq<EventPhoto>, count: nat): seq<ExtInt> {
    seq(count, i requires 0 <= i < count => AddExt(MaxIdAsWritten(photos), i + 1))
  }

  /** Uploading two or more photos when no photo exists gives them all the same
      id, and not a number at all. */
  lemma UploadIntoEmptyCollides(count: nat)
    requires count >= 2
    ensures UploadIdsAsWritten([], count)[0] == UploadIdsAsWritten([], count)[1] == NegInfinity
  {
    var ids := UploadIdsAsWritten([], count);
    assert MaxIdAsWritten([]) == NegInfinity;
    assert ids[0] == AddExt(NegInfinity, 1);
    assert ids[1] == AddExt(NegInfinity, 2);
  }

  /** The largest id, or 0 for no photos. */
  function MaxIdOrZero(photos: seq<EventPhoto>): (m: int)
    ensures forall i :: 0 <= i < |photos| ==> photos[i].id <= m
    ensures photos != [] ==> exists i :: 0 <= i < |photos| && photos[i].id == m
    ensures photos == [] ==> m == 0
  {
    if photos == [] then 0
    else
      var rest := photos[..|photos| - 1];
      var last := photos[|photos| - 1];
      var m := MaxIdOrZero(rest);
      assert forall i :: 0 <= i < |rest| ==> photos[i] == rest[i];
      if rest == [] then last.id
      else if m < last.id then last.id else m
  }

  /** On a non-empty list the two agree. */
  lemma MaxIdAgrees(photos: seq<EventPhoto>)
    requires photos != []
    ensures MaxIdAsWritten(photos) == Finite(MaxIdOrZero(photos))
  {
    var rest := photos[..|photos| - 1];
    if rest != [] {
      MaxIdAgrees(rest);
    }
  }

  /** The id of the `i`-th uploaded photo. */
  function UploadId(photos: seq<EventPhoto>, i: nat): int {
    MaxIdOrZero(photos) + i + 1
  }

  /** Uploaded ids are pairwise distinct and differ from every existing id. */
  lemma UploadIdsFresh(photos: seq<EventPhoto>, count: nat)
    ensures forall i, j :: 0 <= i < j < count ==> UploadId(photos, i) != UploadId(photos, j)
    ensures forall i, j :: 0 <= i < count && 0 <= j < |photos| ==> UploadId(photos, i) != photos[j].id
    ensures photos != [] ==> forall i :: 0 <= i < count ==> AddExt(MaxIdAsWritten(photos), i + 1) == Finite(UploadId(photos, i))
  {
    if photos != [] {
      MaxIdAgrees(photos);
    }
  }

  /** The booking select's values and the names the upload gives each. */
  const BookingOptions: seq<string> := ["1", "2", "3"]

  function OptionBookingId(option: string): nat
    requires option in BookingOptions
  {
    if option == "1" then 1 else if option == "2" then 2 else 3
  }

  function OptionEventName(option: string): string {
    if option == "1" then "Sarah Johnson - Wedding"
    else if option == "2" then "Michael Chen - Corporate Event"
    else "Emily Rodriguez - Birthday"
  }

  function OptionClientName(option: string): string {
    if option == "1" then "Sarah Johnson"
    else if option == "2" then "Michael Chen"
    else "Emily Rodriguez"
  }

  /** The uploaded photos; `sizes` and `urls` are the file sizes as shown and the
      object URLs of the files. */
  function NewPhotos(photos: seq<EventPhoto>, option: string, files: seq<File>,
                     sizes: seq<string>, urls: seq<string>, today: string): (r: seq<EventPhoto>)
    requires option in BookingOptions && |sizes| == |files| && |urls| == |files|
    ensures |r| == |files|
    ensures forall i :: 0 <= i < |r| ==>
              r[i].id == UploadId(photos, i) && r[i].bookingId == OptionBookingId(option) &&
              r[i].fileName == files[i].name && r[i].uploadDate == today && r[i].url == urls[i] &&
              r[i].eventName == OptionEventName(option) && r[i].clientName == OptionClientName(option)
  {
    seq(|files|, i requires 0 <= i < |files| =>
      EventPhoto(UploadId(photos, i), OptionBookingId(option), OptionEventName(option), OptionClientName(option),
                 files[i].name, sizes[i], today, urls[i]))
  }

  /** After an upload the photo ids are still pairwise distinct when they were before. */
  lemma UploadKeepsIdsDistinct(photos: seq<EventPhoto>, added: seq<EventPhoto>)
    requires forall i, j :: 0 <= i < j < |photos| ==> photos[i].id != photos[j].id
    requires forall i :: 0 <= i < |added| ==> added[i].id == UploadId(photos, i)
    ensures forall i, j :: 0 <= i < j < |photos + added| ==> (photos + added)[i].id != (photos + added)[j].id
  {
    UploadIdsFresh(photos, |added|);
    var all := photos + added;
    forall i, j | 0 <= i < j < |all|
      ensures all[i].id != all[j].id
    {
      if j >= |photos| {
        if i >= |photos| {
          assert all[i].id == UploadId(photos, i - |photos|) && all[j].id == UploadId(photos, j - |photos|);
        } else {
          assert all[j].id == UploadId(photos, j - |photos|) && all[i] == photos[i];
        }
      }
    }
  }

  // ---------------------------------------------------------------------
  // Gallery index

  /** The index shown after the gallery's delete of the photo at `index` in an event
      of `n` photos: `None` closes the gallery. */
  function IndexAfterDelete(index: int, n: int): Option<int> {
    if n == 1 then None
    else if index >= n - 1 then Some(if index - 1 < 0 then 0 else index - 1)
    else Some(index)
  }

  /** The gallery closes exactly for a one-photo event; the last index steps back by
      one; any other index stays; the index stays within the event's photos. */
  lemma IndexAfterDeleteSpec(index: int, n: int)
    requires 0 <= index < n
    ensures IndexAfterDelete(index, n).None? <==> n == 1
    ensures n > 1 && index == n - 1 ==> IndexAfterDelete(index, n) == Some(n - 2)
    ensures n > 1 && index < n - 1 ==> IndexAfterDelete(index, n) == Some(index)
    ensures IndexAfterDelete(index, n).Some? ==> 0 <= IndexAfterDelete(index, n).value < n
  {
  }

  // ---------------------------------------------------------------------
  // Upload modal

  /** `files.filter((_, i) => i !== index)`. */
  function RemovedAt<T>(s: seq<T>, index: int): (r: seq<T>)
    ensures 0 <= index < |s| ==> |r| == |s| - 1
    ensures 0 <= index < |s| ==> forall j :: 0 <= j < |r| ==> r[j] == if j < index then s[j] else s[j + 1]
    ensures !(0 <= index < |s|) ==> r == s
  {
    if 0 <= index < |s| then s[..index] + s[index + 1..] else s
  }

  class UploadModal {
    var selectedBooking: string
    var files: seq<File>

    constructor ()
      ensures selectedBooking == "" && files == []
    {
      selectedBooking := "";
      files := [];
    }

    /** The booking select: the placeholder or one of the three bookings. */
    method SelectBooking(option: string)
      requires option == "" || option in BookingOptions
      modifies this
      ensures selectedBooking == option && files == old(files)
    {
      selectedBooking := option;
    }

    /** The file picker appends every chosen file. */
    method AddFiles(chosen: seq<File>)
      modifies this
      ensures files == old(files) + chosen && selectedBooking == old(selectedBooking)
    {
      if chosen != [] {
        files := files + chosen;
      }
    }

    /** A drop appends the dropped image files, in order. */
    method Drop(dropped: seq<File>)
      modifies this
      ensures files == old(files) + Filter(dropped, (f: File) => IsImageType(f.mimeType))
      ensures selectedBooking == old(selectedBooking)
    {
      if dropped != [] {
        files := files + Filter(dropped, (f: File) => IsImageType(f.mimeType));
      }
    }

    method RemoveFile(index: int)
      modifies this
      ensures files == RemovedAt(old(files), index) && selectedBooking == old(selectedBooking)
    {
      files := RemovedAt(files, index);
    }

    /** "Upload": hands the booking and the files over only with a booking chosen
        and at least one file. */
    method Submit() returns (r: Option<(string, seq<File>)>)
      ensures r.Some? <==> files != [] && selectedBooking != ""
      ensures r.Some? ==> r.value == (selectedBooking, files)
    {
      if |files| > 0 && selectedBooking != "" {
        r := Some((selectedBooking, files));
      } else {
        r := None;
      }
    }
  }

  // ---------------------------------------------------------------------
  // Page

  /** The photos screen with its gallery. The gallery shows `selectedEvent`, the
      event captured when it was opened, and `galleryIndex` indexes its photos. */
  class EventPhotosPage {
    var photos: seq<EventPhoto>
    var searchTerm: string
    var selectedEvent: Option<EventGroup>
    var galleryIndex: int
    var showUploadModal: bool

    ghost predicate Valid()
      reads this
    {
      selectedEvent.Some? ==> selectedEvent.value.photos != [] && 0 <= galleryIndex < |selectedEvent.value.photos|
    }

    /** `initial` is the page's built-in mock data. */
    constructor (initial: seq<EventPhoto>)
      ensures Valid()
      ensures photos == initial && searchTerm == "" && selectedEvent == None && !showUploadModal
    {
      photos := initial;
      searchTerm := "";
      selectedEvent := None;
      galleryIndex := 0;
      showUploadModal := false;
    }

    /** The events shown, with the "Total Photos" and "Events" figures. */
    method Summary() returns (shown: seq<EventGroup>, totalPhotos: nat, uniqueEvents: nat)
      ensures exists events :: IsEventGrouping(photos, events) && shown == FilteredEvents(events, searchTerm) &&
                               uniqueEvents == |events| && EventSizes(events) == totalPhotos
      ensures totalPhotos == |photos| && uniqueEvents <= totalPhotos
    {
      var events := GroupPhotosByEvent(photos);
      shown := FilteredEvents(events, searchTerm);
      totalPhotos := |photos|;
      uniqueEvents := |events|;
    }

    method Search(term: string)
      modifies this
      ensures searchTerm == term && photos == old(photos) && selectedEvent == old(selectedEvent)
      ensures galleryIndex == old(galleryIndex) && showUploadModal == old(showUploadModal)
    {
      searchTerm := term;
    }

    /** A click on an event card opens its gallery at the first photo. */
    method OpenEvent(e: EventGroup)
      requires IsEventOf(photos, e)
      modifies this
      ensures Valid() && selectedEvent == Some(e) && galleryIndex == 0
      ensures photos == old(photos) && searchTerm == old(searchTerm) && showUploadModal == old(showUploadModal)
    {
      selectedEvent := Some(e);
      galleryIndex := 0;
    }

    method CloseGallery()
      requires Valid()
      modifies this
      ensures Valid() && selectedEvent == None
      ensures photos == old(photos) && searchTerm == old(searchTerm) && showUploadModal == old(showUploadModal)
    {
      selectedEvent := None;
    }

    method GalleryNext()
      requires Valid() && selectedEvent.Some?
      modifies this
      ensures Valid() && galleryIndex == Next(old(galleryIndex), |old(selectedEvent).value.photos|)
      ensures photos == old(photos) && searchTerm == old(searchTerm) && selectedEvent == old(selectedEvent)
      ensures showUploadModal == old(showUploadModal)
    {
      NextPreviousInverse(galleryIndex, |selectedEvent.value.photos|);
      galleryIndex := Next(galleryIndex, |selectedEvent.value.photos|);
    }

    method GalleryPrevious()
      requires Valid() && selectedEvent.Some?
      modifies this
      ensures Valid() && galleryIndex == Previous(old(galleryIndex), |old(selectedEvent).value.photos|)
      ensures photos == old(photos) && searchTerm == old(searchTerm) && selectedEvent == old(selectedEvent)
      ensures showUploadModal == old(showUploadModal)
    {
      NextPreviousInverse(galleryIndex, |selectedEvent.value.photos|);
      galleryIndex := Previous(galleryIndex, |selectedEvent.value.photos|);
    }

    /** A click on a thumbnail shows that photo. */
    method GalleryShow(index: int)
      requires Valid() && selectedEvent.Some? && 0 <= index < |selectedEvent.value.photos|
      modifies this
      ensures Valid() && galleryIndex == index
      ensures photos == old(photos) && searchTerm == old(searchTerm) && selectedEvent == old(selectedEvent)
      ensures showUploadModal == old(showUploadModal)
    {
      galleryIndex := index;
    }

    /** The gallery's "Delete Photo": after the gallery's own question, the page asks
        again before deleting; the index is adjusted, or the gallery closed, on the
        gallery's answer alone. */
    method GalleryDelete(galleryConfirmed: bool, pageConfirmed: bool)
      requires Valid() && selectedEvent.Some?
      modifies this
      ensures Valid()
      ensures var e := old(selectedEvent).value;
              var id := e.photos[old(galleryIndex)].id;
              photos == (if galleryConfirmed && pageConfirmed then WithoutPhoto(old(photos), id) else old(photos)) &&
              (galleryConfirmed ==> match IndexAfterDelete(old(galleryIndex), |e.photos|)
                                    case None => selectedEvent == None
                                    case Some(j) => selectedEvent == old(selectedEvent) && galleryIndex == j) &&
              (!galleryConfirmed ==> selectedEvent == old(selectedEvent) && galleryIndex == old(galleryIndex))
      ensures searchTerm == old(searchTerm) && showUploadModal == old(showUploadModal)
    {
      if galleryConfirmed {
        var e := selectedEvent.value;
        var id := e.photos[galleryIndex].id;
        if pageConfirmed {
          photos := WithoutPhoto(photos, id);
        }
        IndexAfterDeleteSpec(galleryIndex, |e.photos|);
        match IndexAfterDelete(galleryIndex, |e.photos|)
        case None => selectedEvent := None;
        case Some(j) => galleryIndex := j;
      }
    }

    /** The gallery's "Delete All Event Photos": after both questions, every photo of
        the event's booking is deleted and the gallery closes. */
    method GalleryDeleteEvent(galleryConfirmed: bool, pageConfirmed: bool)
      requires Valid() && selectedEvent.Some?
      modifies this
      ensures Valid()
      ensures galleryConfirmed && pageConfirmed ==>
                photos == WithoutEvent(old(photos), old(selectedEvent).value.bookingId) && selectedEvent == None
      ensures !(galleryConfirmed && pageConfirmed) ==>
                photos == old(photos) && selectedEvent == old(selectedEvent) && galleryIndex == old(galleryIndex)
      ensures searchTerm == old(searchTerm) && showUploadModal == old(showUploadModal)
    {
      if galleryConfirmed && pageConfirmed {
        photos := WithoutEvent(photos, selectedEvent.value.bookingId);
        selectedEvent := None;
      }
    }

    method OpenUpload()
      requires Valid()
      modifies this
      ensures Valid() && showUploadModal
      ensures photos == old(photos) && searchTerm == old(searchTerm) && selectedEvent == old(selectedEvent)
      ensures galleryIndex == old(galleryIndex)
    {
      showUploadModal := true;
    }

    method CloseUpload()
      requires Valid()
      modifies this
      ensures Valid() && !showUploadModal
      ensures photos == old(photos) && searchTerm == old(searchTerm) && selectedEvent == old(selectedEvent)
      ensures galleryIndex == old(galleryIndex)
    {
      showUploadModal := false;
    }

    /** The modal's `onUpload`: the new photos are appended and the modal closes. */
    method Upload(option: string, files: seq<File>, sizes: seq<string>, urls: seq<string>, today: string)
      requires Valid() && showUploadModal
      requires option in BookingOptions && files != [] && |sizes| == |files| && |urls| == |files|
      modifies this
      ensures Valid() && !showUploadModal
      ensures photos == old(photos) + NewPhotos(old(photos), option, files, sizes, urls, today)
      ensures (forall i, j :: 0 <= i < j < |old(photos)| ==> old(photos)[i].id != old(photos)[j].id) ==>
                forall i, j :: 0 <= i < j < |photos| ==> photos[i].id != photos[j].id
      ensures searchTerm == old(searchTerm) && selectedEvent == old(selectedEvent) && galleryIndex == old(galleryIndex)
    {
      var added := NewPhotos(photos, option, files, sizes, urls, today);
      if forall i, j :: 0 <= i < j < |photos| ==> photos[i].id != photos[j].id {
        UploadKeepsIdsDistinct(photos, added);
      }
      photos := photos + added;
      showUploadModal := false;
    }
  }
}
