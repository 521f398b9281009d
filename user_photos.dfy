/** The customer's photos screen: the photos of their events, grouped into one
    event per booking and dated by the first photo's upload date, with totals and
    a gallery that steps circularly through one event's photos. */
module UserPhotos {
  import opened Common
  import opened Grouping

  datatype UserPhoto = UserPhoto(
    id: int, bookingId: nat, eventName: string, fileName: string,
    fileSize: string, uploadDate: string, url: string)

  datatype PhotoEvent = PhotoEvent(
    bookingId: nat, eventName: string, eventDate: string,
    photos: seq<UserPhoto>, coverPhoto: UserPhoto)

  function BookingOf(p: UserPhoto): nat {
    p.bookingId
  }

  /** The event built from a group: its name and date are the cover photo's. */
  function EventOf(g: Group<UserPhoto>): (e: PhotoEvent)
    ensures e.bookingId == g.key && e.photos == g.items && e.coverPhoto == g.cover
    ensures e.eventName == g.cover.eventName && e.eventDate == g.cover.uploadDate
  {
    PhotoEvent(g.key, g.cover.eventName, g.cover.uploadDate, g.items, g.cover)
  }

  /** One event of a correct grouping of `photos`. */
  ghost predicate IsEventOf(photos: seq<UserPhoto>, e: PhotoEvent) {
    e.photos == WithKey(photos, BookingOf, e.bookingId) && e.photos != [] &&
    e.coverPhoto == e.photos[0] &&
    e.eventName == e.coverPhoto.eventName && e.eventDate == e.coverPhoto.uploadDate
  }

  /** One event per booking that has photos, in ascending booking order, each with
      exactly that booking's photos in order, dated and named by its first photo. */
  ghost predicate IsEventGrouping(photos: seq<UserPhoto>, events: seq<PhotoEvent>) {
    (forall i, j :: 0 <= i < j < |events| ==> events[i].bookingId < events[j].bookingId) &&
    (forall k :: HasKey(photos, BookingOf, k) <==> exists j :: 0 <= j < |events| && events[j].bookingId == k) &&
    (forall j :: 0 <= j < |events| ==> IsEventOf(photos, events[j]))
  }

  function EventSizes(events: seq<PhotoEvent>): nat {
    if events == [] then 0 else |events[0].photos| + EventSizes(events[1..])
  }

  lemma {:induction false} EventSizesOfGroups(groups: seq<Group<UserPhoto>>, events: seq<PhotoEvent>)
    requires |events| == |groups|
    requires forall j :: 0 <= j < |groups| ==> events[j].photos == groups[j].items
    ensures EventSizes(events) == SizeSum(groups)
  {
    if groups != [] {
      EventSizesOfGroups(groups[1..], events[1..]);
    }
  }

  method GroupPhotosByEvent(photos: seq<UserPhoto>) returns (events: seq<PhotoEvent>)
    ensures IsEventGrouping(photos, events)
    ensures EventSizes(events) == |photos| && |events| <= |photos|
  {
    var groups := GroupByKey(photos, BookingOf);
    events := seq(|groups|, j requires 0 <= j < |groups| => EventOf(groups[j]));
    GroupSizesSum(photos, BookingOf, groups);
    GroupsAtMostItems(photos, BookingOf, groups);
    EventsOfGrouping(photos, groups, events);
    EventSizesOfGroups(groups, events);
  }

  /** The events built group by group from a correct grouping form a correct event grouping. */
  lemma EventsOfGrouping(photos: seq<UserPhoto>, groups: seq<Group<UserPhoto>>, events: seq<PhotoEvent>)
    requires IsGrouping(photos, BookingOf, groups)
    requires |events| == |groups| && forall j :: 0 <= j < |groups| ==> events[j] == EventOf(groups[j])
    ensures IsEventGrouping(photos, events)
  {
    forall i, j | 0 <= i < j < |events| ensures events[i].bookingId < events[j].bookingId {
      assert KeysOf(groups)[i] < KeysOf(groups)[j];
    }
    forall k | HasKey(photos, BookingOf, k)
      ensures exists j :: 0 <= j < |events| && events[j].bookingId == k
    {
      var j :| 0 <= j < |groups| && KeysOf(groups)[j] == k;
      assert events[j].bookingId == k;
    }
    forall k | exists j :: 0 <= j < |events| && events[j].bookingId == k
      ensures HasKey(photos, BookingOf, k)
    {
      var j :| 0 <= j < |events| && events[j].bookingId == k;
      assert KeysOf(groups)[j] == k;
    }
    forall j | 0 <= j < |events| ensures IsEventOf(photos, events[j]) {
      assert events[j] == EventOf(groups[j]);
    }
  }

  /** The screen with its gallery. `photos` has no setter, so it is a constant;
      the gallery shows `selectedEvent` and `galleryIndex` indexes its photos. */
  class UserPhotosPage {
    const photos: seq<UserPhoto>
    var selectedEvent: Option<PhotoEvent>
    var galleryIndex: int

    ghost predicate Valid()
      reads this
    {
      selectedEvent.Some? ==>
        IsEventOf(photos, selectedEvent.value) && 0 <= galleryIndex < |selectedEvent.value.photos|
    }

    /** `initial` is the page's built-in mock data. */
    constructor (initial: seq<UserPhoto>)
      ensures Valid() && photos == initial && selectedEvent == None
    {
      photos := initial;
      selectedEvent := None;
      galleryIndex := 0;
    }

    /** The events shown, with the "Total Photos" and "Events" figures. */
    method Summary() returns (events: seq<PhotoEvent>, totalPhotos: nat, totalEvents: nat)
      ensures IsEventGrouping(photos, events) && totalEvents == |events|
      ensures totalPhotos == |photos| && EventSizes(events) == totalPhotos && totalEvents <= totalPhotos
    {
      events := GroupPhotosByEvent(photos);
      totalPhotos := |photos|;
      totalEvents := |events|;
    }

    /** A click on an event card opens a fresh gallery at its first photo. */
    method OpenEvent(e: PhotoEvent)
      requires IsEventOf(photos, e)
      modifies this
      ensures Valid() && selectedEvent == Some(e) && galleryIndex == 0
    {
      selectedEvent := Some(e);
      galleryIndex := 0;
    }

    method CloseGallery()
      modifies this
      ensures Valid() && selectedEvent == None
    {
      selectedEvent := None;
    }

    method GalleryNext()
      requires Valid() && selectedEvent.Some?
      modifies this
      ensures Valid() && selectedEvent == old(selectedEvent)
      ensures galleryIndex == Next(old(galleryIndex), |selectedEvent.value.photos|)
    {
      NextPreviousInverse(galleryIndex, |selectedEvent.value.photos|);
      galleryIndex := Next(galleryIndex, |selectedEvent.value.photos|);
    }

    method GalleryPrevious()
      requires Valid() && selectedEvent.Some?
      modifies this
      ensures Valid() && selectedEvent == old(selectedEvent)
      ensures galleryIndex == Previous(old(galleryIndex), |selectedEvent.value.photos|)
    {
      NextPreviousInverse(galleryIndex, |selectedEvent.value.photos|);
      galleryIndex := Previous(galleryIndex, |selectedEvent.value.photos|);
    }

    /** A click on a thumbnail shows that photo. */
    method GalleryShow(index: int)
      requires Valid() && selectedEvent.Some? && 0 <= index < |selectedEvent.value.photos|
      modifies this
      ensures Valid() && selectedEvent == old(selectedEvent) && galleryIndex == index
    {
      galleryIndex := index;
    }
  }
}
