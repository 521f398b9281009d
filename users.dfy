/** The administrator's users screen: a read-only list of customers with a search on
    name or email, their initials as avatar, and a details view listing the
    bookings of one customer. */
module Users {
  import opened Common

  datatype AccountStatus = Active | Inactive

  datatype User = User(
    id: int, name: string, email: string, phone: string, registeredDate: string,
    totalBookings: int, totalSpent: real, status: AccountStatus)

  datatype UserBooking = UserBooking(
    id: int, userId: int, eventType: string, eventDate: string, amount: real, status: BookingStatus)

  /** The booking history the details view draws from. */
  const HistoryBookings: seq<UserBooking> := [
    UserBooking(1, 1, "Wedding Reception", "2026-02-15", 850.0, Confirmed),
    UserBooking(2, 1, "Anniversary", "2025-12-20", 750.0, Completed),
    UserBooking(3, 2, "Corporate Event", "2026-02-18", 650.0, BookingPending)
  ]

  predicate UserMatches(u: User, term: string) {
    MatchesTerm(u.name, term) || MatchesTerm(u.email, term)
  }

  function FilteredUsers(users: seq<User>, term: string): seq<User> {
    Filter(users, (u: User) => UserMatches(u, term))
  }

  /** The shown users keep their order and are exactly those whose name or email
      contains the term, ignoring case; an empty search shows everyone. */
  lemma FilteredUsersSpec(users: seq<User>, term: string)
    ensures IsSubsequence(FilteredUsers(users, term), users)
    ensures forall i :: 0 <= i < |FilteredUsers(users, term)| ==> UserMatches(FilteredUsers(users, term)[i], term)
    ensures forall i :: 0 <= i < |users| && UserMatches(users[i], term) ==> users[i] in FilteredUsers(users, term)
    ensures FilteredUsers(users, "") == users
  {
    FilterIsSubsequence(users, (u: User) => UserMatches(u, term));
    forall i | 0 <= i < |users|
      ensures UserMatches(users[i], "")
    {
      EmptyTermMatches(users[i].name);
    }
    FilterKeepsAll(users, (u: User) => UserMatches(u, ""));
  }

  function BookingsOfUser(bookings: seq<UserBooking>, u: User): seq<UserBooking> {
    Filter(bookings, (b: UserBooking) => b.userId == u.id)
  }

  /** A user's history is exactly the bookings carrying their id, in order. */
  lemma BookingsOfUserSpec(bookings: seq<UserBooking>, u: User)
    ensures IsSubsequence(BookingsOfUser(bookings, u), bookings)
    ensures forall i :: 0 <= i < |BookingsOfUser(bookings, u)| ==> BookingsOfUser(bookings, u)[i].userId == u.id
    ensures forall i :: 0 <= i < |bookings| && bookings[i].userId == u.id ==> bookings[i] in BookingsOfUser(bookings, u)
  {
    FilterIsSubsequence(bookings, (b: UserBooking) => b.userId == u.id);
  }

  /** `users` has no setter, so the list is a constant of the page. */
  class UsersPage {
    const users: seq<User>
    var searchTerm: string
    var selectedUser: Option<User>

    /** `initial` is the page's built-in mock data. */
    constructor (initial: seq<User>)
      ensures users == initial && searchTerm == "" && selectedUser == None
    {
      users := initial;
      searchTerm := "";
      selectedUser := None;
    }

    function Shown(): seq<User>
      reads this
    {
      FilteredUsers(users, searchTerm)
    }

    /** The search box, shown only in the list view. */
    method Search(term: string)
      requires selectedUser == None
      modifies this
      ensures searchTerm == term && selectedUser == old(selectedUser)
    {
      searchTerm := term;
    }

    /** A card's "View Details", shown only in the list view. */
    method ViewUser(u: User)
      requires selectedUser == None && u in Shown()
      modifies this
      ensures selectedUser == Some(u) && u in users && searchTerm == old(searchTerm)
    {
      selectedUser := Some(u);
    }

    /** The details view's booking history for the selected user. */
    method History() returns (r: seq<UserBooking>)
      requires selectedUser.Some?
      ensures forall i :: 0 <= i < |r| ==> r[i].userId == selectedUser.value.id && r[i] in HistoryBookings
      ensures forall i :: 0 <= i < |HistoryBookings| && HistoryBookings[i].userId == selectedUser.value.id ==>
                HistoryBookings[i] in r
      ensures IsSubsequence(r, HistoryBookings)
    {
      r := BookingsOfUser(HistoryBookings, selectedUser.value);
      BookingsOfUserSpec(HistoryBookings, selectedUser.value);
    }

    method Back()
      modifies this
      ensures selectedUser == None && searchTerm == old(searchTerm)
    {
      selectedUser := None;
    }
  }
}
