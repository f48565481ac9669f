/** The professional's booking list (components/dashboard/booking-management.tsx):
    status changes by id, the status tabs with their counts, and the status
    changes the per-booking menu offers. The 12-hour time shown on each card
    is `Clock.FormatTime`. */
module BookingManagement {
  import opened Wrappers
  import opened Seqs

  datatype Status = Pending | Confirmed | Cancelled | Completed

  /** The status as the string the source compares against. */
  function StatusName(s: Status): string {
    match s
    case Pending => "pending"
    case Confirmed => "confirmed"
    case Cancelled => "cancelled"
    case Completed => "completed"
  }

  /** A booking card. Dates are epoch milliseconds, the price is in cents. */
  datatype Booking = Booking(id: string, clientName: string, clientEmail: string,
                             clientPhone: string, service: string, date: int, time: string,
                             duration: int, price: int, status: Status,
                             notes: Option<string>, createdAt: int)

  /** The list after `handleStatusChange(id, status)`: each booking whose id
      matches gets the new status and nothing else changes. */
  function SetStatus(bookings: seq<Booking>, id: string, status: Status): seq<Booking> {
    MapWhere(bookings, (b: Booking) => b.id == id, (b: Booking) => b.(status := status))
  }

  /** An id no booking carries changes nothing. */
  lemma SetStatusUnknownId(bookings: seq<Booking>, id: string, status: Status)
    requires forall i :: 0 <= i < |bookings| ==> bookings[i].id != id
    ensures SetStatus(bookings, id, status) == bookings
  {
    MapWhereNoMatch(bookings, (b: Booking) => b.id == id, (b: Booking) => b.(status := status));
  }

  /** Only the status field moves: ids, clients, times and prices stay, in
      the same order, and the matching bookings now carry the new status. */
  lemma SetStatusKeepsRest(bookings: seq<Booking>, id: string, status: Status, i: nat)
    requires i < |bookings|
    ensures SetStatus(bookings, id, status)[i].(status := bookings[i].status) == bookings[i]
    ensures bookings[i].id == id ==> SetStatus(bookings, id, status)[i].status == status
    ensures bookings[i].id != id ==> SetStatus(bookings, id, status)[i] == bookings[i]
  {
  }

  /** The same change twice is the change once. */
  lemma SetStatusIdempotent(bookings: seq<Booking>, id: string, status: Status)
    ensures SetStatus(SetStatus(bookings, id, status), id, status) == SetStatus(bookings, id, status)
  {
  }

  /** `filterBookings(status)`: everything for `undefined`, "" or "all",
      otherwise the bookings whose status has that name. */
  function FilterBookings(bookings: seq<Booking>, status: Option<string>): seq<Booking> {
    if status.None? || status.value == "" || status.value == "all" then bookings
    else Filter(bookings, (b: Booking) => StatusName(b.status) == status.value)
  }

  /** The filter for one status keeps exactly that status's bookings, in
      order; "all" keeps the whole list. */
  lemma FilterBookingsMeaning(bookings: seq<Booking>, s: Status)
    ensures FilterBookings(bookings, Some("all")) == bookings
    ensures FilterBookings(bookings, None) == bookings
    ensures IsSubsequence(FilterBookings(bookings, Some(StatusName(s))), bookings)
    ensures forall b :: b in FilterBookings(bookings, Some(StatusName(s))) <==> b in bookings && b.status == s
  {
    var f := FilterBookings(bookings, Some(StatusName(s)));
    var keep := (b: Booking) => StatusName(b.status) == StatusName(s);
    FilterIsSubsequence(bookings, keep);
    FilterMembers(bookings, keep);
  }

  /** A filter on a name that is not a status (and not "all") is empty. */
  lemma FilterUnknownStatus(bookings: seq<Booking>, name: string)
    requires name != "" && name != "all"
    requires forall s: Status :: StatusName(s) != name
    ensures FilterBookings(bookings, Some(name)) == []
  {
    FilterKeepsNone(bookings, (b: Booking) => StatusName(b.status) == name);
  }

  /** The number of bookings with a status. */
  function CountStatus(bookings: seq<Booking>, s: Status): (n: nat)
    ensures n <= |bookings|
    decreases |bookings|
  {
    if bookings == [] then 0
    else (if bookings[0].status == s then 1 else 0) + CountStatus(bookings[1..], s)
  }

  /** The four status counts add up to the length of the list. */
  lemma {:induction false} CountsPartition(bookings: seq<Booking>)
    ensures CountStatus(bookings, Pending) + CountStatus(bookings, Confirmed)
          + CountStatus(bookings, Cancelled) + CountStatus(bookings, Completed) == |bookings|
    decreases |bookings|
  {
    if bookings != [] {
      CountsPartition(bookings[1..]);
    }
  }

  /** The size of a status filter is that status's count. */
  lemma {:induction false} FilterSizeIsCount(bookings: seq<Booking>, s: Status)
    ensures |Filter(bookings, (b: Booking) => StatusName(b.status) == StatusName(s))| == CountStatus(bookings, s)
    decreases |bookings|
  {
    if bookings != [] {
      FilterSizeIsCount(bookings[1..], s);
      assert StatusName(bookings[0].status) == StatusName(s) <==> bookings[0].status == s;
    }
  }

  datatype TabCounts = TabCounts(all: nat, pending: nat, confirmed: nat, completed: nat)

  /** `getTabCounts()`: every count is the size of its tab's list, and the
      three status tabs together never exceed "all" (cancelled bookings have
      no tab of their own). */
  function GetTabCounts(bookings: seq<Booking>): (c: TabCounts)
    ensures c.all == |FilterBookings(bookings, Some("all"))|
    ensures c.pending == |FilterBookings(bookings, Some("pending"))|
    ensures c.confirmed == |FilterBookings(bookings, Some("confirmed"))|
    ensures c.completed == |FilterBookings(bookings, Some("completed"))|
    ensures c.pending + c.confirmed + c.completed <= c.all
  {
    FilterSizeIsCount(bookings, Pending);
    FilterSizeIsCount(bookings, Confirmed);
    FilterSizeIsCount(bookings, Completed);
    CountsPartition(bookings);
    TabCounts(|bookings|,
              |Filter(bookings, (b: Booking) => StatusName(b.status) == "pending")|,
              |Filter(bookings, (b: Booking) => StatusName(b.status) == "confirmed")|,
              |Filter(bookings, (b: Booking) => StatusName(b.status) == "completed")|)
  }

  /** The status changes the booking's menu offers: confirm or cancel a
      pending booking, complete or cancel a confirmed one, nothing else. */
  function Offered(s: Status): seq<Status> {
    match s
    case Pending => [Confirmed, Cancelled]
    case Confirmed => [Completed, Cancelled]
    case Cancelled => []
    case Completed => []
  }

  /** How far along the lifecycle a status is. */
  function Stage(s: Status): nat {
    match s
    case Pending => 0
    case Confirmed => 1
    case Cancelled => 2
    case Completed => 2
  }

  /** Every offered change moves forward; completed and cancelled are final. */
  lemma OfferedMovesForward(s: Status, t: Status)
    ensures t in Offered(s) ==> Stage(s) < Stage(t)
    ensures Offered(s) == [] <==> s == Cancelled || s == Completed
    ensures Pending !in Offered(s)
  {
  }

  /** A history of statuses in which each change was offered by the menu. */
  predicate MenuHistory(h: seq<Status>) {
    forall i :: 0 < i < |h| ==> h[i] in Offered(h[i - 1])
  }

  /** Through the menu a booking changes status at most twice and never
      returns to an earlier status. */
  lemma {:induction false} MenuHistoryShort(h: seq<Status>)
    requires MenuHistory(h)
    ensures |h| <= 3
    ensures forall i, j :: 0 <= i < j < |h| ==> Stage(h[i]) < Stage(h[j])
  {
    MenuHistoryClimbs(h);
    if h != [] {
      assert Stage(h[0]) + (|h| - 1) <= Stage(h[|h| - 1]) <= 2;
    }
  }

  /** Along a menu history each change raises the stage by at least one. */
  lemma {:induction false} MenuHistoryClimbs(h: seq<Status>)
    requires MenuHistory(h)
    ensures forall i, j :: 0 <= i < j < |h| ==> Stage(h[i]) + (j - i) <= Stage(h[j])
    decreases |h|
  {
    if |h| > 1 {
      var t := h[1..];
      assert MenuHistory(t) by {
        forall i | 0 < i < |t| ensures t[i] in Offered(t[i - 1]) {
          assert t[i] == h[i + 1] && t[i - 1] == h[i];
        }
      }
      MenuHistoryClimbs(t);
      OfferedMovesForward(h[0], h[1]);
      forall i, j | 0 <= i < j < |h| ensures Stage(h[i]) + (j - i) <= Stage(h[j]) {
        if i > 0 {
          assert Stage(t[i - 1]) + (j - i) <= Stage(t[j - 1]);
        } else if j > 1 {
          assert Stage(t[0]) + (j - 1) <= Stage(t[j - 1]);
        }
      }
    }
  }

  /** The dashboard's booking list. */
  class Board {
    var bookings: seq<Booking>
    var activeTab: string

    constructor (initial: seq<Booking>)
      ensures bookings == initial && activeTab == "all"
    {
      bookings := initial;
      activeTab := "all";
    }

    /** The cards the active tab shows. */
    function Visible(): seq<Booking>
      reads this
    {
      FilterBookings(bookings, if activeTab == "all" then None else Some(activeTab))
    }

    /** `handleStatusChange(bookingId, newStatus)`. */
    method HandleStatusChange(bookingId: string, newStatus: Status)
      modifies this
      ensures bookings == SetStatus(old(bookings), bookingId, newStatus)
      ensures activeTab == old(activeTab)
    {
      bookings := SetStatus(bookings, bookingId, newStatus);
    }

    /** A menu item on card `k`: only the changes the menu offers for that
        card's status; each moves the card forward in its lifecycle. */
    method ChooseMenuItem(k: nat, choice: Status)
      requires k < |bookings| && choice in Offered(bookings[k].status)
      modifies this
      ensures bookings == SetStatus(old(bookings), old(bookings[k].id), choice)
      ensures Stage(bookings[k].status) > Stage(old(bookings[k].status))
      ensures activeTab == old(activeTab)
    {
      OfferedMovesForward(bookings[k].status, choice);
      HandleStatusChange(bookings[k].id, choice);
    }
  }
}
