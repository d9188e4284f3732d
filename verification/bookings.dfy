/** Reservations as the admin and provider booking pages hold them in memory,
    with the list edits both pages make after a successful backend call. */
module Bookings {
  import opened Wrappers
  import opened Seqs

  /** A reservation's lifecycle state. */
  datatype BookingStatus = Pending | Confirmed | Cancelled | Completed

  function BookingStatusName(st: BookingStatus): string {
    match st
    case Pending => "pending"
    case Confirmed => "confirmed"
    case Cancelled => "cancelled"
    case Completed => "completed"
  }

  function ParseBookingStatus(s: string): (r: Option<BookingStatus>)
    ensures r.Some? ==> BookingStatusName(r.value) == s
  {
    if s == "pending" then Some(Pending)
    else if s == "confirmed" then Some(Confirmed)
    else if s == "cancelled" then Some(Cancelled)
    else if s == "completed" then Some(Completed)
    else None
  }

  /** A string is a reservation state iff it is one of the four stored names. */
  lemma BookingStatusNameRoundTrip(st: BookingStatus, s: string)
    ensures ParseBookingStatus(s) == Some(st) <==> BookingStatusName(st) == s
    ensures ParseBookingStatus(s).None? <==> s !in {"pending", "confirmed", "cancelled", "completed"}
  {
  }

  /** Cancelled and completed reservations accept no further status change. */
  predicate Terminal(st: BookingStatus) {
    st == Cancelled || st == Completed
  }

  /** A reservation row. The joined listing name/type and customer e-mail are
      display data and are not part of the model. */
  datatype Booking = Booking(
    id: string,
    serviceId: string,
    userId: string,
    customerName: string,
    phoneNumber: string,
    bookingDate: string,
    startTime: string,
    endTime: string,
    status: BookingStatus,
    totalPrice: int,
    specialRequests: Option<string>)

  /** The local update after a status change: the bookings with the given id
      get the new status, and nothing else changes. */
  function SetStatus(bs: seq<Booking>, id: string, st: BookingStatus): (r: seq<Booking>)
    ensures |r| == |bs|
    ensures forall i :: 0 <= i < |bs| ==> r[i] == bs[i].(status := r[i].status)
    ensures forall i :: 0 <= i < |bs| && bs[i].id == id ==> r[i].status == st
    ensures forall i :: 0 <= i < |bs| && bs[i].id != id ==> r[i] == bs[i]
  {
    seq(|bs|, i requires 0 <= i < |bs| => if bs[i].id == id then bs[i].(status := st) else bs[i])
  }

  /** Repeating a status change changes nothing more, and a change for an id
      that is not on the page leaves the list as it is. */
  lemma SetStatusIdempotent(bs: seq<Booking>, id: string, st: BookingStatus)
    ensures SetStatus(SetStatus(bs, id, st), id, st) == SetStatus(bs, id, st)
    ensures (forall i :: 0 <= i < |bs| ==> bs[i].id != id) ==> SetStatus(bs, id, st) == bs
  {
  }

  /** The local update after a delete: every booking with the given id goes,
      the others stay in their order. */
  function DeleteBooking(bs: seq<Booking>, id: string): (r: seq<Booking>)
    ensures forall b :: b in r <==> b in bs && b.id != id
    ensures |r| == |bs| - Count(bs, (b: Booking) => b.id == id)
  {
    DeleteCount(bs, id);
    Filter(bs, (b: Booking) => b.id != id)
  }

  lemma {:induction false} DeleteCount(bs: seq<Booking>, id: string)
    ensures |Filter(bs, (b: Booking) => b.id != id)| == |bs| - Count(bs, (b: Booking) => b.id == id)
    decreases |bs|
  {
    if |bs| > 0 {
      DeleteCount(bs[1..], id);
    }
  }

  /** Deleting keeps the survivors in their original order. */
  lemma DeleteKeepsOrder(bs: seq<Booking>, id: string)
    ensures IsSubsequence(DeleteBooking(bs, id), bs)
  {
    FilterIsSubsequence(bs, (b: Booking) => b.id != id);
  }

  /** The status filter: `"all"` shows every booking, any other value the
      bookings whose stored status name equals it. */
  function FilterBookings(bs: seq<Booking>, filter: string): (r: seq<Booking>)
    ensures filter == "all" ==> r == bs
    ensures filter != "all" ==> forall b :: b in r <==> b in bs && BookingStatusName(b.status) == filter
    ensures forall b :: multiset(r)[b] == if filter == "all" || BookingStatusName(b.status) == filter then multiset(bs)[b] else 0
  {
    var keep := (b: Booking) => filter == "all" || BookingStatusName(b.status) == filter;
    FilterMultiset(bs, keep);
    if filter == "all" then FilterKeepsAll(bs, keep); Filter(bs, keep)
    else Filter(bs, keep)
  }

  /** Filtering by a status keeps exactly the bookings in that status, in
      their original order; an unknown filter value keeps none. */
  lemma FilterByStatus(bs: seq<Booking>, st: BookingStatus, other: string)
    requires other != "all" && ParseBookingStatus(other).None?
    ensures forall b :: b in FilterBookings(bs, BookingStatusName(st)) <==> b in bs && b.status == st
    ensures IsSubsequence(FilterBookings(bs, BookingStatusName(st)), bs)
    ensures FilterBookings(bs, other) == []
  {
    var name := BookingStatusName(st);
    assert name != "all";
    forall b: Booking
      ensures BookingStatusName(b.status) == name <==> b.status == st
    {
      BookingStatusNameRoundTrip(b.status, name);
      BookingStatusNameRoundTrip(st, name);
    }
    assert IsSubsequence(FilterBookings(bs, name), bs) by {
      FilterIsSubsequence(bs, (b: Booking) => name == "all" || BookingStatusName(b.status) == name);
    }
    assert FilterBookings(bs, other) == [] by {
      forall b: Booking
        ensures BookingStatusName(b.status) != other
      {
        BookingStatusNameRoundTrip(b.status, other);
      }
      FilterKeepsNone(bs, (b: Booking) => other == "all" || BookingStatusName(b.status) == other);
    }
  }
}
