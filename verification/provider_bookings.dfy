/** The provider's booking page: a status selector per booking, locked once the
    booking is terminal, and the chip colour of each status. */
module ProviderBookings {
  import opened Wrappers
  import opened Bookings
  import BookingAdmin

  /** The selector of a booking is disabled in the terminal states. */
  predicate SelectorDisabled(st: BookingStatus) {
    st == Cancelled || st == Completed
  }

  /** The selector lists all four statuses, so while it is enabled any of them
      may be chosen. */
  predicate ProviderMay(from: BookingStatus, to: BookingStatus) {
    !SelectorDisabled(from)
  }

  lemma SelectorDisabledIffTerminal(st: BookingStatus)
    ensures SelectorDisabled(st) <==> Terminal(st)
  {
  }

  /** Every change the admin page allows, the provider page allows too; the
      provider page also allows skipping confirmation and moving back to
      pending, which the admin page does not. */
  lemma AdminRulesWithinProviderRules(from: BookingStatus, to: BookingStatus)
    ensures BookingAdmin.AdminMay(from, to) ==> ProviderMay(from, to)
    ensures ProviderMay(Pending, Completed) && !BookingAdmin.AdminMay(Pending, Completed)
    ensures ProviderMay(Confirmed, Pending) && !BookingAdmin.AdminMay(Confirmed, Pending)
  {
  }

  /** Neither page changes a terminal booking's status. */
  lemma TerminalIsFinal(from: BookingStatus, to: BookingStatus)
    requires Terminal(from)
    ensures !ProviderMay(from, to) && !BookingAdmin.AdminMay(from, to)
  {
  }

  /** The page's list and the error shown above it ("" when none). */
  datatype PageState = PageState(bookings: seq<Booking>, error: string)

  /** A choice in an enabled selector, once the backend call has returned:
      on success the list changes only in the chosen booking's status and an
      earlier error stays on screen; on failure the list is kept and the
      backend's message becomes the page's error. */
  function Choose(st: PageState, card: Booking, newStatus: BookingStatus, backendError: Option<string>): (r: PageState)
    requires !SelectorDisabled(card.status)
    ensures |r.bookings| == |st.bookings|
    ensures backendError.Some? ==> r == st.(error := backendError.value)
    ensures backendError.None? ==> r.error == st.error
    ensures backendError.None? ==>
              forall i :: 0 <= i < |st.bookings| && st.bookings[i].id == card.id ==> r.bookings[i].status == newStatus
    ensures forall i :: 0 <= i < |st.bookings| && st.bookings[i].id != card.id ==> r.bookings[i] == st.bookings[i]
    ensures forall i :: 0 <= i < |st.bookings| ==> r.bookings[i] == st.bookings[i].(status := r.bookings[i].status)
  {
    if backendError.None? then st.(bookings := SetStatus(st.bookings, card.id, newStatus))
    else st.(error := backendError.value)
  }

  /** The page never clears its error: a later successful choice keeps the
      message of an earlier failed one while applying its own change. */
  lemma ErrorOutlivesSuccess(st: PageState, card: Booking, s1: BookingStatus, s2: BookingStatus, msg: string)
    requires !SelectorDisabled(card.status)
    ensures var r := Choose(Choose(st, card, s1, Some(msg)), card, s2, None);
            r.error == msg && r.bookings == SetStatus(st.bookings, card.id, s2)
  {
  }

  /** The chip colours of the provider page. */
  datatype ChipColor = Success | Warning | ErrorColor | Info | DefaultColor

  /** The chip colour of a stored status string. */
  function StatusColor(status: string): (c: ChipColor)
    ensures c == DefaultColor <==> ParseBookingStatus(status).None?
  {
    if status == "confirmed" then Success
    else if status == "pending" then Warning
    else if status == "cancelled" then ErrorColor
    else if status == "completed" then Info
    else DefaultColor
  }

  /** Each status has its own colour: confirmed success, pending warning,
      cancelled error, completed info. */
  lemma StatusColorsDistinct(a: BookingStatus, b: BookingStatus)
    ensures StatusColor(BookingStatusName(a)) == StatusColor(BookingStatusName(b)) <==> a == b
    ensures StatusColor(BookingStatusName(Confirmed)) == Success
    ensures StatusColor(BookingStatusName(Pending)) == Warning
    ensures StatusColor(BookingStatusName(Cancelled)) == ErrorColor
    ensures StatusColor(BookingStatusName(Completed)) == Info
  {
  }

  /** What the page renders. */
  datatype ProviderView = Nothing | Spinner | BookingList

  /** Nothing without a signed-in user, the spinner while loading, else the
      list. */
  function View(signedIn: bool, loading: bool): (v: ProviderView)
    ensures v == Nothing <==> !signedIn
    ensures v == BookingList <==> signedIn && !loading
  {
    if !signedIn then Nothing
    else if loading then Spinner
    else BookingList
  }
}
