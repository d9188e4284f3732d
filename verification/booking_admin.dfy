/** The administrator's booking page: which buttons a booking card offers in
    each status and what a click does to the page's list. */
module BookingAdmin {
  import opened Wrappers
  import opened Bookings

  /** The buttons a booking card can show. */
  datatype AdminAction = Confirm | Complete | Cancel | Delete

  /** Whether the card of a booking in status `st` shows button `a`. */
  predicate Offered(st: BookingStatus, a: AdminAction) {
    match a
    case Confirm => st == Pending
    case Complete => st == Confirmed
    case Cancel => st != Cancelled && st != Completed
    case Delete => true
  }

  /** The status a button writes; Delete writes none. */
  function ActionTarget(a: AdminAction): (r: Option<BookingStatus>)
    ensures r.None? <==> a == Delete
  {
    match a
    case Confirm => Some(Confirmed)
    case Complete => Some(Completed)
    case Cancel => Some(Cancelled)
    case Delete => None
  }

  /** The buttons on a card in status `st`. */
  function OfferedActions(st: BookingStatus): (r: set<AdminAction>)
    ensures forall a :: a in r <==> Offered(st, a)
    ensures Delete in r
    ensures Terminal(st) <==> r == {Delete}
  {
    var r := set a: AdminAction | a in {Confirm, Complete, Cancel, Delete} && Offered(st, a);
    assert Offered(st, Delete);
    assert !Terminal(st) ==> Cancel in r;
    r
  }

  /** The reservation lifecycle the admin page enforces: pending to confirmed
      to completed, and cancel from any state that is not terminal. */
  predicate AdminMay(from: BookingStatus, to: BookingStatus) {
    || (from == Pending && to == Confirmed)
    || (from == Confirmed && to == Completed)
    || (!Terminal(from) && to == Cancelled)
  }

  /** A status change is reachable through an offered button iff the
      lifecycle allows it. */
  lemma AdminButtonsAreLifecycle(from: BookingStatus, to: BookingStatus)
    ensures (exists a :: Offered(from, a) && ActionTarget(a) == Some(to)) <==> AdminMay(from, to)
  {
    if AdminMay(from, to) {
      var a := if to == Cancelled then Cancel else if to == Confirmed then Confirm else Complete;
      assert Offered(from, a) && ActionTarget(a) == Some(to);
    }
  }

  /** Confirm is offered exactly for pending bookings, Complete exactly for
      confirmed ones, Cancel exactly for non-terminal ones; terminal bookings
      offer only Delete. */
  lemma ButtonsPerStatus(st: BookingStatus)
    ensures Confirm in OfferedActions(st) <==> st == Pending
    ensures Complete in OfferedActions(st) <==> st == Confirmed
    ensures Cancel in OfferedActions(st) <==> !Terminal(st)
    ensures Terminal(st) ==> forall a :: Offered(st, a) ==> ActionTarget(a).None?
  {
  }

  /** How far along the lifecycle a status is. */
  function Rank(st: BookingStatus): nat {
    match st
    case Pending => 0
    case Confirmed => 1
    case Cancelled => 2
    case Completed => 2
  }

  /** The status after pressing buttons in order; a press on a button the card
      does not show is impossible and leaves the status alone. */
  function AdminRun(st: BookingStatus, presses: seq<AdminAction>): BookingStatus
    decreases |presses|
  {
    if |presses| == 0 then st
    else
      var a := presses[0];
      var next := if Offered(st, a) && ActionTarget(a).Some? then ActionTarget(a).value else st;
      AdminRun(next, presses[1..])
  }

  /** Every admin step moves strictly forward along the lifecycle. */
  lemma AdminStepAdvances(from: BookingStatus, to: BookingStatus)
    requires AdminMay(from, to)
    ensures Rank(from) < Rank(to)
  {
  }

  /** Along any sequence of presses the status never moves backwards, and a
      terminal status is never left. */
  lemma {:induction false} AdminRunMonotone(st: BookingStatus, presses: seq<AdminAction>)
    ensures Rank(st) <= Rank(AdminRun(st, presses))
    ensures Terminal(st) ==> AdminRun(st, presses) == st
    decreases |presses|
  {
    if |presses| > 0 {
      var a := presses[0];
      var next := if Offered(st, a) && ActionTarget(a).Some? then ActionTarget(a).value else st;
      if next != st {
        AdminStepAdvances(st, next);
      }
      AdminRunMonotone(next, presses[1..]);
    }
  }

  /** A toast the page shows. */
  datatype Toast = SuccessToast(message: string) | ErrorToast(message: string)

  /** The page's list after a click, and the toast the click shows. */
  datatype ClickOutcome = ClickOutcome(bookings: seq<Booking>, toast: Toast)

  /** What a click does once the backend call has returned: on failure the
      list is kept and an error toast names the failed kind of call;
      otherwise the status update or the delete, with a success toast that
      names the new status or the delete. The button must be on the card to
      be clicked. */
  function Click(bs: seq<Booking>, card: Booking, a: AdminAction, backendOk: bool): (r: ClickOutcome)
    requires Offered(card.status, a)
    ensures r.toast.SuccessToast? <==> backendOk
    ensures !backendOk ==> r.bookings == bs
    ensures !backendOk && a != Delete ==> r.toast == ErrorToast("Failed to update booking")
    ensures !backendOk && a == Delete ==> r.toast == ErrorToast("Failed to delete booking")
    ensures backendOk && a != Delete ==>
              r.toast == SuccessToast("Booking " + BookingStatusName(ActionTarget(a).value) + " successfully")
    ensures backendOk && a == Delete ==> r.toast == SuccessToast("Booking deleted successfully")
    ensures backendOk && a != Delete ==>
              |r.bookings| == |bs|
              && forall i :: 0 <= i < |bs| && bs[i].id == card.id ==> r.bookings[i].status == ActionTarget(a).value
    ensures backendOk && a != Delete ==> forall i :: 0 <= i < |bs| && bs[i].id != card.id ==> r.bookings[i] == bs[i]
    ensures backendOk && a != Delete ==> forall i :: 0 <= i < |bs| ==> r.bookings[i] == bs[i].(status := r.bookings[i].status)
    ensures backendOk && a == Delete ==> forall b :: b in r.bookings <==> b in bs && b.id != card.id
    ensures a != Delete ==> AdminMay(card.status, ActionTarget(a).value)
  {
    if !backendOk then
      ClickOutcome(bs, if a == Delete then ErrorToast("Failed to delete booking") else ErrorToast("Failed to update booking"))
    else match ActionTarget(a)
      case Some(st) => ClickOutcome(SetStatus(bs, card.id, st), SuccessToast(SuccessMessage(a)))
      case None => ClickOutcome(DeleteBooking(bs, card.id), SuccessToast(SuccessMessage(a)))
  }

  /** The text of a button's success toast. */
  function SuccessMessage(a: AdminAction): string {
    match ActionTarget(a)
    case Some(st) => "Booking " + BookingStatusName(st) + " successfully"
    case None => "Booking deleted successfully"
  }

  /** The button a success toast reports, read back from the word after
      "Booking ": "deleted", "cancelled", "completed" or "confirmed". */
  function ToastButton(t: Toast): Option<AdminAction> {
    if t.ErrorToast? || |t.message| < 11 then None
    else if t.message[8] == 'd' then Some(Delete)
    else if t.message[9] == 'a' then Some(Cancel)
    else if t.message[10] == 'm' then Some(Complete)
    else Some(Confirm)
  }

  /** The success toast tells the buttons apart: the button is read back
      from it, so two offered buttons that succeed show the same toast iff
      they are the same button. */
  lemma SuccessToastNamesButton(bs: seq<Booking>, card: Booking, a: AdminAction, b: AdminAction)
    requires Offered(card.status, a) && Offered(card.status, b)
    ensures ToastButton(Click(bs, card, a, true).toast) == Some(a)
    ensures Click(bs, card, a, true).toast == Click(bs, card, b, true).toast <==> a == b
  {
    ToastReadsBack(bs, card, a);
    ToastReadsBack(bs, card, b);
  }

  lemma ToastReadsBack(bs: seq<Booking>, card: Booking, a: AdminAction)
    requires Offered(card.status, a)
    ensures ToastButton(Click(bs, card, a, true).toast) == Some(a)
  {
    MessageReadsBack(a);
  }

  lemma MessageReadsBack(a: AdminAction)
    ensures ToastButton(SuccessToast(SuccessMessage(a))) == Some(a)
  {
    var m := SuccessMessage(a);
    if a == Delete {
      assert m[8] == 'd';
    } else {
      var name := BookingStatusName(ActionTarget(a).value);
      assert m == "Booking " + name + " successfully";
      assert m[8] == name[0] && m[9] == name[1] && m[10] == name[2];
    }
  }
}
