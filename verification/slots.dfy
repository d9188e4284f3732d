/** The listing detail page's booking path: the start-time check, end-time
    clock arithmetic, the booking form's price bookkeeping, the "Next" button
    and the submit decision that either rejects or produces a pending
    reservation row. */
module Slots {
  import opened Wrappers
  import opened Strings
  import ST = ServiceTypes
  import Bookings
  import Routes

  // ---------------------------------------------------------------------------
  // Start time and end time

  /** The start-time pattern `^([0-1][0-9]|2[0-3]):[0-5][0-9]$`. */
  predicate ValidTime(s: string) {
    && |s| == 5
    && (('0' <= s[0] <= '1' && IsDigit(s[1])) || (s[0] == '2' && '0' <= s[1] <= '3'))
    && s[2] == ':'
    && '0' <= s[3] <= '5'
    && IsDigit(s[4])
  }

  /** `HH:MM`, both parts zero-padded. */
  function FormatTime(h: nat, m: nat): (s: string)
    requires h < 24 && m < 60
    ensures |s| == 5 && s[2] == ':'
  {
    Pad2(h) + ":" + Pad2(m)
  }

  /** The hour of a valid time (`Number` of the part before the colon). */
  function HourOf(s: string): (h: nat)
    requires ValidTime(s)
    ensures h < 24
  {
    10 * DigitValue(s[0]) + DigitValue(s[1])
  }

  /** The minutes of a valid time. */
  function MinuteOf(s: string): (m: nat)
    requires ValidTime(s)
    ensures m < 60
  {
    10 * DigitValue(s[3]) + DigitValue(s[4])
  }

  /** Formatting and reading back are inverse: a formatted time passes the
      check and yields its hour and minutes, and a string that passes the
      check is the formatting of its hour and minutes. */
  lemma FormatTimeRoundTrip(h: nat, m: nat)
    requires h < 24 && m < 60
    ensures ValidTime(FormatTime(h, m))
    ensures HourOf(FormatTime(h, m)) == h && MinuteOf(FormatTime(h, m)) == m
  {
    var s := FormatTime(h, m);
    assert s[0] == Pad2(h)[0] && s[1] == Pad2(h)[1];
    assert s[3] == Pad2(m)[0] && s[4] == Pad2(m)[1];
  }

  lemma ParseTimeRoundTrip(s: string)
    requires ValidTime(s)
    ensures FormatTime(HourOf(s), MinuteOf(s)) == s
  {
    var t := FormatTime(HourOf(s), MinuteOf(s));
    FormatTimeRoundTrip(HourOf(s), MinuteOf(s));
    DigitsDetermined(s[0], s[1], t[0], t[1]);
    DigitsDetermined(s[3], s[4], t[3], t[4]);
  }

  lemma DigitsDetermined(a: char, b: char, c: char, d: char)
    requires IsDigit(a) && IsDigit(b) && IsDigit(c) && IsDigit(d)
    requires 10 * DigitValue(a) + DigitValue(b) == 10 * DigitValue(c) + DigitValue(d)
    ensures a == c && b == d
  {
  }

  /** The check accepts exactly the zero-padded times 00:00 to 23:59. */
  lemma ValidTimeIff(s: string)
    ensures ValidTime(s) <==> exists h: nat, m: nat :: h < 24 && m < 60 && s == FormatTime(h, m)
  {
    if ValidTime(s) {
      ParseTimeRoundTrip(s);
    }
    if exists h: nat, m: nat :: h < 24 && m < 60 && s == FormatTime(h, m) {
      var h: nat, m: nat :| h < 24 && m < 60 && s == FormatTime(h, m);
      FormatTimeRoundTrip(h, m);
    }
  }

  /** `calculateEndTime`: the start time moved forward by the duration on a
      24-hour clock; the date is not advanced past midnight. */
  function CalculateEndTime(start: string, durationHours: int): (r: string)
    requires ValidTime(start)
    ensures ValidTime(r)
    ensures HourOf(r) == (HourOf(start) + durationHours) % 24
    ensures MinuteOf(r) == MinuteOf(start)
  {
    var r := FormatTime((HourOf(start) + durationHours) % 24, MinuteOf(start));
    FormatTimeRoundTrip((HourOf(start) + durationHours) % 24, MinuteOf(start));
    r
  }

  /** A zero-hour booking ends when it starts, and moving the end time twice
      is moving it once by the sum. */
  lemma EndTimeComposes(start: string, a: int, b: int)
    requires ValidTime(start)
    ensures CalculateEndTime(start, 0) == start
    ensures CalculateEndTime(CalculateEndTime(start, a), b) == CalculateEndTime(start, a + b)
  {
    var h, m := HourOf(start), MinuteOf(start);
    ParseTimeRoundTrip(start);
    assert CalculateEndTime(start, 0) == FormatTime(h, m);
    var e1 := CalculateEndTime(start, a);
    ClockAdd(h, a, b);
    assert CalculateEndTime(e1, b) == FormatTime((HourOf(e1) + b) % 24, MinuteOf(e1));
    assert CalculateEndTime(start, a + b) == FormatTime((h + a + b) % 24, m);
  }

  lemma ClockAdd(h: int, a: int, b: int)
    ensures ((h + a) % 24 + b) % 24 == (h + a + b) % 24
  {
    var q := (h + a) / 24;
    assert h + a == 24 * q + (h + a) % 24;
    assert (h + a) % 24 + b == (h + a + b) - 24 * q;
  }

  lemma EndTimeExamples()
    ensures CalculateEndTime("23:00", 2) == "01:00"
    ensures CalculateEndTime("09:00", 3) == "12:00"
    ensures CalculateEndTime("22:30", 8) == "06:30"
  {
    EndTimeExample("23:00", 2, 1, 0, "01:00");
    EndTimeExample("09:00", 3, 12, 0, "12:00");
    EndTimeExample("22:30", 8, 6, 30, "06:30");
  }

  /** One worked end time: `end` is the formatting of hour `h` and minute `m`,
      and `h` is the start hour moved by the duration. */
  lemma EndTimeExample(start: string, d: int, h: nat, m: nat, end: string)
    requires ValidTime(start) && h < 24 && m < 60
    requires (HourOf(start) + d) % 24 == h && MinuteOf(start) == m
    requires end == Pad2(h) + ":" + Pad2(m)
    ensures CalculateEndTime(start, d) == end
  {
  }

  // ---------------------------------------------------------------------------
  // The booking form

  /** The booking modal's state. The date is the day the modal copied when
      it was first rendered, already formatted as the backend stores it. */
  datatype BookingForm = BookingForm(
    customerName: string,
    phoneNumber: string,
    date: string,
    startTime: string,
    duration: int,
    totalPrice: int,
    specialRequests: Option<string>)

  /** `service?.price_per_hour || 0`. */
  function HourlyPrice(service: Option<ST.Service>): int {
    if service.Some? then service.value.pricePerHour else 0
  }

  /** The total the form must show. */
  predicate PriceConsistent(form: BookingForm, service: Option<ST.Service>) {
    form.totalPrice == HourlyPrice(service) * form.duration
  }

  /** The modal's initial state: one hour, priced at the hourly rate. */
  function InitialForm(date: string, service: Option<ST.Service>): (f: BookingForm)
    ensures f.duration == 1 && f.totalPrice == HourlyPrice(service)
    ensures f.date == date && f.startTime == "" && f.specialRequests.None?
    ensures PriceConsistent(f, service)
  {
    BookingForm("", "", date, "", 1, HourlyPrice(service), None)
  }

  /** The modal's input events. */
  datatype FormEdit = EditName(name: string) | EditPhone(phone: string)
                    | EditStartTime(time: string) | EditDuration(hours: int)

  function ApplyEdit(form: BookingForm, e: FormEdit, service: Option<ST.Service>): (r: BookingForm)
    ensures e.EditDuration? ==> r.duration == e.hours && PriceConsistent(r, service)
    ensures !e.EditDuration? ==> r.duration == form.duration && r.totalPrice == form.totalPrice
    ensures PriceConsistent(form, service) ==> PriceConsistent(r, service)
    ensures r.date == form.date && r.specialRequests == form.specialRequests
  {
    match e
    case EditName(n) => form.(customerName := n)
    case EditPhone(p) => form.(phoneNumber := p)
    case EditStartTime(t) => form.(startTime := t)
    case EditDuration(d) => form.(duration := d, totalPrice := HourlyPrice(service) * d)
  }

  function ApplyEdits(form: BookingForm, es: seq<FormEdit>, service: Option<ST.Service>): BookingForm
    decreases |es|
  {
    if |es| == 0 then form else ApplyEdits(ApplyEdit(form, es[0], service), es[1..], service)
  }

  /** Whatever the user types, the form's total stays hourly price times
      duration. */
  lemma {:induction false} EditsKeepPrice(date: string, es: seq<FormEdit>, service: Option<ST.Service>)
    ensures PriceConsistent(ApplyEdits(InitialForm(date, service), es, service), service)
  {
    EditsPreservePrice(InitialForm(date, service), es, service);
  }

  lemma {:induction false} EditsPreservePrice(form: BookingForm, es: seq<FormEdit>, service: Option<ST.Service>)
    requires PriceConsistent(form, service)
    ensures PriceConsistent(ApplyEdits(form, es, service), service)
    decreases |es|
  {
    if |es| > 0 {
      EditsPreservePrice(ApplyEdit(form, es[0], service), es[1..], service);
    }
  }

  /** No edit reaches the date or the special requests. */
  lemma {:induction false} EditsKeepDate(form: BookingForm, es: seq<FormEdit>, service: Option<ST.Service>)
    ensures ApplyEdits(form, es, service).date == form.date
    ensures ApplyEdits(form, es, service).specialRequests == form.specialRequests
    decreases |es|
  {
    if |es| > 0 {
      EditsKeepDate(ApplyEdit(form, es[0], service), es[1..], service);
    }
  }

  /** Starting the modal from another day changes the date and nothing
      else, whatever is typed afterwards. */
  lemma {:induction false} EditsIgnoreDate(form: BookingForm, day: string, es: seq<FormEdit>, service: Option<ST.Service>)
    ensures ApplyEdits(form.(date := day), es, service) == ApplyEdits(form, es, service).(date := day)
    decreases |es|
  {
    if |es| > 0 {
      assert ApplyEdit(form.(date := day), es[0], service) == ApplyEdit(form, es[0], service).(date := day);
      EditsIgnoreDate(ApplyEdit(form, es[0], service), day, es[1..], service);
    }
  }

  // ---------------------------------------------------------------------------
  // The page's selected day

  /** The page's date state: the day the page loaded on, replaced by each
      calendar pick in turn (`handleDateChange`). */
  function SelectedDate(today: string, picks: seq<string>): (d: string)
    ensures |picks| == 0 ==> d == today
    ensures |picks| > 0 ==> d == picks[|picks| - 1]
    decreases |picks|
  {
    if |picks| == 0 then today else SelectedDate(picks[0], picks[1..])
  }

  // ---------------------------------------------------------------------------
  // "Next" and submit

  datatype NextOutcome = OpenModal | NextError(message: string)

  /** The "Next" button opens the modal only when a date is selected. */
  function OnNext(date: Option<string>): (r: NextOutcome)
    ensures r == OpenModal <==> date.Some?
    ensures date.None? ==> r == NextError("Please select a date first")
  {
    if date.Some? then OpenModal else NextError("Please select a date first")
  }

  /** What the session lookup returned. */
  datatype SessionLookup = LookupFailed | NoSession | SessionFor(userId: string)

  /** The row the submit handler inserts. */
  datatype NewBooking = NewBooking(
    serviceId: string,
    userId: string,
    customerName: string,
    phoneNumber: string,
    bookingDate: string,
    startTime: string,
    endTime: string,
    totalPrice: int,
    status: Bookings.BookingStatus,
    specialRequests: Option<string>)

  datatype SubmitDecision = Reject(message: string) | Insert(row: NewBooking)

  /** The duration input only submits whole hours from 1 to 8. */
  predicate ValidDuration(d: int) {
    1 <= d <= 8
  }

  /** `form.specialRequests || null`: an empty request is stored as null. */
  function StoredRequests(r: Option<string>): (s: Option<string>)
    ensures s.Some? <==> r.Some? && r.value != ""
    ensures s.Some? ==> s == r
  {
    if r.Some? && r.value != "" then r else None
  }

  /** The submit handler's checks, in order: a listing must be loaded, a
      session with a user id must exist, and the start time must pass the
      pattern; only then is a pending row built. Opening hours, available
      days and overlapping bookings are not checked. */
  function SubmitBooking(service: Option<ST.Service>, session: SessionLookup, form: BookingForm): (d: SubmitDecision)
    requires ValidDuration(form.duration)
    ensures service.None? ==> d == Reject("Service not found")
    ensures service.Some? && !(session.SessionFor? && session.userId != "") ==>
              d == Reject("Please login to make a booking")
    ensures service.Some? && session.SessionFor? && session.userId != "" && !ValidTime(form.startTime) ==>
              d == Reject("Invalid time format")
    ensures d.Insert? <==> service.Some? && session.SessionFor? && session.userId != "" && ValidTime(form.startTime)
    ensures d.Insert? ==>
              && d.row.status == Bookings.Pending
              && d.row.serviceId == service.value.id
              && d.row.userId == session.userId
              && d.row.startTime == form.startTime
              && ValidTime(d.row.endTime)
              && HourOf(d.row.endTime) == (HourOf(form.startTime) + form.duration) % 24
              && MinuteOf(d.row.endTime) == MinuteOf(form.startTime)
              && d.row.totalPrice == form.totalPrice
              && d.row.bookingDate == form.date
              && d.row.customerName == form.customerName && d.row.phoneNumber == form.phoneNumber
              && d.row.specialRequests == StoredRequests(form.specialRequests)
  {
    if service.None? then Reject("Service not found")
    else if !(session.SessionFor? && session.userId != "") then Reject("Please login to make a booking")
    else if !ValidTime(form.startTime) then Reject("Invalid time format")
    else
      Insert(NewBooking(
        service.value.id, session.userId, form.customerName, form.phoneNumber, form.date,
        form.startTime, CalculateEndTime(form.startTime, form.duration), form.totalPrice,
        Bookings.Pending, StoredRequests(form.specialRequests)))
  }

  /** A row built from a form the user filled in is priced at the listing's
      hourly price times the duration, and its end time lies
      `duration` hours after the start on the clock. */
  lemma AcceptedBookingPrice(service: ST.Service, userId: string, date: string, es: seq<FormEdit>)
    requires userId != ""
    requires ValidDuration(ApplyEdits(InitialForm(date, Some(service)), es, Some(service)).duration)
    ensures var form := ApplyEdits(InitialForm(date, Some(service)), es, Some(service));
            var d := SubmitBooking(Some(service), SessionFor(userId), form);
            d.Insert? ==> d.row.totalPrice == service.pricePerHour * form.duration
                          && d.row.endTime == CalculateEndTime(form.startTime, form.duration)
  {
    EditsKeepPrice(date, es, Some(service));
    var form := ApplyEdits(InitialForm(date, Some(service)), es, Some(service));
    var d := SubmitBooking(Some(service), SessionFor(userId), form);
    if d.Insert? {
      var e := CalculateEndTime(form.startTime, form.duration);
      ParseTimeRoundTrip(d.row.endTime);
      ParseTimeRoundTrip(e);
    }
  }

  /** The page's booking path as written. The modal keeps its own form,
      initialised once when it is first rendered; the calendar and the modal
      appear together once the listing has loaded, so the modal's copy is the
      day the page loaded on. Calendar picks change only the page's date,
      "Next" tests the page's date and opens the modal, and the form
      submitted is the modal's. */
  function BookingFlowAsWritten(today: string, picks: seq<string>, service: Option<ST.Service>,
                                session: SessionLookup, es: seq<FormEdit>): SubmitDecision
    requires ValidDuration(ApplyEdits(InitialForm(today, service), es, service).duration)
  {
    SubmitBooking(service, session, ApplyEdits(InitialForm(today, service), es, service))
  }

  /** As written, every inserted row is dated the day the page loaded,
      whatever day the customer picked: "Next" opens the modal for any
      calendar history, and a pick other than the load day is lost. */
  lemma {:induction false} ModalBooksLoadDay(today: string, picks: seq<string>, service: ST.Service, userId: string,
                                             es: seq<FormEdit>)
    requires ValidDuration(ApplyEdits(InitialForm(today, Some(service)), es, Some(service)).duration)
    ensures OnNext(Some(SelectedDate(today, picks))) == OpenModal
    ensures var d := BookingFlowAsWritten(today, picks, Some(service), SessionFor(userId), es);
            d.Insert? ==> d.row.bookingDate == today
                          && (SelectedDate(today, picks) != today ==> d.row.bookingDate != SelectedDate(today, picks))
  {
    EditsKeepDate(InitialForm(today, Some(service)), es, Some(service));
  }

  /** A customer who loads a listing on 2026-10-10, picks 2026-10-12 and
      books 10:00 gets a row dated 2026-10-10. */
  lemma PickedDayIgnored(service: ST.Service)
    ensures SelectedDate("2026-10-10", ["2026-10-12"]) == "2026-10-12"
    ensures var d := BookingFlowAsWritten("2026-10-10", ["2026-10-12"], Some(service), SessionFor("u1"),
                                          [EditStartTime("10:00")]);
            d.Insert? && d.row.bookingDate == "2026-10-10"
  {
    var form := ApplyEdits(InitialForm("2026-10-10", Some(service)), [EditStartTime("10:00")], Some(service));
    assert form == InitialForm("2026-10-10", Some(service)).(startTime := "10:00");
    assert ValidTime("10:00");
  }

  /** The booking path with the modal taking the page's selected day when
      it opens, as passing `selectedDate` to it evidently intends. */
  function BookingFlow(today: string, picks: seq<string>, service: Option<ST.Service>,
                       session: SessionLookup, es: seq<FormEdit>): SubmitDecision
    requires ValidDuration(ApplyEdits(InitialForm(SelectedDate(today, picks), service), es, service).duration)
  {
    SubmitBooking(service, session, ApplyEdits(InitialForm(SelectedDate(today, picks), service), es, service))
  }

  /** Corrected: "Next" opens the modal for every calendar history (the
      page's date always holds a day), and every row the modal inserts
      carries the last day picked, or the load day when none was, and the
      listing's hourly price times the chosen duration. Without a pick it
      submits what the page as written submits. */
  lemma {:induction false} NextGuardsBooking(today: string, picks: seq<string>, service: ST.Service, userId: string,
                                             es: seq<FormEdit>)
    requires ValidDuration(ApplyEdits(InitialForm(SelectedDate(today, picks), Some(service)), es, Some(service)).duration)
    ensures OnNext(Some(SelectedDate(today, picks))) == OpenModal
    ensures var d := BookingFlow(today, picks, Some(service), SessionFor(userId), es);
            d.Insert? ==>
              && d.row.bookingDate == SelectedDate(today, picks)
              && d.row.totalPrice
                 == service.pricePerHour * ApplyEdits(InitialForm(today, Some(service)), es, Some(service)).duration
    ensures picks == [] ==>
              BookingFlow(today, picks, Some(service), SessionFor(userId), es)
              == BookingFlowAsWritten(today, picks, Some(service), SessionFor(userId), es)
  {
    var day := SelectedDate(today, picks);
    EditsKeepDate(InitialForm(day, Some(service)), es, Some(service));
    EditsKeepPrice(day, es, Some(service));
    EditsIgnoreDate(InitialForm(today, Some(service)), day, es, Some(service));
    assert InitialForm(today, Some(service)).(date := day) == InitialForm(day, Some(service));
  }

  /** The outcome of the insert call. */
  datatype BookingDone = Navigate(path: string) | InsertFailed(message: string)

  /** The page the handler navigates to after a successful insert. */
  const BookingDoneTargetAsWritten: string := "/bookings"

  /** The customer's bookings page, which the navigation evidently means. */
  const MyBookingsPath: string := "/my-bookings"

  /** After the insert call: on success the handler navigates to
      `/bookings`, on failure it reports the failure. */
  function FinishBookingAsWritten(insertOk: bool): (r: BookingDone)
    ensures insertOk <==> r.Navigate?
    ensures insertOk ==> r.path == BookingDoneTargetAsWritten
    ensures !insertOk ==> r.message == "Failed to create booking. Please try again."
  {
    if insertOk then Navigate(BookingDoneTargetAsWritten)
    else InsertFailed("Failed to create booking. Please try again.")
  }

  /** The same with the navigation aimed at the customer's bookings page. */
  function FinishBooking(insertOk: bool): (r: BookingDone)
    ensures insertOk <==> r.Navigate?
    ensures insertOk ==> r.path == MyBookingsPath
    ensures !insertOk ==> r.message == "Failed to create booking. Please try again."
  {
    if insertOk then Navigate(MyBookingsPath)
    else InsertFailed("Failed to create booking. Please try again.")
  }

  /** `/bookings` is not in the route table: a customer is sent to `/`,
      then to their home path, and ends on the catalogue, not on their
      bookings. */
  lemma BookingDoneLandsOnCatalogue()
    ensures Routes.MatchRoute(FinishBookingAsWritten(true).path) == Routes.CatchAll
    ensures Routes.Chase(true, Some("user"), FinishBookingAsWritten(true).path, 2) == Some(Routes.ServicesPage)
  {
  }

  /** The corrected target renders the customer's bookings page directly. */
  lemma CorrectedTargetShowsBookings()
    ensures Routes.Chase(true, Some("user"), FinishBooking(true).path, 0) == Some(Routes.MyBookingsPage)
  {
    assert "/my-bookings"[..9] == "/my-booki";
  }
}
