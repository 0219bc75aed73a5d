/** The admin agenda: a month calendar of six Sunday-first weeks with a per-day appointment
    count, the appointments of the selected day, and status updates. */
module Agenda {
  import opened Api
  import opened JsText
  import opened Calendar
  import opened JsArray

  datatype Appointment = Appointment(
    id: string,
    date: Option<string>,
    time: string,
    status: string,
    clientName: string,
    clientPhone: string,
    serviceName: string)

  /** The arguments of one `appointmentsAPI.updateStatus(id, status)` request. */
  datatype StatusUpdate = StatusUpdate(appointmentId: string, status: string)

  /** The month the calendar shows (`viewMonth`, always the first of a month). */
  datatype MonthView = MonthView(year: int, month: int)

  predicate ValidView(v: MonthView) {
    1 <= v.month <= 12
  }

  function FirstDay(v: MonthView): Date
    requires ValidView(v)
  {
    FirstOfMonth(v.year, v.month)
  }

  function ViewOf(d: Date): MonthView {
    MonthView(d.year, d.month)
  }

  // ---- Month stepping ----

  /** `prevMonth`: the first of the month before, wrapping to December of the year before. */
  function PrevMonth(v: MonthView): (r: MonthView)
    requires ValidView(v)
    ensures ValidView(r)
    ensures NextDay(LastOfMonth(r.year, r.month)) == FirstDay(v)
  {
    ViewOf(FirstOfMonth(v.year, v.month - 1))
  }

  /** `nextMonth`: the first of the month after, wrapping to January of the year after. */
  function NextMonth(v: MonthView): (r: MonthView)
    requires ValidView(v)
    ensures ValidView(r)
    ensures FirstDay(r) == NextDay(LastOfMonth(v.year, v.month))
  {
    ViewOf(FirstOfMonth(v.year, v.month + 1))
  }

  /** Stepping back and forth returns to the same month. */
  lemma MonthSteppingInverse(v: MonthView)
    requires ValidView(v)
    ensures PrevMonth(NextMonth(v)) == v && NextMonth(PrevMonth(v)) == v
  {
  }

  // ---- The 42-day grid ----

  /** `firstOfMonth.getDay()`: the column of the 1st, and the number of days shown before it. */
  function StartDay(v: MonthView): (w: int)
    requires ValidView(v)
    ensures 0 <= w < 7
  {
    Weekday(FirstDay(v))
  }

  /** `startDate`: the first of the month moved back by its weekday. */
  function GridStart(v: MonthView): Date
    requires ValidView(v)
  {
    var first := FirstDay(v);
    SetDate(first, first.day - StartDay(v))
  }

  /** The day shown in cell `i` of the grid. */
  function GridDay(v: MonthView, i: nat): Date
    requires ValidView(v)
  {
    AddDays(GridStart(v), i)
  }

  /** `d.setDate(startDate.getDate() + i)` on a copy of `startDate` is `i` days after it. */
  lemma SetDateOffset(d: Date, i: nat)
    requires ValidDate(d)
    ensures SetDate(d, d.day + i) == AddDays(d, i)
  {
    var first := Date(d.year, d.month, 1);
    AddDaysWithinMonth(d.year, d.month, d.day - 1);
    assert AddDays(first, d.day - 1) == d;
    AddDaysAdd(first, d.day - 1, i);
    assert SetDate(d, d.day + i) == AddDays(first, d.day + i - 1);
  }

  lemma GridStartNumber(v: MonthView)
    requires ValidView(v)
    ensures GridStart(v) == AddDays(FirstDay(v), -StartDay(v))
    ensures DayNumber(GridStart(v)) == DayNumber(FirstDay(v)) - StartDay(v)
  {
    DayNumberAddDays(FirstDay(v), -StartDay(v));
  }

  /** `generateCalendarDays`: 42 consecutive days starting at `startDate`. */
  method GenerateCalendarDays(v: MonthView) returns (days: seq<Date>)
    requires ValidView(v)
    ensures |days| == 42
    ensures forall i :: 0 <= i < 42 ==> days[i] == GridDay(v, i)
  {
    var first := FirstDay(v);
    var startDay := Weekday(first);
    var startDate := SetDate(first, first.day - startDay);
    days := [];
    for i := 0 to 42
      invariant |days| == i
      invariant forall j :: 0 <= j < i ==> days[j] == GridDay(v, j)
    {
      var d := SetDate(startDate, startDate.day + i);
      SetDateOffset(startDate, i);
      days := days + [d];
    }
  }

  /** Each cell holds the day after the cell before it. */
  lemma GridConsecutive(v: MonthView, i: nat)
    requires ValidView(v) && 0 < i
    ensures GridDay(v, i) == NextDay(GridDay(v, i - 1))
  {
    AddDaysSucc(GridStart(v), i - 1);
  }

  /** Cell `i` falls in weekday column `i % 7`: the grid starts on a Sunday and every row is a
      Sunday-to-Saturday week under the Dom..Sáb header. */
  lemma GridColumnIsWeekday(v: MonthView, i: nat)
    requires ValidView(v)
    ensures Weekday(GridDay(v, i)) == i % 7
  {
    var n := DayNumber(FirstDay(v));
    GridStartNumber(v);
    DayNumberAddDays(GridStart(v), i);
    assert DayNumber(GridDay(v, i)) + 1 == (n + 1 - (n + 1) % 7) + i;
    WeekAligned(n + 1, i);
  }

  /** Day `k` of the viewed month sits in cell `StartDay + k - 1`, which is inside the 42 cells. */
  lemma GridHoldsMonth(v: MonthView, k: int)
    requires ValidView(v) && 1 <= k <= DaysInMonth(v.year, v.month)
    ensures StartDay(v) + k - 1 < 42
    ensures GridDay(v, StartDay(v) + k - 1) == Date(v.year, v.month, k)
  {
    GridStartNumber(v);
    AddDaysAdd(FirstDay(v), -StartDay(v), StartDay(v) + k - 1);
    AddDaysWithinMonth(v.year, v.month, k - 1);
  }

  /** `isCurrentMonth`: a cell shows a day of the viewed month exactly when it lies between the
      1st's cell and the last day's cell; the others are the greyed leading and trailing days. */
  lemma GridCurrentMonth(v: MonthView, i: nat)
    requires ValidView(v)
    ensures GridDay(v, i).year == v.year && GridDay(v, i).month == v.month
            <==> StartDay(v) <= i < StartDay(v) + DaysInMonth(v.year, v.month)
  {
    var d := GridDay(v, i);
    GridStartNumber(v);
    DayNumberAddDays(GridStart(v), i);
    if d.year == v.year && d.month == v.month {
      assert DayNumber(d) == DayNumber(FirstDay(v)) + d.day - 1;
    }
    if StartDay(v) <= i < StartDay(v) + DaysInMonth(v.year, v.month) {
      GridHoldsMonth(v, i - StartDay(v) + 1);
    }
  }

  /** `isCurrentMonth` compares only the month number, not the year; within the 42 cells that
      is enough, because the leading cells belong to the month before and the trailing ones
      to the month after, whose numbers differ from the viewed one. */
  lemma MonthNumberSuffices(v: MonthView, i: nat)
    requires ValidView(v) && i < 42
    ensures GridDay(v, i).month == v.month <==> GridDay(v, i).year == v.year && GridDay(v, i).month == v.month
  {
    var d := GridDay(v, i);
    var first, last := FirstDay(v), LastOfMonth(v.year, v.month);
    GridStartNumber(v);
    DayNumberAddDays(GridStart(v), i);
    assert DayNumber(d) == DayNumber(first) - StartDay(v) + i;
    assert DayNumber(last) == DayNumber(first) + DaysInMonth(v.year, v.month) - 1;
    if DayNumber(d) < DayNumber(first) {
      var p := PrevMonth(v);
      var pLast := LastOfMonth(p.year, p.month);
      DayNumberNext(pLast);
      assert DayNumber(FirstDay(p)) == DayNumber(pLast) - DaysInMonth(p.year, p.month) + 1;
      InMonthIffBetween(d, p.year, p.month);
      assert d.month == p.month;
    } else if DayNumber(d) > DayNumber(last) {
      var q := NextMonth(v);
      DayNumberNext(last);
      assert DayNumber(LastOfMonth(q.year, q.month)) == DayNumber(FirstDay(q)) + DaysInMonth(q.year, q.month) - 1;
      InMonthIffBetween(d, q.year, q.month);
      assert d.month == q.month;
    } else {
      InMonthIffBetween(d, v.year, v.month);
    }
  }

  // ---- Counting and filtering appointments ----

  /** `(apt.date || "").split("T")[0]`: the start of the date string up to its first `T`,
      and "" for a missing date. */
  function DatePart(a: Appointment): (p: string)
    ensures a.date.None? ==> p == ""
    ensures a.date.Some? ==> |p| <= |a.date.value| && p == a.date.value[..|p|]
    ensures forall i :: 0 <= i < |p| ==> p[i] != 'T'
  {
    BeforeT(match a.date case Some(s) => s case None => "")
  }

  /** The test of `countAppointmentsOn`: the date part equals the cell's ISO date. */
  function OnDay(d: Date): Appointment -> bool
    requires ValidDate(d)
  {
    a => DatePart(a) == IsoDate(d)
  }

  /** `countAppointmentsOn(d)` over a list of appointments: at most the whole list, and
      zero exactly when no appointment's date part is that day. */
  function CountOn(appts: seq<Appointment>, d: Date): (n: nat)
    requires ValidDate(d)
    ensures n <= |appts|
    ensures n > 0 <==> exists a :: a in appts && DatePart(a) == IsoDate(d)
  {
    var kept := Filter(appts, OnDay(d));
    assert kept != [] ==> kept[0] in kept && OnDay(d)(kept[0]);
    |kept|
  }

  /** `new Date(apt.date)` as a calendar day; None is the Invalid Date of an undefined or
      malformed date, which fails every comparison. Only a present date in the range of
      four-digit years gives a day. */
  function AppointmentDay(a: Appointment): (day: Option<Date>)
    ensures a.date.None? ==> day.None?
    ensures day.Some? ==> ValidDate(day.value) && 0 <= day.value.year <= 9999
  {
    match a.date
    case None => None
    case Some(s) => ParseIsoDay(BeforeT(s))
  }

  /** `aptDay >= start && aptDay <= end` for the viewed month. */
  predicate InViewedMonth(a: Appointment, v: MonthView)
    requires ValidView(v)
  {
    var day := AppointmentDay(a);
    day.Some?
    && DayNumber(FirstOfMonth(v.year, v.month)) <= DayNumber(day.value)
    && DayNumber(day.value) <= DayNumber(LastOfMonth(v.year, v.month))
  }

  function InMonth(v: MonthView): Appointment -> bool
    requires ValidView(v)
  {
    a => InViewedMonth(a, v)
  }

  /** The month filter of `loadMonthlyAppointments`: the appointments whose day falls
      between the first and the last day of the viewed month, in the loaded order. */
  function MonthFilter(all: seq<Appointment>, v: MonthView): (kept: seq<Appointment>)
    requires ValidView(v)
    ensures |kept| <= |all|
    ensures forall a :: a in kept <==> a in all && InViewedMonth(a, v)
  {
    Filter(all, InMonth(v))
  }

  /** The month filter keeps exactly the appointments of `all` dated on a day of the viewed
      month, in their order. */
  lemma MonthFilterKeepsMonth(all: seq<Appointment>, v: MonthView, a: Appointment)
    requires ValidView(v)
    ensures a in MonthFilter(all, v) <==>
            a in all && AppointmentDay(a).Some?
            && AppointmentDay(a).value.year == v.year && AppointmentDay(a).value.month == v.month
  {
    if AppointmentDay(a).Some? {
      InMonthIffBetween(AppointmentDay(a).value, v.year, v.month);
    }
  }

  /** An appointment counted on day `d` is dated `d`. */
  lemma CountedDayIsDate(a: Appointment, d: Date)
    requires ValidDate(d) && 0 <= d.year <= 9999 && DatePart(a) == IsoDate(d)
    ensures AppointmentDay(a) == Some(d)
  {
    IsoRoundTrip(d);
    assert a.date.Some? by {
      if a.date.None? {
        assert false;
      }
    }
  }

  /** The count a cell shows: for a day of the viewed month it is the number of ALL appointments
      on that day; for a leading or trailing day of another month it is always 0. */
  lemma CountAfterMonthFilter(all: seq<Appointment>, v: MonthView, d: Date)
    requires ValidView(v) && ValidDate(d) && 0 <= d.year <= 9999
    ensures d.year == v.year && d.month == v.month ==> CountOn(MonthFilter(all, v), d) == CountOn(all, d)
    ensures !(d.year == v.year && d.month == v.month) ==> CountOn(MonthFilter(all, v), d) == 0
  {
    forall i | 0 <= i < |all| && OnDay(d)(all[i])
      ensures AppointmentDay(all[i]) == Some(d)
    {
      CountedDayIsDate(all[i], d);
    }
    forall i | 0 <= i < |all| && AppointmentDay(all[i]).Some?
      ensures InMonth(v)(all[i]) <==> AppointmentDay(all[i]).value.year == v.year
                                      && AppointmentDay(all[i]).value.month == v.month
    {
      InMonthIffBetween(AppointmentDay(all[i]).value, v.year, v.month);
    }
    if d.year == v.year && d.month == v.month {
      FilterSubsumed(all, InMonth(v), OnDay(d));
    } else {
      FilterDisjoint(all, InMonth(v), OnDay(d));
    }
  }

  // ---- The page ----

  class AgendaPage {
    var appointments: seq<Appointment>   // the selected day's list
    var selectedDate: string              // ISO date of the selected day
    var monthlyAppointments: seq<Appointment>
    var viewMonth: MonthView

    ghost predicate Valid()
      reads this
    {
      ValidView(viewMonth)
    }

    /** The page opens on today, with the calendar on today's month and both lists empty. */
    constructor (today: Date)
      requires ValidDate(today)
      ensures Valid()
      ensures selectedDate == IsoDate(today) && viewMonth == MonthView(today.year, today.month)
      ensures appointments == [] && monthlyAppointments == []
    {
      appointments := [];
      selectedDate := IsoDate(today);
      monthlyAppointments := [];
      viewMonth := MonthView(today.year, today.month);
    }

    /** `loadAppointments`: the selected day's list, `data || []`; a failure keeps the old list. */
    method LoadAppointments(reply: Reply<Option<seq<Appointment>>>)
      modifies this`appointments
      ensures reply.Ok? ==> appointments == OrEmpty(reply.value)
      ensures reply.Fail? ==> appointments == old(appointments)
    {
      if reply.Ok? {
        appointments := OrEmpty(reply.value);
      }
    }

    /** `loadMonthlyAppointments`: the viewed month's part of all appointments; [] on failure. */
    method LoadMonthlyAppointments(reply: Reply<Option<seq<Appointment>>>)
      requires Valid()
      modifies this`monthlyAppointments
      ensures reply.Ok? ==> monthlyAppointments == MonthFilter(OrEmpty(reply.value), viewMonth)
      ensures reply.Fail? ==> monthlyAppointments == []
    {
      match reply
      case Ok(data) =>
        monthlyAppointments := MonthFilter(OrEmpty(data), viewMonth);
      case Fail(_, _) =>
        monthlyAppointments := [];
    }

    /** The previous-month button, followed by the reload its effect triggers. */
    method ShowPrevMonth(monthReply: Reply<Option<seq<Appointment>>>)
      requires Valid()
      modifies this`viewMonth, this`monthlyAppointments
      ensures Valid() && viewMonth == PrevMonth(old(viewMonth))
      ensures monthReply.Fail? ==> monthlyAppointments == []
      ensures monthReply.Ok? ==> monthlyAppointments == MonthFilter(OrEmpty(monthReply.value), viewMonth)
    {
      viewMonth := PrevMonth(viewMonth);
      LoadMonthlyAppointments(monthReply);
    }

    /** The next-month button, followed by the reload its effect triggers. */
    method ShowNextMonth(monthReply: Reply<Option<seq<Appointment>>>)
      requires Valid()
      modifies this`viewMonth, this`monthlyAppointments
      ensures Valid() && viewMonth == NextMonth(old(viewMonth))
      ensures monthReply.Fail? ==> monthlyAppointments == []
      ensures monthReply.Ok? ==> monthlyAppointments == MonthFilter(OrEmpty(monthReply.value), viewMonth)
    {
      viewMonth := NextMonth(viewMonth);
      LoadMonthlyAppointments(monthReply);
    }

    /** Setting `selectedDate` (the date input, or the "today" button). The effect on
        `[selectedDate]` runs only when the value changes: then it reloads the day's list and
        the month's list; setting the same date again makes no request. The viewed month does
        not follow the selected date. */
    method PickDate(iso: string, dayReply: Reply<Option<seq<Appointment>>>,
                    monthReply: Reply<Option<seq<Appointment>>>) returns (reloaded: bool)
      requires Valid()
      modifies this`selectedDate, this`appointments, this`monthlyAppointments
      ensures Valid() && selectedDate == iso && viewMonth == old(viewMonth)
      ensures reloaded <==> iso != old(selectedDate)
      ensures !reloaded ==> appointments == old(appointments)
                            && monthlyAppointments == old(monthlyAppointments)
      ensures reloaded && dayReply.Ok? ==> appointments == OrEmpty(dayReply.value)
      ensures dayReply.Fail? ==> appointments == old(appointments)
      ensures reloaded && monthReply.Ok? ==> monthlyAppointments == MonthFilter(OrEmpty(monthReply.value), viewMonth)
      ensures reloaded && monthReply.Fail? ==> monthlyAppointments == []
    {
      reloaded := iso != selectedDate;
      selectedDate := iso;
      if reloaded {
        LoadAppointments(dayReply);
        LoadMonthlyAppointments(monthReply);
      }
    }

    /** Clicking a calendar cell selects its day, as its ISO date; clicking the selected day
        again makes no request. */
    method SelectDay(d: Date, dayReply: Reply<Option<seq<Appointment>>>,
                     monthReply: Reply<Option<seq<Appointment>>>) returns (reloaded: bool)
      requires Valid() && ValidDate(d)
      modifies this`selectedDate, this`appointments, this`monthlyAppointments
      ensures Valid() && selectedDate == IsoDate(d) && viewMonth == old(viewMonth)
      ensures reloaded <==> IsoDate(d) != old(selectedDate)
      ensures !reloaded ==> appointments == old(appointments)
                            && monthlyAppointments == old(monthlyAppointments)
      ensures reloaded && dayReply.Ok? ==> appointments == OrEmpty(dayReply.value)
      ensures dayReply.Fail? ==> appointments == old(appointments)
      ensures reloaded && monthReply.Ok? ==> monthlyAppointments == MonthFilter(OrEmpty(monthReply.value), viewMonth)
      ensures reloaded && monthReply.Fail? ==> monthlyAppointments == []
    {
      reloaded := PickDate(IsoDate(d), dayReply, monthReply);
    }

    /** `updateStatus`: one request naming the appointment and its new status; both lists are
        reloaded only after the update succeeded, and a failed update leaves them as they were
        (no optimistic change). */
    method UpdateStatus(appointmentId: string, newStatus: string, update: Reply<Appointment>,
                        dayReply: Reply<Option<seq<Appointment>>>,
                        monthReply: Reply<Option<seq<Appointment>>>) returns (sent: StatusUpdate)
      requires Valid()
      modifies this`appointments, this`monthlyAppointments
      ensures Valid()
      ensures sent == StatusUpdate(appointmentId, newStatus)
      ensures update.Fail? ==> appointments == old(appointments)
                               && monthlyAppointments == old(monthlyAppointments)
      ensures update.Ok? && dayReply.Ok? ==> appointments == OrEmpty(dayReply.value)
      ensures update.Ok? && dayReply.Fail? ==> appointments == old(appointments)
      ensures update.Ok? && monthReply.Ok? ==> monthlyAppointments == MonthFilter(OrEmpty(monthReply.value), viewMonth)
      ensures update.Ok? && monthReply.Fail? ==> monthlyAppointments == []
    {
      sent := StatusUpdate(appointmentId, newStatus);
      if update.Ok? {
        LoadAppointments(dayReply);
        LoadMonthlyAppointments(monthReply);
      }
    }
  }
}
