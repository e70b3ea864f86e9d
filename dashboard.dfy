/** The dashboard's web API (`Program.cs`): the ticket listing with its optional filters
    and whole-day `DaysToDue`, the four KPI counts, and the reminder list of open tickets.
    A `DateTime` is its tick count (100 ns units since 0001-01-01, UTC) and `now` is a
    parameter. */
module Dashboard {
  import opened Base
  import opened Seqs

  const TicksPerDay: nat := 864_000_000_000
  /** `DateTime.MaxValue.Ticks`, the last tick of 9999-12-31. */
  const MaxTicks: nat := 3_155_378_975_999_999_999

  type DateTime = t: int | 0 <= t <= MaxTicks

  /** The day number of `t`; `t.Date` is the first tick of that day. */
  function Day(t: DateTime): int {
    t / TicksPerDay
  }

  /** `t.AddDays(days)` for a whole number of days: past `DateTime.MaxValue` it throws. */
  function AddDays(t: DateTime, days: nat): (r: Result<DateTime>)
    ensures r.Ok? <==> t + days * TicksPerDay <= MaxTicks
    ensures r.Ok? ==> r.value == t + days * TicksPerDay
    ensures r.Err? ==> r.error == ArgumentOutOfRange
  {
    if t + days * TicksPerDay <= MaxTicks then Ok(t + days * TicksPerDay) else Err(ArgumentOutOfRange)
  }

  /** `(int)(due.Date - today).TotalDays`: the difference is a whole number of days, so
      the conversion is exact. */
  function DaysToDue(due: DateTime, now: DateTime): int {
    Day(due) - Day(now)
  }

  /** Ticket times and day counts: a ticket past due has a day count of at most 0, and a
      negative day count means it is past due; a ticket due within the next `n` days
      (inclusive) has a day count between 0 and `n`. */
  lemma DaysToDueOrder(due: DateTime, now: DateTime, n: nat)
    ensures due < now ==> DaysToDue(due, now) <= 0
    ensures DaysToDue(due, now) < 0 ==> due < now
    ensures now <= due <= now + n * TicksPerDay ==> 0 <= DaysToDue(due, now) <= n
  {
    if now <= due <= now + n * TicksPerDay {
      DivMonotonic(now, due);
      DivShift(now, n);
    }
    if due < now {
      DivMonotonic(due, now);
    }
    if DaysToDue(due, now) < 0 && due >= now {
      DivMonotonic(now, due);
    }
  }

  lemma DivMonotonic(a: int, b: int)
    requires 0 <= a <= b
    ensures a / TicksPerDay <= b / TicksPerDay
  {
  }

  lemma DivShift(a: int, n: nat)
    requires 0 <= a
    ensures (a + n * TicksPerDay) / TicksPerDay == a / TicksPerDay + n
  {
  }

  /** The `Ticket` entity; a new one has status "Open" and priority "Medium". */
  datatype Ticket = Ticket(
    id: int, ticketId: string, dcId: string, docCategory: string,
    createdAt: DateTime, dueDate: DateTime, owner: string, status: string, priority: string)

  /** One element of the `/api/tickets` response. */
  datatype TicketRow = TicketRow(
    ticketId: string, dcId: string, docCategory: string, owner: string, status: string,
    priority: string, createdAt: DateTime, dueDate: DateTime, daysToDue: int)

  /** One element of the `/api/reminders` response. */
  datatype ReminderRow = ReminderRow(
    ticketId: string, dcId: string, docCategory: string, owner: string, priority: string,
    dueDate: DateTime, daysToDue: int)

  // ---- /api/tickets ----

  /** `char.IsWhiteSpace`: the Unicode space, line and paragraph separators and the
      control characters U+0009..U+000D and U+0085. */
  predicate IsDotNetSpace(c: char) {
    ('\U{9}' <= c <= '\U{D}') || c == ' ' || c == '\U{85}' || c == '\U{A0}' || c == '\U{1680}' ||
    ('\U{2000}' <= c <= '\U{200A}') || c == '\U{2028}' || c == '\U{2029}' || c == '\U{202F}' ||
    c == '\U{205F}' || c == '\U{3000}'
  }

  /** `string.IsNullOrWhiteSpace(s)`. */
  predicate IsNullOrWhiteSpace(s: Option<string>) {
    s.None? || forall i | 0 <= i < |s.value| :: IsDotNetSpace(s.value[i])
  }

  function HasStatus(status: string): Ticket -> bool {
    (t: Ticket) => t.status == status
  }

  function InDc(dc: string): Ticket -> bool {
    (t: Ticket) => t.dcId == dc
  }

  function InCategory(category: string): Ticket -> bool {
    (t: Ticket) => t.docCategory == category
  }

  /** Whether `arg` holds of `field`: an absent or blank argument matches everything,
      any other is compared for exact equality. */
  predicate Accepts(arg: Option<string>, field: string) {
    IsNullOrWhiteSpace(arg) || field == arg.value
  }

  /** The three optional filters at once. */
  function Matches(status: Option<string>, dc: Option<string>, category: Option<string>): (p: Ticket -> bool)
    ensures forall t :: p(t) == (Accepts(status, t.status) && Accepts(dc, t.dcId) && Accepts(category, t.docCategory))
  {
    (t: Ticket) => Accepts(status, t.status) && Accepts(dc, t.dcId) && Accepts(category, t.docCategory)
  }

  /** The tickets the listing returns. */
  function Selected(tickets: seq<Ticket>, status: Option<string>, dc: Option<string>, category: Option<string>): seq<Ticket> {
    Filter(tickets, Matches(status, dc, category))
  }

  /** The listing keeps the tickets that pass every active filter and drops the others,
      in their original order. */
  lemma SelectedExactly(tickets: seq<Ticket>, status: Option<string>, dc: Option<string>, category: Option<string>)
    ensures IsSubsequence(Selected(tickets, status, dc, category), tickets)
    ensures forall t | t in Selected(tickets, status, dc, category) ::
      Accepts(status, t.status) && Accepts(dc, t.dcId) && Accepts(category, t.docCategory)
    ensures forall t | t in tickets && Accepts(status, t.status) && Accepts(dc, t.dcId) && Accepts(category, t.docCategory) ::
      t in Selected(tickets, status, dc, category)
  {
    FilterIsSubsequence(tickets, Matches(status, dc, category));
  }

  /** With no argument given, the listing returns every ticket. */
  lemma NoFilterSelectsAll(tickets: seq<Ticket>)
    ensures Selected(tickets, None, None, None) == tickets
  {
    FilterAll(tickets, Matches(None, None, None));
  }

  function RowOf(t: Ticket, now: DateTime): TicketRow {
    TicketRow(t.ticketId, t.dcId, t.docCategory, t.owner, t.status, t.priority, t.createdAt, t.dueDate,
              DaysToDue(t.dueDate, now))
  }

  function Rows(ts: seq<Ticket>, now: DateTime): (r: seq<TicketRow>)
    ensures |r| == |ts| && forall i | 0 <= i < |ts| :: r[i] == RowOf(ts[i], now)
  {
    seq(|ts|, i requires 0 <= i < |ts| => RowOf(ts[i], now))
  }

  /** Applying one optional filter after the ones before it: the same as adding its
      condition to theirs. */
  lemma {:induction false} FilterStep(tickets: seq<Ticket>, q: seq<Ticket>, before: Ticket -> bool,
                                      given: bool, p: Ticket -> bool, after: Ticket -> bool)
    requires q == Filter(tickets, before)
    requires forall t :: after(t) == (before(t) && (!given || p(t)))
    ensures (if given then Filter(q, p) else q) == Filter(tickets, after)
  {
    if given {
      FilterFilter(tickets, before, p, after);
    } else {
      FilterSame(tickets, before, after);
    }
  }

  /** `/api/tickets?status=&dc=&category=`: the query narrowed by each filter whose
      argument is not blank, then each row with its `DaysToDue` for today. */
  method ListTickets(tickets: seq<Ticket>, status: Option<string>, dc: Option<string>,
                     category: Option<string>, now: DateTime)
    returns (list: seq<TicketRow>)
    ensures list == Rows(Selected(tickets, status, dc, category), now)
  {
    var q := tickets;
    ghost var all: Ticket -> bool := (t: Ticket) => true;
    FilterAll(tickets, all);
    ghost var p1: Ticket -> bool := (t: Ticket) => Accepts(status, t.status);
    FilterStep(tickets, q, all, !IsNullOrWhiteSpace(status), HasStatus(status.GetOr("")), p1);
    if !IsNullOrWhiteSpace(status) {
      q := Filter(q, HasStatus(status.value));
    }
    ghost var p2: Ticket -> bool := (t: Ticket) => Accepts(status, t.status) && Accepts(dc, t.dcId);
    FilterStep(tickets, q, p1, !IsNullOrWhiteSpace(dc), InDc(dc.GetOr("")), p2);
    if !IsNullOrWhiteSpace(dc) {
      q := Filter(q, InDc(dc.value));
    }
    FilterStep(tickets, q, p2, !IsNullOrWhiteSpace(category), InCategory(category.GetOr("")), Matches(status, dc, category));
    if !IsNullOrWhiteSpace(category) {
      q := Filter(q, InCategory(category.value));
    }
    list := Rows(q, now);
  }

  // ---- /api/kpi/summary ----

  datatype Kpi = Kpi(open: nat, dueIn21: nat, dueIn7: nat, overdue: nat)

  predicate IsOpen(t: Ticket) {
    t.status == "Open"
  }

  /** Open and due between `now` and `until`, both inclusive. */
  function DueWithin(now: DateTime, until: DateTime): Ticket -> bool {
    (t: Ticket) => IsOpen(t) && t.dueDate >= now && t.dueDate <= until
  }

  function Overdue(now: DateTime): Ticket -> bool {
    (t: Ticket) => IsOpen(t) && t.dueDate < now
  }

  /** `/api/kpi/summary` at time `now`: the four counts, or the exception `AddDays`
      throws when `now` is within three weeks of `DateTime.MaxValue`. */
  function KpiSummary(tickets: seq<Ticket>, now: DateTime): (r: Result<Kpi>)
    ensures r.Err? <==> now + 21 * TicksPerDay > MaxTicks
    ensures r.Err? ==> r.error == ArgumentOutOfRange
    ensures r.Ok? ==>
      r.value.open == Count(tickets, IsOpen) &&
      r.value.dueIn7 == Count(tickets, DueWithin(now, now + 7 * TicksPerDay)) &&
      r.value.dueIn21 == Count(tickets, DueWithin(now, now + 21 * TicksPerDay)) &&
      r.value.overdue == Count(tickets, Overdue(now))
  {
    match AddDays(now, 7)
    case Err(e) => Err(e)
    case Ok(in7) =>
      match AddDays(now, 21)
      case Err(e) => Err(e)
      case Ok(in21) =>
        Ok(Kpi(Count(tickets, IsOpen), Count(tickets, DueWithin(now, in21)),
               Count(tickets, DueWithin(now, in7)), Count(tickets, Overdue(now))))
  }

  /** The counts nest: due in a week is due in three weeks, and due soon and overdue are
      disjoint kinds of open ticket. */
  lemma KpiBounds(tickets: seq<Ticket>, now: DateTime)
    requires KpiSummary(tickets, now).Ok?
    ensures KpiSummary(tickets, now).value.dueIn7 <= KpiSummary(tickets, now).value.dueIn21
    ensures KpiSummary(tickets, now).value.dueIn21 + KpiSummary(tickets, now).value.overdue <= KpiSummary(tickets, now).value.open
  {
    var in7, in21 := now + 7 * TicksPerDay, now + 21 * TicksPerDay;
    CountMonotonic(tickets, DueWithin(now, in7), DueWithin(now, in21));
    CountDisjoint(tickets, DueWithin(now, in21), Overdue(now), IsOpen);
  }

  // ---- /api/reminders ----

  function ReminderOf(t: Ticket, now: DateTime): ReminderRow {
    ReminderRow(t.ticketId, t.dcId, t.docCategory, t.owner, t.priority, t.dueDate, DaysToDue(t.dueDate, now))
  }

  /** `/api/reminders`: every open ticket, in order, with its `DaysToDue`. */
  function Reminders(tickets: seq<Ticket>, now: DateTime): (r: seq<ReminderRow>)
    ensures |r| == |Filter(tickets, IsOpen)| == Count(tickets, IsOpen)
    ensures forall i | 0 <= i < |r| :: r[i] == ReminderOf(Filter(tickets, IsOpen)[i], now)
  {
    var open := Filter(tickets, IsOpen);
    FilterCount(tickets, IsOpen);
    seq(|open|, i requires 0 <= i < |open| => ReminderOf(open[i], now))
  }

  /** The reminders are the rows of the listing filtered on status "Open", without the
      status and creation time, and there are as many as the KPI `open` count. */
  lemma RemindersAreOpenListing(tickets: seq<Ticket>, now: DateTime)
    ensures var rows := Rows(Selected(tickets, Some("Open"), None, None), now);
      |Reminders(tickets, now)| == |rows| &&
      forall i | 0 <= i < |rows| ::
        Reminders(tickets, now)[i] ==
          ReminderRow(rows[i].ticketId, rows[i].dcId, rows[i].docCategory, rows[i].owner,
                      rows[i].priority, rows[i].dueDate, rows[i].daysToDue)
    ensures KpiSummary(tickets, now).Ok? ==> |Reminders(tickets, now)| == KpiSummary(tickets, now).value.open
  {
    assert !IsNullOrWhiteSpace(Some("Open")) by { assert !IsDotNetSpace("Open"[0]); }
    FilterSame(tickets, Matches(Some("Open"), None, None), IsOpen);
    FilterCount(tickets, IsOpen);
  }
}
