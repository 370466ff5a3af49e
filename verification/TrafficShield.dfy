/**
 The compact counters of one link: a ring of seven dated cells stands in for a histogram of filtered
 events per India day, and one dated counter for the delivered clicks of the latest day.
 */
module TrafficShield {
  import opened Outcomes

  const DAY_MS := 86_400_000
  const INDIA_OFFSET_MS := 19_800_000
  const RING_SLOTS := 7

  datatype Outcome = Delivered | Diverted | FilteredMeta | FilteredBot | FilteredOther {
    predicate IsFiltered() {
      FilteredMeta? || FilteredBot? || FilteredOther?
    }
  }

  /** An accounting event on its India day, days counted from 1970-01-01. */
  datatype Event = Event(day: int, outcome: Outcome)

  /** indiaBusinessDate, as a day number. */
  function IndiaDay(atMs: int): int {
    (atMs + INDIA_OFFSET_MS) / DAY_MS
  }

  /** indiaDayStart. */
  function DayStart(day: int): int {
    day * DAY_MS - INDIA_OFFSET_MS
  }

  lemma DaysTile(atMs: int, day: int)
    ensures IndiaDay(atMs) == day <==> DayStart(day) <= atMs < DayStart(day + 1)
  {
  }

  /** A day in India runs from half past six in the evening to half past six in the evening, UTC. */
  lemma DaysAreIndian(atMs: int, day: int)
    ensures IndiaDay(atMs) == day <==> day * 86_400_000 <= atMs + 19_800_000 < (day + 1) * 86_400_000
  {
    DaysTile(atMs, day);
  }

  /** Tracking that began at `activationMs` saw a whole day exactly when it began by the day's start. */
  lemma DayIsCoveredExactly(activationMs: int, day: int)
    ensures activationMs <= DayStart(day) <==> forall atMs | IndiaDay(atMs) == day :: activationMs <= atMs
  {
    DaysTile(DayStart(day), day);
    forall atMs | IndiaDay(atMs) == day
      ensures DayStart(day) <= atMs
    {
      DaysTile(atMs, day);
    }
  }

  /** trafficShieldSlotForDate, anchored at Monday 1970-01-05; `%` truncates in the source. */
  function Slot(day: int): (slot: int)
    ensures 0 <= slot < RING_SLOTS
  {
    (Remainder(day - 4) + RING_SLOTS) % RING_SLOTS
  }

  function Remainder(delta: int): int {
    if 0 <= delta then delta % RING_SLOTS else -(-delta % RING_SLOTS)
  }

  lemma SlotIsRemainder(day: int)
    ensures Slot(day) == (day + 3) % RING_SLOTS
  {
  }

  lemma SlotIsModular(day: int, other: int)
    ensures Slot(day) == Slot(other) <==> (day - other) % RING_SLOTS == 0
  {
    SlotIsRemainder(day);
    SlotIsRemainder(other);
    hide Slot;
    var a, b := (day + 3) / RING_SLOTS, (other + 3) / RING_SLOTS;
    assert day - other == RING_SLOTS * (a - b) + (Slot(day) - Slot(other));
  }

  // ---------------------------------------------------------------------------------------------
  // The counters
  // ---------------------------------------------------------------------------------------------

  datatype Cell = Cell(date: Option<int>, count: nat)

  datatype Metrics = Metrics(todayClickDate: Option<int>, todayClicks: nat, ring: seq<Cell>, filtered: nat)

  predicate HasRing(m: Metrics) {
    |m.ring| == RING_SLOTS
  }

  const NoCell := Cell(None, 0)
  const NoMetrics := Metrics(None, 0, [NoCell, NoCell, NoCell, NoCell, NoCell, NoCell, NoCell], 0)

  function CellAfter(cell: Cell, day: int): Cell {
    if cell.date == Some(day) then cell.(count := cell.count + 1)
    else if cell.date.None? || cell.date.value < day then Cell(Some(day), 1)
    else cell
  }

  /** record, as far as these counters go. */
  function Record(m: Metrics, e: Event): Metrics
    requires HasRing(m)
  {
    var delivered := if e.outcome.Delivered? then 1 else 0;
    var dated := if m.todayClickDate.None? || m.todayClickDate.value < e.day
                 then m.(todayClickDate := Some(e.day), todayClicks := delivered)
                 else if m.todayClickDate.value == e.day
                 then m.(todayClicks := m.todayClicks + delivered)
                 else m;
    if !e.outcome.IsFiltered() then dated
    else
      dated.(
        filtered := m.filtered + 1,
        ring := m.ring[Slot(e.day) := CellAfter(m.ring[Slot(e.day)], e.day)])
  }

  class LinkMetrics {
    var todayClickDate: Option<int>
    var todayClicks: nat
    var ring: array<Cell>
    var filtered: nat

    ghost predicate Valid()
      reads this
    {
      ring.Length == RING_SLOTS
    }

    ghost function View(): Metrics
      reads this, ring
    {
      Metrics(todayClickDate, todayClicks, ring[..], filtered)
    }

    constructor ()
      ensures Valid() && fresh(ring) && View() == NoMetrics
    {
      todayClickDate, todayClicks, filtered := None, 0, 0;
      ring := new Cell[RING_SLOTS](i => NoCell);
    }

    method RecordEvent(e: Event)
      requires Valid()
      modifies this, ring
      ensures Valid() && ring == old(ring) && View() == Record(old(View()), e)
    {
      if todayClickDate.None? || todayClickDate.value < e.day {
        todayClickDate := Some(e.day);
        todayClicks := if e.outcome.Delivered? then 1 else 0;
      } else if todayClickDate.value == e.day && e.outcome.Delivered? {
        todayClicks := todayClicks + 1;
      }
      if e.outcome.IsFiltered() {
        filtered := filtered + 1;
        var cell := ring[Slot(e.day)];
        if cell.date == Some(e.day) {
          ring[Slot(e.day)] := cell.(count := cell.count + 1);
        } else if cell.date.None? || cell.date.value < e.day {
          ring[Slot(e.day)] := Cell(Some(e.day), 1);
        }
      }
      assert View().ring == Record(old(View()), e).ring;
    }

    method ReadDay(day: int) returns (count: nat)
      requires Valid()
      ensures count == Read(View(), day)
    {
      var cell := ring[Slot(day)];
      return if cell.date == Some(day) then cell.count else 0;
    }
  }

  /** The ring's answer for one requested date. */
  function Read(m: Metrics, day: int): nat
    requires HasRing(m)
  {
    var cell := m.ring[Slot(day)];
    if cell.date == Some(day) then cell.count else 0
  }

  function ReadToday(m: Metrics, day: int): nat {
    if m.todayClickDate == Some(day) then m.todayClicks else 0
  }

  // ---------------------------------------------------------------------------------------------
  // The histogram
  // ---------------------------------------------------------------------------------------------

  function RecordAll(events: seq<Event>): (m: Metrics)
    ensures HasRing(m)
  {
    if events == [] then NoMetrics else Record(RecordAll(events[..|events| - 1]), events[|events| - 1])
  }

  function FilteredOn(events: seq<Event>, day: int): nat {
    if events == [] then 0
    else
      var last := events[|events| - 1];
      FilteredOn(events[..|events| - 1], day) + (if last.outcome.IsFiltered() && last.day == day then 1 else 0)
  }

  function DeliveredOn(events: seq<Event>, day: int): nat {
    if events == [] then 0
    else
      var last := events[|events| - 1];
      DeliveredOn(events[..|events| - 1], day) + (if last.outcome.Delivered? && last.day == day then 1 else 0)
  }

  /** A slot holds its latest filtered day, with that day's exact count. */
  ghost predicate IsSlotExact(m: Metrics, events: seq<Event>, slot: int)
    requires HasRing(m) && 0 <= slot < RING_SLOTS
  {
    var cell := m.ring[slot];
    && (cell.date.Some? ==> Slot(cell.date.value) == slot && cell.count == FilteredOn(events, cell.date.value))
    && (forall day | Slot(day) == slot && 0 < FilteredOn(events, day) :: cell.date.Some? && day <= cell.date.value)
  }

  lemma {:induction false} RingHoldsLatestDays(events: seq<Event>, slot: int)
    requires 0 <= slot < RING_SLOTS
    ensures IsSlotExact(RecordAll(events), events, slot)
  {
    hide Slot;
    if events != [] {
      var front, last := events[..|events| - 1], events[|events| - 1];
      RingHoldsLatestDays(front, slot);
      var m := RecordAll(front);
      forall day | Slot(day) == slot && 0 < FilteredOn(events, day)
        ensures RecordAll(events).ring[slot].date.Some? && day <= RecordAll(events).ring[slot].date.value
      {
        assert 0 < FilteredOn(front, day) || (last.outcome.IsFiltered() && last.day == day);
      }
      if last.outcome.IsFiltered() && Slot(last.day) == slot && m.ring[slot].date != Some(last.day) {
        if 0 < FilteredOn(front, last.day) {
          assert m.ring[slot].date.Some? && last.day <= m.ring[slot].date.value;
        }
      }
    }
  }

  /**
   For filtered events in any order: read on a day that no event lies beyond, the seven slots give the
   exact count of each of the last seven days.
   */
  lemma RingIsHistogram(events: seq<Event>, today: int, age: int)
    requires forall e | e in events && e.outcome.IsFiltered() :: e.day <= today
    requires 0 <= age < RING_SLOTS
    ensures Read(RecordAll(events), today - age) == FilteredOn(events, today - age)
  {
    var day := today - age;
    var cell := RecordAll(events).ring[Slot(day)];
    RingHoldsLatestDays(events, Slot(day));
    if 0 < FilteredOn(events, day) {
      SlotIsModular(cell.date.value, day);
      RingDaysHappened(events, Slot(day), today);
      assert (cell.date.value - day) % RING_SLOTS == 0;
    }
  }

  /** A date in the ring is the day of a filtered event. */
  lemma {:induction false} RingDaysHappened(events: seq<Event>, slot: int, bound: int)
    requires 0 <= slot < RING_SLOTS
    requires forall e | e in events && e.outcome.IsFiltered() :: e.day <= bound
    ensures RecordAll(events).ring[slot].date.Some? ==> RecordAll(events).ring[slot].date.value <= bound
  {
    if events != [] {
      var front, last := events[..|events| - 1], events[|events| - 1];
      RingDaysHappened(front, slot, bound);
      assert last in events;
    }
  }

  /** The counters of one link, kept and read through its object: each of the last seven days is exact. */
  method CountWeek(events: seq<Event>, today: int) returns (counts: seq<nat>)
    requires forall e | e in events && e.outcome.IsFiltered() :: e.day <= today
    ensures |counts| == RING_SLOTS
    ensures forall age | 0 <= age < RING_SLOTS :: counts[age] == FilteredOn(events, today - age)
  {
    var metrics := new LinkMetrics();
    for i := 0 to |events|
      invariant metrics.Valid() && fresh(metrics) && fresh(metrics.ring)
      invariant metrics.View() == RecordAll(events[..i])
    {
      assert events[..i + 1][..i] == events[..i];
      metrics.RecordEvent(events[i]);
    }
    assert events[..|events|] == events;
    counts := [];
    for age := 0 to RING_SLOTS
      invariant |counts| == age && metrics.Valid() && metrics.View() == RecordAll(events)
      invariant forall k | 0 <= k < age :: counts[k] == FilteredOn(events, today - k)
    {
      var count := metrics.ReadDay(today - age);
      RingIsHistogram(events, today, age);
      counts := counts + [count];
    }
  }

  /** The dated counter: the delivered events of the latest day seen. */
  lemma {:induction false} TodayCountsLatestDay(events: seq<Event>)
    ensures var m := RecordAll(events);
            && (m.todayClickDate.None? <==> events == [])
            && (forall e | e in events :: m.todayClickDate.Some? && e.day <= m.todayClickDate.value)
            && (m.todayClickDate.Some? ==>
                  && m.todayClicks == DeliveredOn(events, m.todayClickDate.value)
                  && exists e :: e in events && e.day == m.todayClickDate.value)
    ensures forall day | (forall e | e in events :: e.day < day) :: DeliveredOn(events, day) == 0
  {
    if events != [] {
      var front, last := events[..|events| - 1], events[|events| - 1];
      TodayCountsLatestDay(front);
      assert events == front + [last];
      assert last in events;
    }
  }

  /** Every event that is neither delivered nor diverted counts as filtered. */
  function FilteredIn(events: seq<Event>): nat {
    if events == [] then 0
    else
      var outcome := events[|events| - 1].outcome;
      FilteredIn(events[..|events| - 1]) + (if outcome != Delivered && outcome != Diverted then 1 else 0)
  }

  lemma {:induction false} LifetimeIsExact(events: seq<Event>)
    ensures RecordAll(events).filtered == FilteredIn(events)
  {
    if events != [] {
      LifetimeIsExact(events[..|events| - 1]);
    }
  }

  /** Read on a day that no event lies beyond, it is that day's exact count. */
  lemma TodayIsExact(events: seq<Event>, today: int)
    requires forall e | e in events :: e.day <= today
    ensures ReadToday(RecordAll(events), today) == DeliveredOn(events, today)
  {
    TodayCountsLatestDay(events);
  }

  // ---------------------------------------------------------------------------------------------
  // The MariaDB row
  // ---------------------------------------------------------------------------------------------

  /** The WHERE clause: a filtered event older than its slot's date updates no row at all. */
  predicate UpdatesRow(m: Metrics, e: Event)
    requires HasRing(m)
  {
    e.outcome.IsFiltered() ==>
      m.ring[Slot(e.day)].date.Some? ==> m.ring[Slot(e.day)].date.value <= e.day
  }

  /** The SET clauses, each CASE over the row as the assignments to its left leave it. */
  function UpdateRow(m: Metrics, e: Event): Metrics
    requires HasRing(m)
  {
    var delivered := if e.outcome.Delivered? then 1 else 0;
    var clicks := if m.todayClickDate == Some(e.day) then m.todayClicks + delivered
                  else if m.todayClickDate.None? || m.todayClickDate.value < e.day then delivered
                  else m.todayClicks;
    var date := if m.todayClickDate.None? || m.todayClickDate.value < e.day then Some(e.day) else m.todayClickDate;
    var counted := m.(todayClicks := clicks, todayClickDate := date);
    if !e.outcome.IsFiltered() then counted
    else
      var cell := m.ring[Slot(e.day)];
      var count := if cell.date == Some(e.day) then cell.count + 1
                   else if cell.date.None? || cell.date.value < e.day then 1
                   else cell.count;
      var slotDate := if cell.date.None? || cell.date.value < e.day then Some(e.day) else cell.date;
      counted.(filtered := m.filtered + 1, ring := m.ring[Slot(e.day) := Cell(slotDate, count)])
  }

  /** record on the row: an event that its WHERE clause rejects leaves it as it was. */
  function RowStep(m: Metrics, e: Event): Metrics
    requires HasRing(m)
  {
    if UpdatesRow(m, e) then UpdateRow(m, e) else m
  }

  /** One event: the two stores do the same exactly when the row accepts it. */
  lemma StoresAgree(m: Metrics, e: Event)
    requires HasRing(m)
    ensures RowStep(m, e) == Record(m, e) <==> UpdatesRow(m, e)
  {
    if UpdatesRow(m, e) {
      assert UpdateRow(m, e) == Record(m, e);
    } else {
      assert Record(m, e).filtered == m.filtered + 1;
    }
  }

  function RowAfter(events: seq<Event>): (m: Metrics)
    ensures HasRing(m)
  {
    if events == [] then NoMetrics else RowStep(RowAfter(events[..|events| - 1]), events[|events| - 1])
  }

  /** How many of the events the row rejects. */
  function Rejected(events: seq<Event>): nat {
    if events == [] then 0
    else
      var front, last := events[..|events| - 1], events[|events| - 1];
      Rejected(front) + (if UpdatesRow(RowAfter(front), last) then 0 else 1)
  }

  lemma {:induction false} FilteredHappened(events: seq<Event>, day: int)
    ensures 0 < FilteredOn(events, day) <==> exists e :: e in events && e.outcome.IsFiltered() && e.day == day
  {
    if events != [] {
      var front, last := events[..|events| - 1], events[|events| - 1];
      FilteredHappened(front, day);
      assert events == front + [last];
    }
  }

  /** A cell that has a date has counted an event. */
  lemma {:induction false} DatedCellsCount(events: seq<Event>, slot: int)
    requires 0 <= slot < RING_SLOTS
    ensures var cell := RecordAll(events).ring[slot]; cell.date.Some? ==> 0 < cell.count
  {
    if events != [] {
      DatedCellsCount(events[..|events| - 1], slot);
    }
  }

  /**
   The events that MariaDB rejects: exactly the filtered ones that come after a filtered event of a later
   day of the same slot, whole weeks away.
   */
  lemma RejectedExactly(events: seq<Event>, e: Event)
    ensures !UpdatesRow(RecordAll(events), e)
            <==> && e.outcome.IsFiltered()
                 && exists l :: l in events && l.outcome.IsFiltered() && e.day < l.day
                                && (l.day - e.day) % RING_SLOTS == 0
  {
    var cell := RecordAll(events).ring[Slot(e.day)];
    RingHoldsLatestDays(events, Slot(e.day));
    DatedCellsCount(events, Slot(e.day));
    if !UpdatesRow(RecordAll(events), e) {
      FilteredHappened(events, cell.date.value);
      SlotIsModular(cell.date.value, e.day);
    }
    if e.outcome.IsFiltered() {
      forall l | l in events && l.outcome.IsFiltered() && e.day < l.day && (l.day - e.day) % RING_SLOTS == 0
        ensures cell.date.Some? && e.day < cell.date.value
      {
        SlotIsModular(l.day, e.day);
        FilteredHappened(events, l.day);
      }
    }
    hide Slot, UpdatesRow;
  }

  /** A filtered event older than its slot's date is older than the latest day seen. */
  lemma RejectedKeepsToday(events: seq<Event>, e: Event)
    requires !UpdatesRow(RecordAll(events), e)
    ensures Record(RecordAll(events), e)
            == RecordAll(events).(filtered := RecordAll(events).filtered + 1)
  {
    RejectedExactly(events, e);
    TodayCountsLatestDay(events);
    var l :| l in events && l.outcome.IsFiltered() && e.day < l.day && (l.day - e.day) % RING_SLOTS == 0;
    var m := RecordAll(events);
    assert m.ring[Slot(e.day) := m.ring[Slot(e.day)]] == m.ring;
  }

  /**
   Over every stream of events the two stores differ in the lifetime total alone, by the number of rejected
   events: the dated counter and the ring, so today's clicks and the counts per day, are the same.
   */
  lemma {:induction false} StoresDifferByRejected(events: seq<Event>)
    ensures Rejected(events) <= RecordAll(events).filtered
    ensures RowAfter(events)
            == RecordAll(events).(filtered := RecordAll(events).filtered - Rejected(events))
  {
    if events != [] {
      var front, last := events[..|events| - 1], events[|events| - 1];
      StoresDifferByRejected(front);
      StoresAgree(RowAfter(front), last);
      if UpdatesRow(RowAfter(front), last) {
        LifetimeIsApart(RecordAll(front), RowAfter(front).filtered, last);
      } else {
        RejectedKeepsToday(front, last);
      }
    }
  }

  lemma LifetimeIsApart(m: Metrics, filtered: nat, e: Event)
    requires HasRing(m)
    ensures var gain := if e.outcome.IsFiltered() then 1 else 0;
            && Record(m, e).filtered == m.filtered + gain
            && Record(m.(filtered := filtered), e) == Record(m, e).(filtered := filtered + gain)
  {
  }

  /** The difference is real: a filtered event a week before one that is already recorded. */
  lemma LateEventIsRejected(day: int)
    ensures var events := [Event(day + RING_SLOTS, FilteredMeta), Event(day, FilteredMeta)];
            Rejected(events) == 1 && RecordAll(events).filtered == 2 && RowAfter(events).filtered == 1
  {
    var first, late := Event(day + RING_SLOTS, FilteredMeta), Event(day, FilteredMeta);
    assert [first, late][..1] == [first] && [first][..0] == [];
    SlotIsModular(day + RING_SLOTS, day);
    assert Rejected([]) == 0 && RecordAll([]) == NoMetrics && RowAfter([]) == NoMetrics;
    hide Slot;
    assert RecordAll([first]).filtered == 1;
    RejectedExactly([first], late);
    assert first in [first] && (first.day - late.day) % RING_SLOTS == 0;
    StoresDifferByRejected([first]);
    StoresDifferByRejected([first, late]);
  }

  // ---------------------------------------------------------------------------------------------
  // The report of all links of one author
  // ---------------------------------------------------------------------------------------------

  function TotalOn(links: seq<seq<Event>>, day: int): nat {
    if links == [] then 0 else TotalOn(links[..|links| - 1], day) + FilteredOn(links[|links| - 1], day)
  }

  /** loadTrafficShieldAggregate: one requested date, summed over the author's rings. */
  function DailyTotal(links: seq<seq<Event>>, day: int): nat {
    if links == [] then 0
    else DailyTotal(links[..|links| - 1], day) + Read(RecordAll(links[|links| - 1]), day)
  }

  lemma {:induction false} DailyTotalIsExact(links: seq<seq<Event>>, today: int, age: int)
    requires forall events, e | events in links && e in events && e.outcome.IsFiltered() :: e.day <= today
    requires 0 <= age < RING_SLOTS
    ensures DailyTotal(links, today - age) == TotalOn(links, today - age)
  {
    if links != [] {
      DailyTotalIsExact(links[..|links| - 1], today, age);
      RingIsHistogram(links[|links| - 1], today, age);
    }
  }

  datatype DayState = CollectingDay | ExactDay | ExactSoFar
  datatype ReportDay = ReportDay(day: int, count: Option<nat>, state: DayState)
  datatype ShieldReport = ShieldReport(historyTotal: Option<nat>, isExact: bool, days: seq<ReportDay>)

  /** What one day may show once tracking began at `activationMs`. */
  function DayOf(today: int, age: int, count: nat, activationMs: Option<int>): ReportDay {
    var day := today - age;
    if activationMs.None? then ReportDay(day, None, CollectingDay)
    else if activationMs.value <= DayStart(day) then
      ReportDay(day, Some(count), if age == 0 then ExactSoFar else ExactDay)
    else if age == 0 || activationMs.value < DayStart(day + 1) then
      ReportDay(day, Some(count), CollectingDay)
    else ReportDay(day, None, CollectingDay)
  }

  function ShownTotal(days: seq<ReportDay>): nat {
    if days == [] then 0 else ShownTotal(days[..|days| - 1]) + days[|days| - 1].count.GetOr(0)
  }

  /**
   What a day shows, by moments: its count is exact when tracking began before every moment of it, and shown
   at all when that is today's or tracking began before its end.
   */
  lemma DayShowsExactly(today: int, age: nat, count: nat, activationMs: int)
    ensures var shown := DayOf(today, age, count, Some(activationMs));
            && shown.day == today - age
            && (shown.state != CollectingDay <==>
                  forall atMs | IndiaDay(atMs) == today - age :: activationMs <= atMs)
            && (shown.state == ExactSoFar ==> age == 0) && (shown.state == ExactDay ==> age != 0)
            && (shown.count == None <==>
                  age != 0 && forall atMs | IndiaDay(atMs) == today - age :: atMs < activationMs)
            && (shown.count != None ==> shown.count == Some(count))
    ensures DayOf(today, age, count, None) == ReportDay(today - age, None, CollectingDay)
  {
    var day := today - age;
    DayIsCoveredExactly(activationMs, day);
    DaysTile(DayStart(day + 1) - 1, day);
    forall atMs | IndiaDay(atMs) == day
      ensures atMs < DayStart(day + 1)
    {
      DaysTile(atMs, day);
    }
    hide IndiaDay;
  }

  /** The seven days, newest first; the history is exact when tracking covers all of them. */
  method LoadTrafficShieldReport(today: int, dailyTotals: seq<nat>, activationMs: Option<int>)
    returns (r: ShieldReport)
    requires |dailyTotals| == RING_SLOTS
    ensures |r.days| == RING_SLOTS
    ensures forall i | 0 <= i < RING_SLOTS :: r.days[i] == DayOf(today, i, dailyTotals[i], activationMs)
    ensures r.historyTotal == if activationMs.None? then None else Some(ShownTotal(r.days))
    ensures r.isExact <==> activationMs.Some? && activationMs.value <= DayStart(today - 6)
  {
    var historyTotal: nat := 0;
    var allExact := activationMs.Some?;
    var days: seq<ReportDay> := [];
    for i := 0 to RING_SLOTS
      invariant |days| == i
      invariant forall k | 0 <= k < i :: days[k] == DayOf(today, k, dailyTotals[k], activationMs)
      invariant historyTotal == ShownTotal(days)
      invariant allExact <==> activationMs.Some? && (i > 0 ==> activationMs.value <= DayStart(today - (i - 1)))
    {
      var day := today - i;
      var count := dailyTotals[i];
      var entry: ReportDay;
      if activationMs.None? {
        allExact := false;
        entry := ReportDay(day, None, CollectingDay);
      } else if i == 0 {
        var state := if activationMs.value <= DayStart(day) then ExactSoFar else CollectingDay;
        if state != ExactSoFar {
          allExact := false;
        }
        historyTotal := historyTotal + count;
        entry := ReportDay(day, Some(count), state);
      } else if activationMs.value < DayStart(day + 1) {
        var state := if activationMs.value <= DayStart(day) then ExactDay else CollectingDay;
        if state != ExactDay {
          allExact := false;
        }
        historyTotal := historyTotal + count;
        entry := ReportDay(day, Some(count), state);
      } else {
        allExact := false;
        entry := ReportDay(day, None, CollectingDay);
      }
      assert (days + [entry])[..i] == days;
      days := days + [entry];
    }
    return ShieldReport(if activationMs.None? then None else Some(historyTotal), allExact, days);
  }

  /** The author's filtered events on the n days up to `today`. */
  function WeekTotal(links: seq<seq<Event>>, today: int, n: nat): nat {
    if n == 0 then 0 else WeekTotal(links, today, n - 1) + TotalOn(links, today - (n - 1))
  }

  /** An exact history total is the number of filtered events of the seven days, whatever their order. */
  lemma {:induction false} ExactHistoryCountsEvents(
    links: seq<seq<Event>>, today: int, activationMs: int, days: seq<ReportDay>)
    requires forall events, e | events in links && e in events && e.outcome.IsFiltered() :: e.day <= today
    requires |days| <= RING_SLOTS && activationMs <= DayStart(today - 6)
    requires forall i | 0 <= i < |days| ::
               days[i] == DayOf(today, i, DailyTotal(links, today - i), Some(activationMs))
    ensures ShownTotal(days) == WeekTotal(links, today, |days|)
  {
    if days != [] {
      var n := |days| - 1;
      ExactHistoryCountsEvents(links, today, activationMs, days[..n]);
      DailyTotalIsExact(links, today, n);
    }
  }
}
