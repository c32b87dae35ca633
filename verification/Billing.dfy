/** Recurring billing: `run_due_billing` in services/bss-service/app/billing_cycles.py. Times are in seconds, amounts
    in cents, tax rates in thousandths of a percent. */
module Billing {
  import opened Common
  import opened Invoices

  const DAY := 86400

  /** The calendar day (UTC) a time falls on. */
  function Day(t: int): int {
    t / DAY
  }

  datatype Plan = Plan(name: string, fee: int, active: bool)

  datatype Schedule = Schedule(
    tenant: string,
    account: string,
    plan: string,
    cycleDays: int,
    dueDays: int,
    taxPercent: int,
    customAmount: Option<int>,
    next: int,
    last: Option<int>,
    active: bool,
    auto: bool)

  datatype Ledger = Ledger(schedules: seq<Schedule>, book: Book)

  /** The last 24 characters of the account code. */
  function Code(s: Schedule): string {
    if |s.account| <= 24 then s.account else s.account[|s.account| - 24..]
  }

  function NumberFor(s: Schedule): Number {
    Cycle(Code(s), Day(s.next))
  }

  predicate IsDue(s: Schedule, now: int, tenant: Option<string>) {
    s.active && s.auto && s.next <= now && (tenant.None? || s.tenant == tenant.value)
  }

  /* ---- tax ---- */

  /** The exact tax is subtotal * percent / 100000 cents; halves go up. */
  function TaxOf(subtotal: int, percent: int): int {
    (2 * (subtotal * percent) + 100000) / 200000
  }

  /** The tax is the one whole number of cents within half a cent of the exact value, the upper one on a tie. */
  lemma TaxIsNearest(subtotal: int, percent: int, tax: int)
    ensures tax == TaxOf(subtotal, percent)
       <==> -100000 < 2 * (tax * 100000 - subtotal * percent) <= 100000
  {
    var exact := subtotal * percent;
    assert tax == (2 * exact + 100000) / 200000 <==> 0 <= 2 * exact + 100000 - 200000 * tax < 200000;
  }

  lemma TaxNonNegative(subtotal: int, percent: int)
    requires subtotal >= 0 && percent >= 0
    ensures TaxOf(subtotal, percent) >= 0
  {
    assert subtotal * percent >= 0;
  }

  /* ---- one schedule ---- */

  function Subtotal(s: Schedule, plan: Plan): int {
    if s.customAmount.Some? then s.customAmount.value else plan.fee
  }

  function LinesFor(s: Schedule, plan: Plan): seq<LineItem> {
    var tax := TaxOf(Subtotal(s, plan), s.taxPercent);
    [LineItem(plan.name, Subtotal(s, plan))] + if tax != 0 then [LineItem("Tax", tax)] else []
  }

  function InvoiceFor(s: Schedule, plan: Plan, now: int): Invoice {
    var tax := TaxOf(Subtotal(s, plan), s.taxPercent);
    var total := Subtotal(s, plan) + tax;
    Invoice(NumberFor(s), Some(s.tenant), Subtotal(s, plan), tax, total, total, Issued, now + s.dueDays * DAY,
            Some(s.next), Some(s.next + s.cycleDays * DAY - 1), LinesFor(s, plan))
  }

  function Advanced(s: Schedule): Schedule {
    s.(last := Some(s.next), next := s.next + s.cycleDays * DAY)
  }

  function SumOfLines(lines: seq<LineItem>): int {
    if lines == [] then 0 else lines[0].total + SumOfLines(lines[1..])
  }

  /** The line items of a generated invoice add up to its amount, which is what it owes; its tax is rounded to the
      nearest cent, halves up. */
  lemma LinesSumToAmount(s: Schedule, plan: Plan, now: int)
    ensures var v := InvoiceFor(s, plan, now);
      && SumOfLines(v.lineItems) == v.amount == v.balance == v.subtotal + v.tax
      && -100000 < 2 * (v.tax * 100000 - v.subtotal * s.taxPercent) <= 100000
  {
    var v := InvoiceFor(s, plan, now);
    TaxIsNearest(v.subtotal, s.taxPercent, v.tax);
    assert SumOfLines(v.lineItems[1..]) == v.tax by {
      if v.tax != 0 {
        assert v.lineItems[1..] == [LineItem("Tax", v.tax)];
        assert v.lineItems[1..][1..] == [];
      }
    }
  }

  /* ---- one run ---- */

  predicate PlanActive(plans: map<string, Plan>, s: Schedule) {
    s.plan in plans && plans[s.plan].active
  }

  /** The session of a run: schedules as changed so far, invoices added and accounts failed. */
  datatype Work = Work(schedules: seq<Schedule>, added: seq<Invoice>, failures: seq<string>)

  /** The number is looked up among the committed invoices only: the session does not flush before the query. */
  function BillOne(w: Work, committed: seq<Invoice>, plans: map<string, Plan>, i: nat, now: int): Work {
    if i >= |w.schedules| then w
    else
      var s := w.schedules[i];
      if !PlanActive(plans, s) then w.(failures := w.failures + [s.account])
      else
        Work(w.schedules[i := Advanced(s)],
             if NumberTaken(committed, NumberFor(s)) then w.added else w.added + [InvoiceFor(s, plans[s.plan], now)],
             w.failures)
  }

  function BillAll(w: Work, committed: seq<Invoice>, plans: map<string, Plan>, batch: seq<nat>, now: int): Work {
    if batch == [] then w
    else BillOne(BillAll(w, committed, plans, batch[..|batch| - 1], now), committed, plans, batch[|batch| - 1], now)
  }

  /** Two added invoices with one number fail the commit. */
  predicate Clash(added: seq<Invoice>) {
    exists j, k | 0 <= j < k < |added| :: added[j].number == added[k].number
  }

  function SessionOf(l: Ledger, plans: map<string, Plan>, batch: seq<nat>, now: int): Work {
    BillAll(Work(l.schedules, [], []), l.book.invoices, plans, batch, now)
  }

  /** A run over the schedules of `batch`; without the advisory lock, or when the commit fails, nothing changes. */
  function Billed(l: Ledger, plans: map<string, Plan>, batch: seq<nat>, now: int, locked: bool): Ledger {
    var w := SessionOf(l, plans, batch, now);
    if !locked || Clash(w.added) then l
    else Ledger(w.schedules, l.book.(invoices := l.book.invoices + w.added))
  }

  predicate Distinct(batch: seq<nat>) {
    forall j, k | 0 <= j < k < |batch| :: batch[j] != batch[k]
  }

  const BATCH_LIMIT := 1000

  /** A batch the query may return: the due schedules, earliest first, at most 1000 of them. */
  ghost predicate Selected(schedules: seq<Schedule>, now: int, tenant: Option<string>, batch: seq<nat>) {
    && Distinct(batch) && |batch| <= BATCH_LIMIT
    && (forall k | 0 <= k < |batch| :: batch[k] < |schedules| && IsDue(schedules[batch[k]], now, tenant))
    && (forall j, k | 0 <= j < k < |batch| :: schedules[batch[j]].next <= schedules[batch[k]].next)
    && (forall i: nat | i < |schedules| && IsDue(schedules[i], now, tenant) && i !in batch ::
          |batch| == BATCH_LIMIT && forall k | 0 <= k < |batch| :: schedules[batch[k]].next <= schedules[i].next)
  }

  /* ---- what a run does, schedule by schedule ---- */

  /** The invoices a batch generates, read off the schedules as they were. */
  function Generated(schedules: seq<Schedule>, committed: seq<Invoice>, plans: map<string, Plan>, batch: seq<nat>,
                     now: int): seq<Invoice> {
    if batch == [] then []
    else
      var i := batch[|batch| - 1];
      Generated(schedules, committed, plans, batch[..|batch| - 1], now) +
      if i < |schedules| && PlanActive(plans, schedules[i]) && !NumberTaken(committed, NumberFor(schedules[i]))
      then [InvoiceFor(schedules[i], plans[schedules[i].plan], now)] else []
  }

  /** The schedules after a run over a batch, read off the schedules as they were. */
  ghost predicate AdvancedOnce(before: seq<Schedule>, after: seq<Schedule>, plans: map<string, Plan>, batch: seq<nat>) {
    && |after| == |before|
    && forall i: nat | i < |before| ::
         after[i] == if i in batch && PlanActive(plans, before[i]) then Advanced(before[i]) else before[i]
  }

  lemma AdvancedOneMore(before: seq<Schedule>, w: Work, committed: seq<Invoice>, plans: map<string, Plan>,
                        batch: seq<nat>, i: nat, now: int)
    requires AdvancedOnce(before, w.schedules, plans, batch) && i < |before| && i !in batch
    ensures AdvancedOnce(before, BillOne(w, committed, plans, i, now).schedules, plans, batch + [i])
    ensures w.schedules[i] == before[i]
  {
    assert forall k: nat :: k in batch + [i] <==> k in batch || k == i;
  }

  /** A run bills each schedule of its batch once, on what it was before the run: a schedule with an active plan
      advances, and is invoiced unless its number is taken; the others are as before. */
  lemma {:induction false} RunIs(schedules: seq<Schedule>, committed: seq<Invoice>, plans: map<string, Plan>,
                                 batch: seq<nat>, now: int)
    requires Distinct(batch) && forall k | 0 <= k < |batch| :: batch[k] < |schedules|
    ensures var w := BillAll(Work(schedules, [], []), committed, plans, batch, now);
      w.added == Generated(schedules, committed, plans, batch, now)
        && AdvancedOnce(schedules, w.schedules, plans, batch)
  {
    if batch != [] {
      var n := |batch| - 1;
      RunIs(schedules, committed, plans, batch[..n], now);
      assert batch[n] !in batch[..n] && batch[..n] + [batch[n]] == batch;
      AdvancedOneMore(schedules, BillAll(Work(schedules, [], []), committed, plans, batch[..n], now), committed,
                      plans, batch[..n], batch[n], now);
    }
  }

  /* ---- coverage ---- */

  /** The day in an invoice's number and its billing period. */
  datatype Period = Period(day: int, start: Option<int>, end: Option<int>)

  predicate ForCode(v: Invoice, code: string) {
    v.number.Cycle? && v.number.code == code
  }

  /** The periods invoiced under a code, oldest invoice first. */
  function Periods(invoices: seq<Invoice>, code: string): seq<Period> {
    if invoices == [] then []
    else
      var v := invoices[|invoices| - 1];
      Periods(invoices[..|invoices| - 1], code)
      + if ForCode(v, code) then [Period(v.number.day, v.periodStart, v.periodEnd)] else []
  }

  /** The start of the k-th period: k cycles after `start`. */
  function StartOf(start: int, cycleDays: int, k: nat): int {
    if k == 0 then start else StartOf(start, cycleDays, k - 1) + cycleDays * DAY
  }

  lemma {:induction false} StartOfIs(start: int, cycleDays: int, k: nat)
    ensures StartOf(start, cycleDays, k) == start + k * cycleDays * DAY
  {
    if k > 0 {
      StartOfIs(start, cycleDays, k - 1);
      assert k * cycleDays == (k - 1) * cycleDays + cycleDays;
    }
  }

  /** The k-th period from `start`, which ends a second before the next one begins. */
  function PeriodAt(start: int, cycleDays: int, k: nat): Period {
    Period(Day(StartOf(start, cycleDays, k)), Some(StartOf(start, cycleDays, k)),
           Some(StartOf(start, cycleDays, k) + cycleDays * DAY - 1))
  }

  /** Schedule s has been invoiced for its first periods since `start`, and its next one is the first not invoiced. */
  predicate Covered(s: Schedule, invoices: seq<Invoice>, start: int) {
    var periods := Periods(invoices, Code(s));
    && s.cycleDays >= 1
    && (forall k | 0 <= k < |periods| :: periods[k] == PeriodAt(start, s.cycleDays, k))
    && s.next == StartOf(start, s.cycleDays, |periods|)
  }

  predicate DistinctCodes(schedules: seq<Schedule>) {
    forall i, j | 0 <= i < j < |schedules| :: Code(schedules[i]) != Code(schedules[j])
  }

  predicate UniqueNumbers(invoices: seq<Invoice>) {
    forall j, k | 0 <= j < k < |invoices| :: invoices[j].number != invoices[k].number
  }

  ghost predicate AllCovered(schedules: seq<Schedule>, invoices: seq<Invoice>, starts: seq<int>) {
    && |starts| == |schedules| && DistinctCodes(schedules) && UniqueNumbers(invoices)
    && forall i | 0 <= i < |schedules| :: Covered(schedules[i], invoices, starts[i])
  }

  lemma PeriodsAppend(invoices: seq<Invoice>, v: Invoice, code: string)
    ensures Periods(invoices + [v], code)
         == Periods(invoices, code)
            + if ForCode(v, code) then [Period(v.number.day, v.periodStart, v.periodEnd)] else []
  {
    assert (invoices + [v])[..|invoices|] == invoices;
  }

  lemma {:induction false} InPeriods(invoices: seq<Invoice>, code: string, j: nat)
    requires j < |invoices| && ForCode(invoices[j], code)
    ensures exists k | 0 <= k < |Periods(invoices, code)| :: Periods(invoices, code)[k].day == invoices[j].number.day
  {
    var n := |invoices| - 1;
    if j < n {
      InPeriods(invoices[..n], code, j);
      var k :| 0 <= k < |Periods(invoices[..n], code)| && Periods(invoices[..n], code)[k].day == invoices[j].number.day;
      assert Periods(invoices, code)[k] == Periods(invoices[..n], code)[k];
    } else {
      assert Periods(invoices, code)[|Periods(invoices[..n], code)|].day == invoices[j].number.day;
    }
  }

  /** Different periods of a schedule begin on different days. */
  lemma {:induction false} DaysDiffer(start: int, cycleDays: int, k: nat, n: nat)
    requires cycleDays >= 1 && k < n
    ensures Day(StartOf(start, cycleDays, k)) < Day(StartOf(start, cycleDays, n))
  {
    var before := StartOf(start, cycleDays, n - 1);
    assert (before + cycleDays * DAY) / DAY == before / DAY + cycleDays;
    if k < n - 1 {
      DaysDiffer(start, cycleDays, k, n - 1);
    }
  }

  /** The number of a covered schedule's next invoice is new. */
  lemma NextNumberIsNew(s: Schedule, invoices: seq<Invoice>, start: int)
    requires Covered(s, invoices, start)
    ensures !NumberTaken(invoices, NumberFor(s))
  {
    var periods := Periods(invoices, Code(s));
    if j :| 0 <= j < |invoices| && invoices[j].number == NumberFor(s) {
      InPeriods(invoices, Code(s), j);
      var k :| 0 <= k < |periods| && periods[k].day == invoices[j].number.day;
      DaysDiffer(start, s.cycleDays, k, |periods|);
      assert false;
    }
  }

  lemma NextPeriod(s: Schedule, invoices: seq<Invoice>, start: int, v: Invoice)
    requires Covered(s, invoices, start)
    requires v.number == NumberFor(s)
    requires Period(v.number.day, v.periodStart, v.periodEnd)
      == Period(Day(s.next), Some(s.next), Some(s.next + s.cycleDays * DAY - 1))
    ensures Covered(Advanced(s), invoices + [v], start)
    ensures |Periods(invoices + [v], Code(s))| == |Periods(invoices, Code(s))| + 1
  {
    var before := Periods(invoices, Code(s));
    PeriodsAppend(invoices, v, Code(s));
    assert Periods(invoices + [v], Code(s)) == before + [PeriodAt(start, s.cycleDays, |before|)];
  }

  /** An invoice of another schedule changes nothing for this one. */
  lemma OthersPeriod(s: Schedule, invoices: seq<Invoice>, start: int, v: Invoice)
    requires Covered(s, invoices, start) && !ForCode(v, Code(s))
    ensures Covered(s, invoices + [v], start)
  {
    PeriodsAppend(invoices, v, Code(s));
  }

  lemma ScheduleCovers(schedules: seq<Schedule>, all: seq<Invoice>, i: nat, v: Invoice, starts: seq<int>)
    requires AllCovered(schedules, all, starts) && i < |schedules|
    requires var s := schedules[i];
      v.number == NumberFor(s) && v.periodStart == Some(s.next) && v.periodEnd == Some(s.next + s.cycleDays * DAY - 1)
    ensures AllCovered(schedules[i := Advanced(schedules[i])], all + [v], starts)
    ensures !NumberTaken(all, v.number)
  {
    var s := schedules[i];
    NextNumberIsNew(s, all, starts[i]);
    NextPeriod(s, all, starts[i], v);
    UniqueAppend(all, v);
    forall j | 0 <= j < |schedules| && j != i
      ensures Covered(schedules[j], all + [v], starts[j])
    {
      assert Covered(schedules[j], all, starts[j]) && Code(schedules[j]) != Code(s);
      OthersPeriod(schedules[j], all, starts[j], v);
    }
    var t := schedules[i := Advanced(s)];
    assert forall j | 0 <= j < |t| :: Code(t[j]) == Code(schedules[j]);
  }

  /** What billing schedule `i` does to the work so far: nothing, or it advances the schedule and, unless the number is
      taken, adds its next invoice. */
  predicate Inserts(w: Work, after: Work, committed: seq<Invoice>, i: nat) {
    || (after.schedules == w.schedules && after.added == w.added)
    || (&& i < |w.schedules| && after.schedules == w.schedules[i := Advanced(w.schedules[i])]
        && var s, n := w.schedules[i], |w.added|;
           !NumberTaken(committed, NumberFor(s)) ==>
             && |after.added| == n + 1 && after.added[..n] == w.added && after.added[n].number == NumberFor(s)
             && after.added[n].periodStart == Some(s.next)
             && after.added[n].periodEnd == Some(s.next + s.cycleDays * DAY - 1))
  }

  lemma BillOneInserts(w: Work, committed: seq<Invoice>, plans: map<string, Plan>, i: nat, now: int)
    ensures Inserts(w, BillOne(w, committed, plans, i, now), committed, i)
  {}

  /** Billing one schedule keeps every schedule covered. */
  lemma InsertCovers(w: Work, after: Work, committed: seq<Invoice>, i: nat, starts: seq<int>)
    requires AllCovered(w.schedules, committed + w.added, starts) && Inserts(w, after, committed, i)
    ensures AllCovered(after.schedules, committed + after.added, starts)
  {
    if after.schedules != w.schedules || after.added != w.added {
      var s, n := w.schedules[i], |w.added|;
      NextNumberIsNew(s, committed + w.added, starts[i]);
      NotTakenInPart(committed, w.added, NumberFor(s));
      var v := after.added[n];
      ScheduleCovers(w.schedules, committed + w.added, i, v, starts);
      assert after.added == w.added + [v];
      assert committed + (w.added + [v]) == (committed + w.added) + [v];
    }
  }

  lemma NotTakenInPart(a: seq<Invoice>, b: seq<Invoice>, number: Number)
    requires !NumberTaken(a + b, number)
    ensures !NumberTaken(a, number)
  {
    assert forall i | 0 <= i < |a| :: (a + b)[i] == a[i];
  }

  lemma UniqueAppend(invoices: seq<Invoice>, v: Invoice)
    requires UniqueNumbers(invoices) && !NumberTaken(invoices, v.number)
    ensures UniqueNumbers(invoices + [v])
  {}

  lemma {:induction false} BillAllCovers(w: Work, committed: seq<Invoice>, plans: map<string, Plan>, batch: seq<nat>,
                                         now: int, starts: seq<int>)
    requires AllCovered(w.schedules, committed + w.added, starts)
    ensures var w' := BillAll(w, committed, plans, batch, now); AllCovered(w'.schedules, committed + w'.added, starts)
  {
    if batch != [] {
      var n := |batch| - 1;
      BillAllCovers(w, committed, plans, batch[..n], now, starts);
      var u := BillAll(w, committed, plans, batch[..n], now);
      BillOneInserts(u, committed, plans, batch[n], now);
      InsertCovers(u, BillOne(u, committed, plans, batch[n], now), committed, batch[n], starts);
    }
  }

  /** A run over covered schedules commits and keeps them covered. */
  lemma RunCovers(l: Ledger, plans: map<string, Plan>, batch: seq<nat>, now: int, locked: bool, starts: seq<int>)
    requires AllCovered(l.schedules, l.book.invoices, starts)
    ensures var t := Billed(l, plans, batch, now, locked); AllCovered(t.schedules, t.book.invoices, starts)
    ensures !Clash(SessionOf(l, plans, batch, now).added)
  {
    var w := SessionOf(l, plans, batch, now);
    assert l.book.invoices + [] == l.book.invoices;
    BillAllCovers(Work(l.schedules, [], []), l.book.invoices, plans, batch, now, starts);
    var all := l.book.invoices + w.added;
    forall j, k | 0 <= j < k < |w.added|
      ensures w.added[j].number != w.added[k].number
    {
      assert w.added[j] == all[|l.book.invoices| + j] && w.added[k] == all[|l.book.invoices| + k];
    }
  }

  /* ---- runs of the whole service ---- */

  /** Plans may change from one billing run to the next; the batch is any selection of schedules. */
  datatype Event =
    | Bill(plans: map<string, Plan>, batch: seq<nat>, now: int, locked: bool)
    | Desk(step: Step)

  function Happened(l: Ledger, e: Event): Ledger {
    match e
    case Bill(plans, batch, now, locked) => Billed(l, plans, batch, now, locked)
    case Desk(step) => l.(book := Invoices.Next(l.book, step))
  }

  function History(l: Ledger, events: seq<Event>): Ledger {
    if events == [] then l else Happened(History(l, events[..|events| - 1]), events[|events| - 1])
  }

  lemma {:induction false} SamePeriods(a: seq<Invoice>, b: seq<Invoice>, code: string)
    requires |a| == |b|
    requires forall i | 0 <= i < |a| ::
      a[i].number == b[i].number && a[i].periodStart == b[i].periodStart && a[i].periodEnd == b[i].periodEnd
    ensures Periods(a, code) == Periods(b, code)
  {
    if a != [] {
      SamePeriods(a[..|a| - 1], b[..|b| - 1], code);
    }
  }

  /** Work at the invoice desk changes no billing period. */
  lemma DeskKeepsPeriods(b: Book, step: Step, code: string)
    requires UniqueNumbers(b.invoices)
    ensures Periods(Invoices.Next(b, step).invoices, code) == Periods(b.invoices, code)
    ensures UniqueNumbers(Invoices.Next(b, step).invoices)
  {
    var t := Invoices.Next(b, step);
    if step.Create? && Creatable(b, step.invoice) {
      PeriodsAppend(b.invoices, step.invoice, code);
      UniqueAppend(b.invoices, step.invoice);
    } else {
      assert |t.invoices| == |b.invoices|;
      assert forall i | 0 <= i < |b.invoices| ::
        && t.invoices[i].number == b.invoices[i].number
        && t.invoices[i].periodStart == b.invoices[i].periodStart
        && t.invoices[i].periodEnd == b.invoices[i].periodEnd;
      SamePeriods(b.invoices, t.invoices, code);
    }
  }

  function Starts(schedules: seq<Schedule>): (r: seq<int>)
    ensures |r| == |schedules| && forall i | 0 <= i < |r| :: r[i] == schedules[i].next
  {
    seq(|schedules|, i requires 0 <= i < |schedules| => schedules[i].next)
  }

  /** Distinct account codes, positive cycles, and no invoice under those codes yet. */
  ghost predicate Opening(l: Ledger) {
    && DistinctCodes(l.schedules) && UniqueNumbers(l.book.invoices)
    && (forall s | s in l.schedules :: s.cycleDays >= 1 && Periods(l.book.invoices, Code(s)) == [])
  }

  lemma {:induction false} HistoryCovers(l: Ledger, events: seq<Event>)
    requires Opening(l)
    ensures var t := History(l, events); AllCovered(t.schedules, t.book.invoices, Starts(l.schedules))
  {
    var starts := Starts(l.schedules);
    if events == [] {
      forall i | 0 <= i < |l.schedules|
        ensures Covered(l.schedules[i], l.book.invoices, starts[i])
      {
        assert l.schedules[i] in l.schedules;
      }
    } else {
      var t := History(l, events[..|events| - 1]);
      HistoryCovers(l, events[..|events| - 1]);
      match events[|events| - 1]
      case Bill(plans, batch, now, locked) => RunCovers(t, plans, batch, now, locked, starts);
      case Desk(step) =>
        DeskKeepsPeriods(t.book, step, "");
        forall i | 0 <= i < |t.schedules|
          ensures Covered(t.schedules[i], Invoices.Next(t.book, step).invoices, starts[i])
        {
          DeskKeepsPeriods(t.book, step, Code(t.schedules[i]));
        }
    }
  }

  /** What billing never changes about a schedule. */
  predicate SameTerms(s: Schedule, t: Schedule) {
    t.(next := s.next, last := s.last) == s
  }

  lemma {:induction false} BillAllKeepsTerms(w: Work, committed: seq<Invoice>, plans: map<string, Plan>,
                                             batch: seq<nat>, now: int)
    ensures var w' := BillAll(w, committed, plans, batch, now);
      |w'.schedules| == |w.schedules| && forall i | 0 <= i < |w.schedules| :: SameTerms(w.schedules[i], w'.schedules[i])
  {
    if batch != [] {
      BillAllKeepsTerms(w, committed, plans, batch[..|batch| - 1], now);
    }
  }

  lemma {:induction false} HistoryKeepsTerms(l: Ledger, events: seq<Event>)
    ensures var t := History(l, events);
      |t.schedules| == |l.schedules| && forall i | 0 <= i < |l.schedules| :: SameTerms(l.schedules[i], t.schedules[i])
  {
    if events != [] {
      var t := History(l, events[..|events| - 1]);
      HistoryKeepsTerms(l, events[..|events| - 1]);
      match events[|events| - 1]
      case Bill(plans, batch, now, _) =>
        BillAllKeepsTerms(Work(t.schedules, [], []), t.book.invoices, plans, batch, now);
      case Desk(_) =>
    }
  }

  /** Period k begins k cycles after the start and ends one second before period k + 1 begins. */
  lemma BackToBack(start: int, cycleDays: int, k: nat)
    ensures PeriodAt(start, cycleDays, k).start == Some(start + k * cycleDays * DAY)
    ensures PeriodAt(start, cycleDays, k).end == Some(start + (k + 1) * cycleDays * DAY - 1)
  {
    StartOfIs(start, cycleDays, k);
    StartOfIs(start, cycleDays, k + 1);
  }

  /** In every history each schedule has been invoiced for exactly its first n periods, once each and in order, and the
      next one to invoice is the period after them. */
  lemma {:induction false} ExactlyOnce(l: Ledger, events: seq<Event>, i: nat)
    requires Opening(l) && i < |l.schedules|
    ensures var s, t := l.schedules[i], History(l, events); var periods := Periods(t.book.invoices, Code(s));
      && |t.schedules| == |l.schedules| && SameTerms(s, t.schedules[i])
      && (forall k | 0 <= k < |periods| :: periods[k] == PeriodAt(s.next, s.cycleDays, k))
      && t.schedules[i].next == StartOf(s.next, s.cycleDays, |periods|)
  {
    HistoryCovers(l, events);
    HistoryKeepsTerms(l, events);
    var t := History(l, events);
    CoverageRead(l.schedules[i], t.schedules[i], t.book.invoices, Starts(l.schedules)[i]);
  }

  lemma CoverageRead(s: Schedule, t: Schedule, invoices: seq<Invoice>, start: int)
    requires SameTerms(s, t) && Covered(t, invoices, start)
    ensures var periods := Periods(invoices, Code(s));
      && (forall k | 0 <= k < |periods| :: periods[k] == PeriodAt(start, s.cycleDays, k))
      && t.next == StartOf(start, s.cycleDays, |periods|)
  {
    assert Code(t) == Code(s) && t.cycleDays == s.cycleDays;
  }

  /* ---- the service ---- */

  datatype Summary =
    | Skipped
    | CommitFailed
    | Completed(generated: nat, failures: seq<string>)

  class BillingService {
    var schedules: seq<Schedule>
    var invoices: seq<Invoice>
    var payments: seq<Payment>

    constructor (schedules: seq<Schedule>)
      ensures View() == Ledger(schedules, Book([], []))
    {
      this.schedules, invoices, payments := schedules, [], [];
    }

    function View(): Ledger
      reads this
    {
      Ledger(schedules, Book(invoices, payments))
    }

    static method BuildInvoice(s: Schedule, plan: Plan, now: int) returns (v: Invoice)
      ensures v == InvoiceFor(s, plan, now)
    {
      var subtotal := if s.customAmount.Some? then s.customAmount.value else plan.fee;
      var tax := TaxOf(subtotal, s.taxPercent);
      var lines := [LineItem(plan.name, subtotal)];
      if tax != 0 {
        lines := lines + [LineItem("Tax", tax)];
      }
      v := Invoice(Cycle(Code(s), Day(s.next)), Some(s.tenant), subtotal, tax, subtotal + tax, subtotal + tax, Issued,
                   now + s.dueDays * DAY, Some(s.next), Some(s.next + s.cycleDays * DAY - 1), lines);
    }

    /** One run over the selected schedules. The run's new invoices reach the database, and its constraint on
        numbers, at the commit. */
    method RunDueBilling(plans: map<string, Plan>, batch: seq<nat>, now: int, locked: bool) returns (summary: Summary)
      requires forall k | 0 <= k < |batch| :: batch[k] < |schedules|
      modifies this
      ensures View() == Billed(old(View()), plans, batch, now, locked)
      ensures summary ==
        var w := SessionOf(old(View()), plans, batch, now);
        if !locked then Skipped else if Clash(w.added) then CommitFailed else Completed(|w.added|, w.failures)
    {
      if !locked {
        return Skipped;
      }
      var committed := schedules;
      var added: seq<Invoice> := [];
      var generated: nat := 0;
      var failures: seq<string> := [];
      var k := 0;
      ghost var start := Work(schedules, [], []);
      while k < |batch|
        invariant 0 <= k <= |batch| && |schedules| == |committed|
        invariant invoices == old(invoices) && payments == old(payments)
        invariant Work(schedules, added, failures) == BillAll(start, invoices, plans, batch[..k], now)
        invariant generated == |added|
      {
        assert batch[..k + 1][..k] == batch[..k];
        var i := batch[k];
        var s := schedules[i];
        k := k + 1;
        if s.plan !in plans || !plans[s.plan].active {
          failures := failures + [s.account];
          continue;
        }
        schedules := schedules[i := s.(last := Some(s.next), next := s.next + s.cycleDays * DAY)];
        if NumberTaken(invoices, Cycle(Code(s), Day(s.next))) {
          continue;
        }
        var v := BuildInvoice(s, plans[s.plan], now);
        added := added + [v];
        generated := generated + 1;
      }
      assert batch[..k] == batch;
      if Clash(added) {
        schedules := committed;
        return CommitFailed;
      }
      invoices := invoices + added;
      return Completed(generated, failures);
    }
  }

  /* ---- a run in plain terms ---- */

  /** The code of an account: all of it up to 24 characters, otherwise the last 24. */
  lemma CodeMeans(s: Schedule)
    ensures |s.account| <= 24 ==> Code(s) == s.account
    ensures |s.account| > 24 ==> |Code(s)| == 24 && exists front :: front + Code(s) == s.account
  {
    if |s.account| > 24 {
      assert s.account[..|s.account| - 24] + Code(s) == s.account;
    }
  }

  /** What one invoice says about its schedule: the custom amount if there is one, whatever the plan charges, and the
      plan's fee otherwise; tax at the schedule's rate; issued, to the tenant, due the given days after the run. */
  ghost predicate InvoiceOf(v: Invoice, s: Schedule, plan: Plan, now: int) {
    && v.subtotal == (match s.customAmount case Some(amount) => amount case None => plan.fee)
    && v.tenant == Some(s.tenant) && v.due == now + s.dueDays * 86400 && v.status == Issued
    && v.number == Cycle(Code(s), s.next / 86400)
    && v.periodStart == Some(s.next) && v.periodEnd == Some(s.next + s.cycleDays * 86400 - 1)
    && v.tax == TaxOf(v.subtotal, s.taxPercent) && v.amount == v.balance == v.subtotal + v.tax
    && v.lineItems == [LineItem(plan.name, v.subtotal)] + if v.tax != 0 then [LineItem("Tax", v.tax)] else []
  }

  /** An active plan's schedule in the batch whose number is free. */
  ghost predicate Bills(schedules: seq<Schedule>, committed: seq<Invoice>, plans: map<string, Plan>, i: nat) {
    && i < |schedules| && schedules[i].plan in plans && plans[schedules[i].plan].active
    && forall k | 0 <= k < |committed| :: committed[k].number != Cycle(Code(schedules[i]), schedules[i].next / 86400)
  }

  /** The invoice is that of a billing schedule of the batch. */
  ghost predicate FromSome(
    v: Invoice, schedules: seq<Schedule>, committed: seq<Invoice>, plans: map<string, Plan>, batch: seq<nat>, now: int)
  {
    exists i | i in batch ::
      Bills(schedules, committed, plans, i) && InvoiceOf(v, schedules[i], plans[schedules[i].plan], now)
  }

  /** The schedule has an invoice among those added. */
  ghost predicate Invoiced(added: seq<Invoice>, s: Schedule, plan: Plan, now: int) {
    exists v | v in added :: InvoiceOf(v, s, plan, now)
  }

  ghost predicate EachFromBatch(
    added: seq<Invoice>, schedules: seq<Schedule>, committed: seq<Invoice>, plans: map<string, Plan>, batch: seq<nat>,
    now: int)
  {
    forall v | v in added :: FromSome(v, schedules, committed, plans, batch, now)
  }

  ghost predicate EachOfBatch(
    added: seq<Invoice>, schedules: seq<Schedule>, committed: seq<Invoice>, plans: map<string, Plan>, batch: seq<nat>,
    now: int)
  {
    forall i | i in batch && Bills(schedules, committed, plans, i) ::
      Invoiced(added, schedules[i], plans[schedules[i].plan], now)
  }

  lemma {:induction false} GeneratedMeans(
    schedules: seq<Schedule>, committed: seq<Invoice>, plans: map<string, Plan>, batch: seq<nat>, now: int)
    ensures var added := Generated(schedules, committed, plans, batch, now);
      && EachFromBatch(added, schedules, committed, plans, batch, now)
      && EachOfBatch(added, schedules, committed, plans, batch, now)
  {
    if batch != [] {
      var n := |batch| - 1;
      var front, i := batch[..n], batch[n];
      assert batch == front + [i];
      GeneratedMeans(schedules, committed, plans, front, now);
      OneMoreMeans(schedules, committed, plans, front, i, now, Generated(schedules, committed, plans, front, now),
                   Generated(schedules, committed, plans, batch, now));
    }
  }

  lemma FromSomeGrows(
    v: Invoice, schedules: seq<Schedule>, committed: seq<Invoice>, plans: map<string, Plan>, front: seq<nat>, i: nat,
    now: int)
    ensures FromSome(v, schedules, committed, plans, front + [i], now) <==>
      || FromSome(v, schedules, committed, plans, front, now)
      || (Bills(schedules, committed, plans, i) && InvoiceOf(v, schedules[i], plans[schedules[i].plan], now))
  {
    var batch := front + [i];
    assert i in batch && (forall j | j in front :: j in batch) && forall j | j in batch :: j in front || j == i;
  }

  lemma InvoicedGrows(before: seq<Invoice>, more: seq<Invoice>, s: Schedule, plan: Plan, now: int)
    requires Invoiced(before, s, plan, now)
    ensures Invoiced(before + more, s, plan, now)
  {
    var v :| v in before && InvoiceOf(v, s, plan, now);
    assert v in before + more;
  }

  lemma OneMoreMeans(
    schedules: seq<Schedule>, committed: seq<Invoice>, plans: map<string, Plan>, front: seq<nat>, i: nat, now: int,
    before: seq<Invoice>, added: seq<Invoice>)
    requires EachFromBatch(before, schedules, committed, plans, front, now)
    requires EachOfBatch(before, schedules, committed, plans, front, now)
    requires added == before
      + if i < |schedules| && PlanActive(plans, schedules[i]) && !NumberTaken(committed, NumberFor(schedules[i]))
        then [InvoiceFor(schedules[i], plans[schedules[i].plan], now)] else []
    ensures EachFromBatch(added, schedules, committed, plans, front + [i], now)
    ensures EachOfBatch(added, schedules, committed, plans, front + [i], now)
  {
    BillsIff(schedules, committed, plans, i);
    forall v | v in added
      ensures FromSome(v, schedules, committed, plans, front + [i], now)
    {
      FromSomeGrows(v, schedules, committed, plans, front, i, now);
    }
    forall j | j in front + [i] && Bills(schedules, committed, plans, j)
      ensures Invoiced(added, schedules[j], plans[schedules[j].plan], now)
    {
      if j in front {
        InvoicedGrows(before, added[|before|..], schedules[j], plans[schedules[j].plan], now);
        assert before + added[|before|..] == added;
      } else {
        assert InvoiceFor(schedules[i], plans[schedules[i].plan], now) in added;
      }
    }
  }

  lemma BillsIff(schedules: seq<Schedule>, committed: seq<Invoice>, plans: map<string, Plan>, i: nat)
    ensures Bills(schedules, committed, plans, i) <==>
      i < |schedules| && PlanActive(plans, schedules[i]) && !NumberTaken(committed, NumberFor(schedules[i]))
  {}

  /** The invoices a committed run adds: for each schedule of the batch that bills, one as described, and no others. The
      schedules that advance move on by their cycle and remember the start they billed. */
  lemma RunMeans(l: Ledger, plans: map<string, Plan>, batch: seq<nat>, now: int)
    requires Distinct(batch) && forall k | 0 <= k < |batch| :: batch[k] < |l.schedules|
    requires Billed(l, plans, batch, now, true) != l
    ensures var t := Billed(l, plans, batch, now, true);
      && |l.book.invoices| <= |t.book.invoices| && t.book.invoices[..|l.book.invoices|] == l.book.invoices
      && t.book.payments == l.book.payments && |t.schedules| == |l.schedules|
      && EachFromBatch(t.book.invoices[|l.book.invoices|..], l.schedules, l.book.invoices, plans, batch, now)
      && EachOfBatch(t.book.invoices[|l.book.invoices|..], l.schedules, l.book.invoices, plans, batch, now)
      && forall i: nat | i < |l.schedules| ::
           var s := l.schedules[i];
           t.schedules[i] ==
           if i in batch && s.plan in plans && plans[s.plan].active
           then s.(last := Some(s.next), next := s.next + s.cycleDays * 86400) else s
  {
    RunIs(l.schedules, l.book.invoices, plans, batch, now);
    GeneratedMeans(l.schedules, l.book.invoices, plans, batch, now);
    var added := SessionOf(l, plans, batch, now).added;
    assert Billed(l, plans, batch, now, true).book.invoices[|l.book.invoices|..] == added;
  }

  /** With a custom amount the fee of the plan does not matter. */
  lemma CustomIgnoresFee(s: Schedule, a: Plan, b: Plan, now: int, v: Invoice)
    requires s.customAmount.Some? && a.name == b.name
    ensures InvoiceOf(v, s, a, now) <==> InvoiceOf(v, s, b, now)
    ensures InvoiceFor(s, a, now) == InvoiceFor(s, b, now) && InvoiceFor(s, a, now).subtotal == s.customAmount.value
  {}

  /** The accounts a run reports as failed: those of its batch without an active plan, in order. */
  lemma {:induction false} FailuresMean(
    schedules: seq<Schedule>, committed: seq<Invoice>, plans: map<string, Plan>, batch: seq<nat>, i: nat, now: int)
    requires Distinct(batch + [i]) && forall k | 0 <= k < |batch + [i]| :: (batch + [i])[k] < |schedules|
    ensures BillAll(Work(schedules, [], []), committed, plans, [], now).failures == []
    ensures var before := BillAll(Work(schedules, [], []), committed, plans, batch, now).failures;
      BillAll(Work(schedules, [], []), committed, plans, batch + [i], now).failures
      == before + if schedules[i].plan in plans && plans[schedules[i].plan].active then [] else [schedules[i].account]
  {
    assert (batch + [i])[..|batch|] == batch && (batch + [i])[|batch|] == i;
    assert forall k | 0 <= k < |batch| :: (batch + [i])[k] == batch[k];
    assert i !in batch;
    RunIs(schedules, committed, plans, batch, now);
  }

  /** What a selection may hold: active schedules that invoice automatically, due by now, of the tenant if one is
      given. */
  lemma DueMeans(s: Schedule, now: int, tenant: Option<string>)
    ensures IsDue(s, now, tenant) <==> s.active && s.auto && s.next <= now && tenant in {None, Some(s.tenant)}
    ensures BATCH_LIMIT == 1000
  {}
}
