/** What repeated billing runs achieve: progress, catching up, conservation of money; and the runs that cannot
    commit. */
module BillingRuns {
  import opened Common
  import opened Invoices
  import opened Billing
  import opened Sorting

  /* ---- one run, schedule by schedule ---- */

  /** How many periods have been invoiced follows from the next start. */
  lemma CountFromNext(s: Schedule, t: Schedule, before: seq<Invoice>, after: seq<Invoice>, start: int)
    requires Covered(s, before, start) && Covered(t, after, start) && SameTerms(s, t)
    ensures t.next == s.next ==> |Periods(after, Code(s))| == |Periods(before, Code(s))|
    ensures t.next == s.next + s.cycleDays * DAY ==> |Periods(after, Code(s))| == |Periods(before, Code(s))| + 1
  {
    var n, m := |Periods(before, Code(s))|, |Periods(after, Code(s))|;
    if t.next == s.next {
      StartOfInjective(start, s.cycleDays, m, n);
    } else if t.next == s.next + s.cycleDays * DAY {
      StartOfInjective(start, s.cycleDays, m, n + 1);
    }
  }

  lemma StartOfInjective(start: int, cycleDays: int, m: nat, n: nat)
    requires cycleDays >= 1 && StartOf(start, cycleDays, m) == StartOf(start, cycleDays, n)
    ensures m == n
  {
    if m < n {
      DaysDiffer(start, cycleDays, m, n);
    } else if n < m {
      DaysDiffer(start, cycleDays, n, m);
    }
  }

  /** A run that holds the lock invoices every schedule of its batch with an active plan for exactly one more period,
      and no other schedule. */
  lemma OnePeriodEach(l: Ledger, plans: map<string, Plan>, batch: seq<nat>, now: int, starts: seq<int>, i: nat)
    requires AllCovered(l.schedules, l.book.invoices, starts) && i < |l.schedules|
    requires Distinct(batch) && forall k | 0 <= k < |batch| :: batch[k] < |l.schedules|
    ensures var t := Billed(l, plans, batch, now, true); var s := l.schedules[i];
      && |t.schedules| == |l.schedules|
      && t.schedules[i] == (if i in batch && PlanActive(plans, s) then Advanced(s) else s)
      && |Periods(t.book.invoices, Code(s))|
         == |Periods(l.book.invoices, Code(s))| + if i in batch && PlanActive(plans, s) then 1 else 0
  {
    var t := Billed(l, plans, batch, now, true);
    var s := l.schedules[i];
    RunCovers(l, plans, batch, now, true, starts);
    RunIs(l.schedules, l.book.invoices, plans, batch, now);
    assert Covered(s, l.book.invoices, starts[i]) && Covered(t.schedules[i], t.book.invoices, starts[i]);
    CountFromNext(s, t.schedules[i], l.book.invoices, t.book.invoices, starts[i]);
  }

  /* ---- catching up ---- */

  /** Seconds by which a schedule is overdue, counting the second it falls due. */
  function Late(s: Schedule, now: int, tenant: Option<string>): nat {
    if IsDue(s, now, tenant) then now + 1 - s.next else 0
  }

  function TotalLate(schedules: seq<Schedule>, now: int, tenant: Option<string>): nat {
    if schedules == [] then 0
    else TotalLate(schedules[..|schedules| - 1], now, tenant) + Late(schedules[|schedules| - 1], now, tenant)
  }

  ghost predicate NothingDue(schedules: seq<Schedule>, now: int, tenant: Option<string>) {
    forall i | 0 <= i < |schedules| :: !IsDue(schedules[i], now, tenant)
  }

  lemma {:induction false} TotalShrinks(a: seq<Schedule>, b: seq<Schedule>, now: int, tenant: Option<string>)
    requires |a| == |b| && forall i | 0 <= i < |a| :: Late(b[i], now, tenant) <= Late(a[i], now, tenant)
    ensures TotalLate(b, now, tenant) <= TotalLate(a, now, tenant)
    ensures (exists i | 0 <= i < |a| :: Late(b[i], now, tenant) < Late(a[i], now, tenant)) ==>
      TotalLate(b, now, tenant) < TotalLate(a, now, tenant)
  {
    if a != [] {
      var n := |a| - 1;
      assert forall i | 0 <= i < n :: a[..n][i] == a[i] && b[..n][i] == b[i];
      TotalShrinks(a[..n], b[..n], now, tenant);
    }
  }

  lemma SelectsSomething(schedules: seq<Schedule>, now: int, tenant: Option<string>, batch: seq<nat>)
    requires Selected(schedules, now, tenant, batch) && !NothingDue(schedules, now, tenant)
    ensures |batch| > 0 && batch[0] in batch && batch[0] < |schedules|
  {
    var i :| 0 <= i < |schedules| && IsDue(schedules[i], now, tenant);
  }

  lemma AdvanceReducesLateness(s: Schedule, now: int, tenant: Option<string>)
    requires IsDue(s, now, tenant) && s.cycleDays >= 1
    ensures Late(Advanced(s), now, tenant) < Late(s, now, tenant)
  {}

  /** With something due and the plans active, a run makes the total overdue time strictly smaller, whatever batch of
      at most 1000 schedules it gets. */
  lemma RunReducesLateness(l: Ledger, plans: map<string, Plan>, batch: seq<nat>, now: int, tenant: Option<string>,
                           starts: seq<int>)
    requires AllCovered(l.schedules, l.book.invoices, starts)
    requires Selected(l.schedules, now, tenant, batch) && !NothingDue(l.schedules, now, tenant)
    requires AllActive(l, plans)
    ensures TotalLate(Billed(l, plans, batch, now, true).schedules, now, tenant) < TotalLate(l.schedules, now, tenant)
  {
    var t := Billed(l, plans, batch, now, true);
    RunCovers(l, plans, batch, now, true, starts);
    RunIs(l.schedules, l.book.invoices, plans, batch, now);
    forall i | 0 <= i < |l.schedules|
      ensures Late(t.schedules[i], now, tenant) <= Late(l.schedules[i], now, tenant)
      ensures i in batch ==> Late(t.schedules[i], now, tenant) < Late(l.schedules[i], now, tenant)
    {
      var s := l.schedules[i];
      assert s in l.schedules && Covered(s, l.book.invoices, starts[i]);
      if i in batch {
        AdvanceReducesLateness(s, now, tenant);
      }
    }
    SelectsSomething(l.schedules, now, tenant, batch);
    TotalShrinks(l.schedules, t.schedules, now, tenant);
  }

  /* ---- the query always has an answer ---- */

  /** The due schedules, in table order. */
  function DueIndices(schedules: seq<Schedule>, now: int, tenant: Option<string>): (r: seq<nat>)
    ensures forall i: nat :: i in r <==> i < |schedules| && IsDue(schedules[i], now, tenant)
    ensures Distinct(r)
  {
    if schedules == [] then []
    else
      var n := |schedules| - 1;
      var before := DueIndices(schedules[..n], now, tenant);
      assert forall k | 0 <= k < |before| :: before[k] in before && before[k] < n;
      before + if IsDue(schedules[n], now, tenant) then [n] else []
  }

  /** Distinctness is a matter of counts. */
  lemma DistinctByCount(a: seq<nat>, b: seq<nat>)
    requires Distinct(a) && multiset(a) == multiset(b)
    ensures Distinct(b)
  {
    forall j, k | 0 <= j < k < |b|
      ensures b[j] != b[k]
    {
      if b[j] == b[k] {
        TwiceCounts(b, j, k);
        OnceCounts(a, b[j]);
      }
    }
  }

  lemma TwiceCounts(b: seq<nat>, j: nat, k: nat)
    requires j < k < |b| && b[j] == b[k]
    ensures multiset(b)[b[j]] >= 2
  {
    assert b == b[..k] + b[k..];
    assert b[j] == b[..k][j] && b[k] == b[k..][0];
  }

  lemma {:induction false} OnceCounts(a: seq<nat>, x: nat)
    requires Distinct(a)
    ensures multiset(a)[x] <= 1
  {
    if a != [] {
      OnceCounts(a[1..], x);
      assert a == [a[0]] + a[1..];
      if a[0] == x {
        assert forall k | 0 <= k < |a| - 1 :: a[1..][k] == a[k + 1] != x;
      }
    }
  }

  function NextOf(schedules: seq<Schedule>): nat -> int {
    (i: nat) => if i < |schedules| then schedules[i].next else 0
  }

  /** For every table and instant there is a batch the query may return: the due schedules sorted by their next
      invoice, cut at the limit. */
  lemma SelectionExists(schedules: seq<Schedule>, now: int, tenant: Option<string>) returns (batch: seq<nat>)
    ensures Selected(schedules, now, tenant, batch)
  {
    var due: seq<nat> := DueIndices(schedules, now, tenant);
    var all: seq<nat> := StableSort(due, NextOf(schedules));
    StableSortIsStable(due, NextOf(schedules));
    DistinctByCount(due, all);
    forall i: nat
      ensures i in all <==> i < |schedules| && IsDue(schedules[i], now, tenant)
    {
      assert i in all <==> i in multiset(all);
      assert i in due <==> i in multiset(due);
    }
    SortedIsSelected(schedules, now, tenant, all);
    batch := if |all| <= BATCH_LIMIT then all else all[..BATCH_LIMIT];
  }

  predicate InOrder(schedules: seq<Schedule>, all: seq<nat>) {
    && (forall k | 0 <= k < |all| :: all[k] < |schedules|)
    && (forall j, k | 0 <= j < k < |all| :: schedules[all[j]].next <= schedules[all[k]].next)
  }

  lemma SortedInOrder(schedules: seq<Schedule>, all: seq<nat>)
    requires Sorted(all, NextOf(schedules)) && forall k | 0 <= k < |all| :: all[k] < |schedules|
    ensures InOrder(schedules, all)
  {
    forall j, k | 0 <= j < k < |all|
      ensures schedules[all[j]].next <= schedules[all[k]].next
    {
      assert NextOf(schedules)(all[j]) <= NextOf(schedules)(all[k]);
    }
  }

  /** What a cut leaves out comes after all it keeps. */
  lemma LeftOutLater(schedules: seq<Schedule>, all: seq<nat>, n: nat, i: nat)
    requires InOrder(schedules, all) && n <= |all| && i in all && i !in all[..n]
    ensures n < |all| && i < |schedules| && forall k | 0 <= k < n :: schedules[all[k]].next <= schedules[i].next
  {
    var m :| 0 <= m < |all| && all[m] == i;
    assert m >= n;
  }

  lemma SortedIsSelected(schedules: seq<Schedule>, now: int, tenant: Option<string>, all: seq<nat>)
    requires Distinct(all) && Sorted(all, NextOf(schedules))
    requires forall i: nat :: i in all <==> i < |schedules| && IsDue(schedules[i], now, tenant)
    ensures Selected(schedules, now, tenant, if |all| <= BATCH_LIMIT then all else all[..BATCH_LIMIT])
  {
    assert forall k | 0 <= k < |all| :: all[k] in all;
    SortedInOrder(schedules, all);
    var n := if |all| <= BATCH_LIMIT then |all| else BATCH_LIMIT;
    assert all[..|all|] == all;
    forall i: nat | i in all && i !in all[..n]
      ensures n == BATCH_LIMIT && forall k | 0 <= k < n :: schedules[all[..n][k]].next <= schedules[i].next
    {
      LeftOutLater(schedules, all, n, i);
    }
    assert Selected(schedules, now, tenant, all[..n]);
  }

  /** So there are runs in a row of every length. */
  lemma {:induction false} SelectionsExist(
    l: Ledger, plans: map<string, Plan>, now: int, tenant: Option<string>, n: nat) returns (batches: seq<seq<nat>>)
    ensures |batches| == n && Selections(l, plans, now, tenant, batches)
  {
    batches := [];
    if n > 0 {
      var front := SelectionsExist(l, plans, now, tenant, n - 1);
      var last := SelectionExists(Runs(l, plans, now, front).schedules, now, tenant);
      batches := front + [last];
      forall k | 0 <= k < n
        ensures Selected(Runs(l, plans, now, batches[..k]).schedules, now, tenant, batches[k])
      {
        assert batches[..k] == front[..k];
        assert front[..n - 1] == front;
      }
    }
  }

  /** Consecutive runs at one time. */
  function Runs(l: Ledger, plans: map<string, Plan>, now: int, batches: seq<seq<nat>>): Ledger {
    if batches == [] then l
    else Billed(Runs(l, plans, now, batches[..|batches| - 1]), plans, batches[|batches| - 1], now, true)
  }

  /** Each run gets a batch that the query may return at its time. */
  ghost predicate Selections(l: Ledger, plans: map<string, Plan>, now: int, tenant: Option<string>,
                             batches: seq<seq<nat>>) {
    forall n | 0 <= n < |batches| :: Selected(Runs(l, plans, now, batches[..n]).schedules, now, tenant, batches[n])
  }

  ghost predicate AllActive(l: Ledger, plans: map<string, Plan>) {
    forall s | s in l.schedules :: PlanActive(plans, s)
  }

  lemma SelectedIsDue(schedules: seq<Schedule>, now: int, tenant: Option<string>, batch: seq<nat>, k: nat)
    requires Selected(schedules, now, tenant, batch) && k < |batch|
    ensures !NothingDue(schedules, now, tenant)
  {
    assert IsDue(schedules[batch[k]], now, tenant);
  }

  /** With nothing due a run changes nothing. */
  lemma IdleRun(l: Ledger, plans: map<string, Plan>, batch: seq<nat>, now: int, tenant: Option<string>)
    requires Selected(l.schedules, now, tenant, batch) && NothingDue(l.schedules, now, tenant)
    ensures Billed(l, plans, batch, now, true) == l
  {
    if 0 < |batch| {
      SelectedIsDue(l.schedules, now, tenant, batch, 0);
      assert false;
    }
    assert l.book.invoices + [] == l.book.invoices;
  }

  lemma ActivePlansKept(l: Ledger, plans: map<string, Plan>, batch: seq<nat>, now: int)
    requires AllActive(l, plans)
    ensures AllActive(Billed(l, plans, batch, now, true), plans)
  {
    var t := Billed(l, plans, batch, now, true);
    BillAllKeepsTerms(Work(l.schedules, [], []), l.book.invoices, plans, batch, now);
    forall s | s in t.schedules
      ensures PlanActive(plans, s)
    {
      var i :| 0 <= i < |t.schedules| && t.schedules[i] == s;
      assert l.schedules[i] in l.schedules && (t.schedules == l.schedules || SameTerms(l.schedules[i], s));
    }
  }

  /** A run takes at least one second off the total overdue time, if there is any. */
  lemma RunProgress(l: Ledger, plans: map<string, Plan>, batch: seq<nat>, now: int, tenant: Option<string>,
                    starts: seq<int>)
    requires AllCovered(l.schedules, l.book.invoices, starts) && AllActive(l, plans)
    requires Selected(l.schedules, now, tenant, batch)
    ensures var t := Billed(l, plans, batch, now, true); var late := TotalLate(l.schedules, now, tenant);
      && AllCovered(t.schedules, t.book.invoices, starts) && AllActive(t, plans)
      && if late == 0 then t == l else TotalLate(t.schedules, now, tenant) < late
  {
    RunCovers(l, plans, batch, now, true, starts);
    ActivePlansKept(l, plans, batch, now);
    if NothingDue(l.schedules, now, tenant) {
      IdleRun(l, plans, batch, now, tenant);
      NotLateIfNotDue(l.schedules, now, tenant);
    } else {
      LateIfDue(l.schedules, now, tenant);
      RunReducesLateness(l, plans, batch, now, tenant, starts);
    }
  }

  lemma SelectionsPrefix(l: Ledger, plans: map<string, Plan>, now: int, tenant: Option<string>,
                         batches: seq<seq<nat>>, n: nat)
    requires Selections(l, plans, now, tenant, batches) && n <= |batches|
    ensures Selections(l, plans, now, tenant, batches[..n])
  {
    forall k | 0 <= k < n
      ensures Selected(Runs(l, plans, now, batches[..n][..k]).schedules, now, tenant, batches[..n][k])
    {
      assert batches[..n][..k] == batches[..k] && batches[..n][k] == batches[k];
    }
  }

  /** Runs in a row take at least one second each off the total overdue time, until there is none left. */
  lemma {:induction false} Progress(l: Ledger, plans: map<string, Plan>, now: int, tenant: Option<string>,
                                    batches: seq<seq<nat>>, starts: seq<int>)
    requires AllCovered(l.schedules, l.book.invoices, starts) && AllActive(l, plans)
    requires Selections(l, plans, now, tenant, batches)
    ensures var t := Runs(l, plans, now, batches);
      && AllCovered(t.schedules, t.book.invoices, starts) && AllActive(t, plans)
      && (TotalLate(t.schedules, now, tenant) == 0
          || TotalLate(t.schedules, now, tenant) + |batches| <= TotalLate(l.schedules, now, tenant))
  {
    if batches != [] {
      var n := |batches| - 1;
      SelectionsPrefix(l, plans, now, tenant, batches, n);
      Progress(l, plans, now, tenant, batches[..n], starts);
      var before := Runs(l, plans, now, batches[..n]);
      assert Selected(before.schedules, now, tenant, batches[n]);
      RunProgress(before, plans, batches[n], now, tenant, starts);
    }
  }

  /** As many runs as there are overdue seconds, at most, leave nothing due; any further run changes nothing. */
  lemma {:induction false} CatchesUp(l: Ledger, plans: map<string, Plan>, now: int, tenant: Option<string>,
                                     batches: seq<seq<nat>>,
                  starts: seq<int>)
    requires AllCovered(l.schedules, l.book.invoices, starts) && AllActive(l, plans)
    requires Selections(l, plans, now, tenant, batches) && TotalLate(l.schedules, now, tenant) <= |batches|
    ensures var t := Runs(l, plans, now, batches);
      && NothingDue(t.schedules, now, tenant)
      && forall batch | Selected(t.schedules, now, tenant, batch) :: Billed(t, plans, batch, now, true) == t
  {
    var t := Runs(l, plans, now, batches);
    Progress(l, plans, now, tenant, batches, starts);
    if !NothingDue(t.schedules, now, tenant) {
      LateIfDue(t.schedules, now, tenant);
      assert false;
    }
    forall batch | Selected(t.schedules, now, tenant, batch)
      ensures Billed(t, plans, batch, now, true) == t
    {
      IdleRun(t, plans, batch, now, tenant);
    }
  }

  lemma {:induction false} NotLateIfNotDue(schedules: seq<Schedule>, now: int, tenant: Option<string>)
    requires NothingDue(schedules, now, tenant)
    ensures TotalLate(schedules, now, tenant) == 0
  {
    if schedules != [] {
      NotLateIfNotDue(schedules[..|schedules| - 1], now, tenant);
    }
  }

  lemma {:induction false} LateIfDue(schedules: seq<Schedule>, now: int, tenant: Option<string>)
    requires !NothingDue(schedules, now, tenant)
    ensures TotalLate(schedules, now, tenant) > 0
  {
    var n := |schedules| - 1;
    if !IsDue(schedules[n], now, tenant) {
      var i :| 0 <= i < |schedules| && IsDue(schedules[i], now, tenant);
      assert schedules[..n][i] == schedules[i];
      LateIfDue(schedules[..n], now, tenant);
    }
  }

  /* ---- money ---- */

  /** Fees and custom amounts are positive and tax rates are not negative. */
  predicate Priced(l: Ledger, plans: map<string, Plan>) {
    && (forall name | name in plans :: plans[name].fee > 0)
    && forall s | s in l.schedules :: s.taxPercent >= 0 && (s.customAmount.Some? ==> s.customAmount.value > 0)
  }

  lemma {:induction false} GeneratedBalanced(schedules: seq<Schedule>, committed: seq<Invoice>,
                                             plans: map<string, Plan>, batch: seq<nat>, now: int)
    requires Priced(Ledger(schedules, Book([], [])), plans)
    ensures forall v | v in Generated(schedules, committed, plans, batch, now) :: v.amount == v.balance > 0
  {
    if batch != [] {
      GeneratedBalanced(schedules, committed, plans, batch[..|batch| - 1], now);
      var i := batch[|batch| - 1];
      if i < |schedules| && PlanActive(plans, schedules[i]) {
        assert schedules[i] in schedules;
        TaxNonNegative(Subtotal(schedules[i], plans[schedules[i].plan]), schedules[i].taxPercent);
      }
    }
  }

  /** A run adds invoices that owe what they amount to, and so keeps the books balanced. */
  lemma RunBalanced(l: Ledger, plans: map<string, Plan>, batch: seq<nat>, now: int, locked: bool)
    requires Balanced(l.book) && Priced(l, plans)
    requires Distinct(batch) && forall k | 0 <= k < |batch| :: batch[k] < |l.schedules|
    ensures Balanced(Billed(l, plans, batch, now, locked).book)
  {
    var w := SessionOf(l, plans, batch, now);
    RunIs(l.schedules, l.book.invoices, plans, batch, now);
    GeneratedBalanced(l.schedules, l.book.invoices, plans, batch, now);
    forall i | 0 <= i < |w.added|
      ensures w.added[i].amount == w.added[i].balance > 0
    {
      assert w.added[i] in w.added;
    }
  }

  /** Every billing run of a history has priced plans and a proper batch, and desk work uses what still holds. */
  ghost predicate SoundHistory(l: Ledger, events: seq<Event>) {
    && (forall e | e in events && e.Bill? ::
          && Priced(l, e.plans) && Distinct(e.batch)
          && forall k | 0 <= k < |e.batch| :: e.batch[k] < |l.schedules|)
    && forall n | 0 <= n < |events| && events[n].Desk? :: Fresh(History(l, events[..n]).book, events[n].step)
  }

  lemma PricedKept(l: Ledger, t: Ledger, plans: map<string, Plan>)
    requires Priced(l, plans) && |t.schedules| == |l.schedules|
    requires forall i | 0 <= i < |l.schedules| :: SameTerms(l.schedules[i], t.schedules[i])
    ensures Priced(t, plans)
  {
    forall s | s in t.schedules
      ensures s.taxPercent >= 0 && (s.customAmount.Some? ==> s.customAmount.value > 0)
    {
      var i :| 0 <= i < |t.schedules| && t.schedules[i] == s;
      assert l.schedules[i] in l.schedules && SameTerms(l.schedules[i], s);
    }
  }

  lemma RunKeepsInvoices(l: Ledger, plans: map<string, Plan>, batch: seq<nat>, now: int, locked: bool)
    ensures var t := Billed(l, plans, batch, now, locked).book;
      |l.book.invoices| <= |t.invoices| && t.invoices[..|l.book.invoices|] == l.book.invoices
  {}

  lemma SoundPrefix(l: Ledger, events: seq<Event>)
    requires events != [] && SoundHistory(l, events)
    ensures SoundHistory(l, events[..|events| - 1])
  {
    var n := |events| - 1;
    assert forall k | 0 <= k < n :: events[..n][..k] == events[..k] && events[..n][k] == events[k];
  }

  /** Over billing runs and desk work together, amounts stay equal to balances plus payments, and what was fully paid
      stays paid. */
  lemma {:induction false} LedgerBalanced(l: Ledger, events: seq<Event>)
    requires Balanced(l.book) && SoundHistory(l, events)
    ensures Balanced(History(l, events).book) && Settles(l.book, History(l, events).book)
  {
    if events != [] {
      var n := |events| - 1;
      var t := History(l, events[..n]);
      SoundPrefix(l, events);
      LedgerBalanced(l, events[..n]);
      HistoryKeepsTerms(l, events[..n]);
      match events[n]
      case Bill(plans, batch, now, locked) => {
        assert events[n] in events;
        PricedKept(l, t, plans);
        RunBalanced(t, plans, batch, now, locked);
        RunKeepsInvoices(t, plans, batch, now, locked);
      }
      case Desk(step) => {
        assert Fresh(t.book, events[n].step);
        StepBalanced(t.book, step);
      }
    }
  }

  /* ---- runs that cannot commit ---- */

  predicate Generates(l: Ledger, plans: map<string, Plan>, i: nat) {
    i < |l.schedules| && PlanActive(plans, l.schedules[i]) && !NumberTaken(l.book.invoices, NumberFor(l.schedules[i]))
  }

  /** Two schedules of the batch that would be invoiced under one number. */
  ghost predicate Collide(l: Ledger, plans: map<string, Plan>, batch: seq<nat>) {
    exists j, k | 0 <= j < k < |batch| ::
      Generates(l, plans, batch[j]) && Generates(l, plans, batch[k])
        && NumberFor(l.schedules[batch[j]]) == NumberFor(l.schedules[batch[k]])
  }

  predicate Meets(l: Ledger, plans: map<string, Plan>, batch: seq<nat>, number: Number) {
    exists k | 0 <= k < |batch| :: Generates(l, plans, batch[k]) && NumberFor(l.schedules[batch[k]]) == number
  }

  lemma {:induction false} NumberGenerated(l: Ledger, plans: map<string, Plan>, batch: seq<nat>, now: int,
                                           number: Number)
    ensures NumberTaken(Generated(l.schedules, l.book.invoices, plans, batch, now), number)
       <==> Meets(l, plans, batch, number)
  {
    if batch != [] {
      var n := |batch| - 1;
      var before := Generated(l.schedules, l.book.invoices, plans, batch[..n], now);
      var all := Generated(l.schedules, l.book.invoices, plans, batch, now);
      NumberGenerated(l, plans, batch[..n], now, number);
      assert forall k | 0 <= k < n :: batch[..n][k] == batch[k];
      if Generates(l, plans, batch[n]) {
        assert all == before + [InvoiceFor(l.schedules[batch[n]], plans[l.schedules[batch[n]].plan], now)];
        assert all[|before|].number == NumberFor(l.schedules[batch[n]]);
      }
      assert forall i | 0 <= i < |before| :: all[i] == before[i];
    }
  }

  lemma CollideAppend(l: Ledger, plans: map<string, Plan>, batch: seq<nat>, i: nat)
    ensures Collide(l, plans, batch + [i])
       <==> Collide(l, plans, batch) || (Generates(l, plans, i) && Meets(l, plans, batch, NumberFor(l.schedules[i])))
  {
    var all := batch + [i];
    assert forall k | 0 <= k < |batch| :: all[k] == batch[k];
    assert all[|batch|] == i;
  }

  lemma GeneratedAppend(l: Ledger, plans: map<string, Plan>, batch: seq<nat>, i: nat, now: int)
    ensures var before := Generated(l.schedules, l.book.invoices, plans, batch, now);
      Generated(l.schedules, l.book.invoices, plans, batch + [i], now)
      == if Generates(l, plans, i) then before + [InvoiceFor(l.schedules[i], plans[l.schedules[i].plan], now)]
        else before
  {
    assert (batch + [i])[..|batch|] == batch;
  }

  lemma {:induction false} ClashIffCollide(l: Ledger, plans: map<string, Plan>, batch: seq<nat>, now: int)
    ensures Clash(Generated(l.schedules, l.book.invoices, plans, batch, now)) <==> Collide(l, plans, batch)
  {
    if batch != [] {
      var front, i := batch[..|batch| - 1], batch[|batch| - 1];
      assert batch == front + [i];
      ClashIffCollide(l, plans, front, now);
      CollideAppend(l, plans, front, i);
      GeneratedAppend(l, plans, front, i, now);
      if Generates(l, plans, i) {
        NumberGenerated(l, plans, front, now, NumberFor(l.schedules[i]));
        ClashAppend(Generated(l.schedules, l.book.invoices, plans, front, now),
                    InvoiceFor(l.schedules[i], plans[l.schedules[i].plan], now));
      }
    }
  }

  lemma ClashAppend(invoices: seq<Invoice>, v: Invoice)
    ensures Clash(invoices + [v]) <==> Clash(invoices) || NumberTaken(invoices, v.number)
  {
    var all := invoices + [v];
    assert forall i | 0 <= i < |invoices| :: all[i] == invoices[i];
    assert all[|invoices|] == v;
  }

  /** A run fails to commit exactly when two schedules of its batch share the end of their account codes and a day;
      it then changes nothing, so every later run over the same batch fails as well. */
  lemma FailsIffCollide(l: Ledger, plans: map<string, Plan>, batch: seq<nat>, now: int)
    requires Distinct(batch) && forall k | 0 <= k < |batch| :: batch[k] < |l.schedules|
    ensures Clash(SessionOf(l, plans, batch, now).added) <==> Collide(l, plans, batch)
    ensures Collide(l, plans, batch) ==>
      forall later :: Billed(Billed(l, plans, batch, now, true), plans, batch, later, true) == l
  {
    RunIs(l.schedules, l.book.invoices, plans, batch, now);
    ClashIffCollide(l, plans, batch, now);
    forall later
      ensures Collide(l, plans, batch) ==> Billed(l, plans, batch, later, true) == l
    {
      RunIs(l.schedules, l.book.invoices, plans, batch, later);
      ClashIffCollide(l, plans, batch, later);
    }
  }
}
