/** Invoices and payments, in cents: services/bss-service/app/main.py, and `refresh_overdue_invoices` in
    services/bss-service/app/billing_cycles.py. */
module Invoices {
  import opened Common

  datatype Status = Draft | Issued | PartiallyPaid | Overdue | Paid | Void | Unknown(text: string)

  /** A number made by a billing run, from an account code and a day, or any other number. */
  datatype Number = Cycle(code: string, day: int) | Other(text: string)

  datatype LineItem = LineItem(description: string, total: int)

  datatype Invoice = Invoice(
    number: Number,
    tenant: Option<string>,
    subtotal: int,
    tax: int,
    amount: int,
    balance: int,
    status: Status,
    due: int,
    periodStart: Option<int>,
    periodEnd: Option<int>,
    lineItems: seq<LineItem>)

  datatype Payment = Payment(reference: string, invoice: nat, amount: int)

  datatype Book = Book(invoices: seq<Invoice>, payments: seq<Payment>)

  /* ---- a new invoice ---- */

  datatype Totals = Totals(subtotal: int, amount: int) | Invalid(reason: string)

  /** `InvoiceCreate`: the field bounds, then `validate_totals`. */
  function ValidateTotals(subtotal: Option<int>, tax: int, amount: Option<int>, start: Option<int>,
                          end: Option<int>): Totals {
    if (subtotal.Some? && subtotal.value < 0) || tax < 0 || (amount.Some? && amount.value <= 0) then Invalid("field")
    else if subtotal.None? && amount.None? then Invalid("subtotal or amount is required")
    else
      var sub := if subtotal.None? then amount.value - tax else subtotal.value;
      var total := sub + tax;
      if total <= 0 then Invalid("invoice total must be greater than zero")
      else if amount.Some? && amount.value != total then Invalid("amount must equal subtotal plus tax_amount")
      else if start.Some? && end.Some? && end.value < start.value then
        Invalid("billing period end must not precede its start")
      else Totals(sub, total)
  }

  /** What is accepted, stated on the request: a positive total that agrees with everything the request says. */
  lemma AcceptedTotals(subtotal: Option<int>, tax: int, amount: Option<int>, start: Option<int>, end: Option<int>,
                       sub: int, total: int)
    ensures ValidateTotals(subtotal, tax, amount, start, end) == Totals(sub, total)
       <==> && tax >= 0 && total > 0 && sub + tax == total
            && subtotal in {None, Some(sub)} && amount in {None, Some(total)}
            && (subtotal.Some? || amount.Some?) && (subtotal.Some? ==> sub >= 0)
            && (start.Some? && end.Some? ==> start.value <= end.value)
  {
    if subtotal.Some? && amount.Some? {
      assert subtotal in {None, Some(sub)} <==> subtotal.value == sub;
      assert amount in {None, Some(total)} <==> amount.value == total;
    }
  }

  /** A negative subtotal is accepted exactly when it is left out and the amount is below the tax. */
  lemma NegativeSubtotalIff(subtotal: Option<int>, tax: int, amount: Option<int>, start: Option<int>, end: Option<int>)
    ensures (var r := ValidateTotals(subtotal, tax, amount, start, end); r.Totals? && r.subtotal < 0)
       <==> && subtotal.None? && amount.Some? && 0 < amount.value < tax
            && (start.Some? && end.Some? ==> start.value <= end.value)
  {}

  /* ---- steps ---- */

  /** Every step writes to the books of the moment what it decided on values read at any time before. */
  datatype Step =
    | Create(invoice: Invoice)
    | Pay(payment: Payment, read: int)
    | Update(i: nat, target: Status, was: Status)
    | Refresh(seen: seq<Invoice>, now: int, tenant: Option<string>)

  predicate NumberTaken(invoices: seq<Invoice>, number: Number) {
    exists i | 0 <= i < |invoices| :: invoices[i].number == number
  }

  predicate ReferenceTaken(payments: seq<Payment>, reference: string) {
    exists i | 0 <= i < |payments| :: payments[i].reference == reference
  }

  /** A created invoice is validated, issued and fully due; a number in use refuses it. */
  predicate Creatable(b: Book, v: Invoice) {
    && v.number.Other? && !NumberTaken(b.invoices, v.number)
    && v.tax >= 0 && v.amount == v.subtotal + v.tax > 0 && v.balance == v.amount && v.status == Issued
  }

  /** A payment against the balance read. Nothing asks about the status: a void or draft invoice takes payments too. */
  predicate Payable(b: Book, p: Payment, read: int) {
    0 < p.amount <= read && p.invoice < |b.invoices| && !ReferenceTaken(b.payments, p.reference)
  }

  function PaidInvoice(v: Invoice, read: int, amount: int): Invoice {
    v.(balance := read - amount, status := if read - amount == 0 then Paid else PartiallyPaid)
  }

  function Targets(status: Status): set<Status> {
    match status
    case Draft => {Issued}
    case Issued => {Overdue, Void}
    case PartiallyPaid => {Paid, Overdue}
    case Overdue => {PartiallyPaid, Paid, Void}
    case _ => {}
  }

  predicate IsOverdue(v: Invoice, now: int, tenant: Option<string>) {
    v.due < now && v.balance > 0 && (v.status == Issued || v.status == PartiallyPaid)
      && (tenant.None? || v.tenant == tenant)
  }

  predicate OverdueAt(seen: seq<Invoice>, i: nat, now: int, tenant: Option<string>) {
    i < |seen| && IsOverdue(seen[i], now, tenant)
  }

  function Refreshed(v: Invoice, seen: seq<Invoice>, i: nat, now: int, tenant: Option<string>): Invoice {
    if OverdueAt(seen, i, now, tenant) then v.(status := Overdue) else v
  }

  /** How many invoices a refresh moves to overdue. */
  function Moves(invoices: seq<Invoice>, now: int, tenant: Option<string>): nat {
    if invoices == [] then 0
    else
      var v := invoices[|invoices| - 1];
      Moves(invoices[..|invoices| - 1], now, tenant) + if IsOverdue(v, now, tenant) then 1 else 0
  }

  function Next(b: Book, step: Step): Book {
    match step
    case Create(v) => if Creatable(b, v) then b.(invoices := b.invoices + [v]) else b
    case Pay(p, read) =>
      if Payable(b, p, read)
      then Book(b.invoices[p.invoice := PaidInvoice(b.invoices[p.invoice], read, p.amount)], b.payments + [p])
      else b
    case Update(i, target, read) =>
      if i < |b.invoices| && target in Targets(read)
      then b.(invoices := b.invoices[i := b.invoices[i].(status := target)]) else b
    case Refresh(seen, now, tenant) =>
      b.(invoices := seq(|b.invoices|, i requires 0 <= i < |b.invoices| =>
                         Refreshed(b.invoices[i], seen, i, now, tenant)))
  }

  function RunFrom(b: Book, steps: seq<Step>): Book {
    if steps == [] then b else Next(RunFrom(b, steps[..|steps| - 1]), steps[|steps| - 1])
  }

  /* ---- conservation ---- */

  /** The sum of the payments of one invoice. */
  function PaidOn(payments: seq<Payment>, i: nat): int {
    if payments == [] then 0
    else
      var last := payments[|payments| - 1];
      PaidOn(payments[..|payments| - 1], i) + if last.invoice == i then last.amount else 0
  }

  predicate BalancedInvoice(v: Invoice, paid: int) {
    v.amount == v.balance + paid && 0 <= v.balance <= v.amount && 0 < v.amount && (v.balance == 0 ==> v.status == Paid)
  }

  ghost predicate Balanced(b: Book) {
    && (forall i | 0 <= i < |b.invoices| :: BalancedInvoice(b.invoices[i], PaidOn(b.payments, i)))
    && (forall i: nat | |b.invoices| <= i :: PaidOn(b.payments, i) == 0)
  }

  /** What a write would have to check against the books of the moment: a payment, that the balance is the one read; a
      change of status, that the invoice has not been paid up since. */
  predicate Fresh(b: Book, step: Step) {
    match step
    case Create(_) => true
    case Pay(p, read) => Payable(b, p, read) ==> read == b.invoices[p.invoice].balance
    case Update(i, target, read) =>
      i < |b.invoices| && target in Targets(read) && b.invoices[i].balance == 0 ==> target == Paid
    case Refresh(seen, now, tenant) =>
      forall i | 0 <= i < |b.invoices| && OverdueAt(seen, i, now, tenant) :: b.invoices[i].balance != 0
  }

  lemma PaidOnAppend(payments: seq<Payment>, p: Payment, i: nat)
    ensures PaidOn([], i) == 0
    ensures PaidOn(payments + [p], i) == PaidOn(payments, i) + if p.invoice == i then p.amount else 0
  {
    assert (payments + [p])[..|payments|] == payments;
  }

  /** Balances do not rise, amounts do not change, and an invoice with a zero balance stays paid. */
  predicate Settles(b: Book, after: Book) {
    && |b.invoices| <= |after.invoices|
    && forall i | 0 <= i < |b.invoices| ::
         && after.invoices[i].amount == b.invoices[i].amount && after.invoices[i].balance <= b.invoices[i].balance
         && (b.invoices[i].balance == 0 ==> after.invoices[i].balance == 0 && after.invoices[i].status == Paid)
  }

  lemma PaySafe(b: Book, p: Payment, read: int)
    requires Balanced(b) && Payable(b, p, read)
    ensures var t := Next(b, Pay(p, read));
      && (Balanced(t) <==> read == b.invoices[p.invoice].balance)
      && (Balanced(t) ==> Settles(b, t))
  {
    var t := Next(b, Pay(p, read));
    forall i: nat
      ensures PaidOn(t.payments, i) == PaidOn(b.payments, i) + if p.invoice == i then p.amount else 0
    {
      PaidOnAppend(b.payments, p, i);
    }
    assert BalancedInvoice(b.invoices[p.invoice], PaidOn(b.payments, p.invoice));
    assert t.invoices[p.invoice] == PaidInvoice(b.invoices[p.invoice], read, p.amount);
  }

  lemma StatusSafe(b: Book, step: Step)
    requires Balanced(b) && (step.Update? || step.Refresh?)
    ensures var t := Next(b, step);
      && (Balanced(t) <==> Fresh(b, step))
      && (Balanced(t) ==> Settles(b, t))
  {
    var t := Next(b, step);
    assert |t.invoices| == |b.invoices| && t.payments == b.payments;
    assert forall i | 0 <= i < |b.invoices| ::
      BalancedInvoice(b.invoices[i], PaidOn(b.payments, i))
        && t.invoices[i] == b.invoices[i].(status := t.invoices[i].status);
    if Balanced(t) {
      assert forall i | 0 <= i < |b.invoices| :: BalancedInvoice(t.invoices[i], PaidOn(t.payments, i));
    }
  }

  /** A step on whatever it has read creates or destroys no money, and leaves zero balances paid, exactly when what it
      read still holds. */
  lemma StepBalanced(b: Book, step: Step)
    requires Balanced(b)
    ensures var t := Next(b, step); (Balanced(t) <==> Fresh(b, step)) && (Balanced(t) ==> Settles(b, t))
  {
    match step
    case Create(_) =>
    case Pay(p, read) => if Payable(b, p, read) { PaySafe(b, p, read); }
    case _ => StatusSafe(b, step);
  }

  /** A step on the books as they are is fresh. */
  lemma CurrentIsFresh(b: Book, step: Step)
    requires Balanced(b)
    requires step.Pay? && Payable(b, step.payment, step.read) ==> step.read == b.invoices[step.payment.invoice].balance
    requires step.Update? && step.i < |b.invoices| ==> step.was == b.invoices[step.i].status
    requires step.Refresh? ==> step.seen == b.invoices
    ensures Fresh(b, step)
  {
    if step.Update? && step.i < |b.invoices| {
      assert BalancedInvoice(b.invoices[step.i], PaidOn(b.payments, step.i));
    }
  }

  predicate FreshRun(b: Book, steps: seq<Step>) {
    if steps == [] then true
    else
      var n := |steps| - 1;
      FreshRun(b, steps[..n]) && Fresh(RunFrom(b, steps[..n]), steps[n])
  }

  /** In every run whose reads still hold when they are used, amount equals balance plus payments, and an invoice with a
      zero balance stays paid and at zero. */
  lemma {:induction false} MoneyConserved(b: Book, steps: seq<Step>)
    requires Balanced(b) && FreshRun(b, steps)
    ensures Balanced(RunFrom(b, steps)) && Settles(b, RunFrom(b, steps))
  {
    if steps != [] {
      var n := |steps| - 1;
      MoneyConserved(b, steps[..n]);
      StepBalanced(RunFrom(b, steps[..n]), steps[n]);
    }
  }

  /** The same from empty books and of one invoice: what is owed and paid adds up to the amount it was made for. */
  lemma {:induction false} InvoiceAddsUp(before: seq<Step>, steps: seq<Step>, i: nat)
    requires FreshRun(Book([], []), before) && FreshRun(RunFrom(Book([], []), before), steps)
    requires i < |RunFrom(Book([], []), before).invoices|
    ensures var b := RunFrom(Book([], []), before); var t := RunFrom(b, steps);
      && i < |t.invoices|
      && var v := t.invoices[i];
         && v.amount == b.invoices[i].amount == v.balance + PaidOn(t.payments, i) && 0 < v.amount
         && 0 <= v.balance <= b.invoices[i].balance
         && (v.balance == 0 ==> v.status == Paid)
  {
    assert Balanced(Book([], []));
    MoneyConserved(Book([], []), before);
    MoneyConserved(RunFrom(Book([], []), before), steps);
  }

  /** Two payments that read the same balance: both are taken, and the invoice owes the first one still. */
  lemma OverlappingPaymentsLoseOne(b: Book, p: Payment, q: Payment)
    requires p.invoice == q.invoice && p.reference != q.reference && p.invoice < |b.invoices|
    requires var read := b.invoices[p.invoice].balance; Payable(b, p, read) && Payable(b, q, read)
    ensures var read := b.invoices[p.invoice].balance; var t := Next(Next(b, Pay(p, read)), Pay(q, read));
      && t.payments == b.payments + [p] + [q]
      && t.invoices[p.invoice].balance == read - q.amount
  {
    var read := b.invoices[p.invoice].balance;
    var t := Next(b, Pay(p, read));
    assert !ReferenceTaken(t.payments, q.reference);
  }

  /** `update_invoice` can only mark as paid an invoice that still owes money, and such an invoice can leave that
      status again: the next part payment makes it partially paid. */
  lemma PaidByHandStillOwes(b: Book, i: nat, p: Payment)
    requires Balanced(b) && i < |b.invoices|
    ensures var t := Next(b, Update(i, Paid, b.invoices[i].status)); var owed := t.invoices[i].balance;
      && (t != b ==> t.invoices[i].status == Paid && owed > 0)
      && (t != b && p.invoice == i && Payable(t, p, owed) && p.amount < owed ==>
            Next(t, Pay(p, owed)).invoices[i].status == PartiallyPaid)
  {
    assert BalancedInvoice(b.invoices[i], PaidOn(b.payments, i));
  }

  /* ---- the service ---- */

  /** What an invoice needs to know of its plan. */
  datatype PlanOffer = PlanOffer(name: string, tenant: Option<string>)

  /** Both tenants are known and differ. */
  predicate ForeignPlan(plan: PlanOffer, tenant: Option<string>) {
    tenant.Some? && plan.tenant.Some? && tenant != plan.tenant
  }

  class InvoiceDesk {
    var invoices: seq<Invoice>
    var payments: seq<Payment>

    constructor ()
      ensures View() == Book([], [])
    {
      invoices, payments := [], [];
    }

    function View(): Book
      reads this
    {
      Book(invoices, payments)
    }

    /** `plan` is the plan found, if any. An invoice is added exactly when its totals are valid, its plan exists and
        does not belong to another tenant, and its number is new. */
    method CreateInvoice(
      number: string, tenant: Option<string>, plan: Option<PlanOffer>, subtotal: Option<int>, tax: int,
      amount: Option<int>, start: Option<int>, end: Option<int>, due: int, items: seq<LineItem>)
      returns (error: Option<int>)
      modifies this
      ensures error.None?
        <==> && ValidateTotals(subtotal, tax, amount, start, end).Totals? && plan.Some?
             && !ForeignPlan(plan.value, tenant) && !NumberTaken(old(invoices), Other(number))
      ensures error in {None, Some(404), Some(409), Some(422)}
      ensures error == Some(404)
        <==> ValidateTotals(subtotal, tax, amount, start, end).Totals? && plan.None?
      ensures error == Some(409)
        <==> && ValidateTotals(subtotal, tax, amount, start, end).Totals? && plan.Some?
             && (tenant.None? || plan.value.tenant.None? || plan.value.tenant == tenant)
             && exists k | 0 <= k < |old(invoices)| :: old(invoices)[k].number == Other(number)
      ensures error.Some? ==> View() == old(View())
      ensures error.None? ==>
        && |invoices| == |old(invoices)| + 1
        && View() == Next(old(View()), Create(invoices[|old(invoices)|]))
        && var v := invoices[|old(invoices)|];
           && ValidateTotals(subtotal, tax, amount, start, end) == Totals(v.subtotal, v.amount)
           && v.number == Other(number) && v.tenant == tenant && v.tax == tax && v.periodStart == start
           && v.periodEnd == end && v.status == Issued && v.balance == v.amount && v.due == due
           && (items == [] ==> v.lineItems == [LineItem(plan.value.name, v.subtotal)])
           && (items != [] ==> v.lineItems == items)
    {
      var totals := ValidateTotals(subtotal, tax, amount, start, end);
      if totals.Invalid? {
        return Some(422);
      }
      if plan.None? {
        return Some(404);
      }
      if ForeignPlan(plan.value, tenant) {
        return Some(422);
      }
      var lines := if items == [] then [LineItem(plan.value.name, totals.subtotal)] else items;
      var v := Invoice(Other(number), tenant, totals.subtotal, tax, totals.amount, totals.amount, Issued, due,
                       start, end, lines);
      if NumberTaken(invoices, v.number) {
        return Some(409);
      }
      invoices := invoices + [v];
      return None;
    }

    /** None, or the status of the HTTP error. A reference in use fails at the commit. */
    method RecordPayment(p: Payment) returns (error: Option<int>)
      modifies this
      ensures p.invoice < |old(invoices)| ==> View() == Next(old(View()), Pay(p, old(invoices)[p.invoice].balance))
      ensures p.invoice >= |old(invoices)| ==> View() == old(View())
      ensures error.None? <==> p.invoice < |old(invoices)| && Payable(old(View()), p, old(invoices)[p.invoice].balance)
      ensures error == Some(404) <==> p.amount > 0 && p.invoice >= |old(invoices)|
    {
      if p.amount <= 0 {
        return Some(422);
      }
      if p.invoice >= |invoices| {
        return Some(404);
      }
      if p.amount > invoices[p.invoice].balance {
        return Some(422);
      }
      if ReferenceTaken(payments, p.reference) {
        return Some(500);
      }
      var invoice := invoices[p.invoice].(balance := invoices[p.invoice].balance - p.amount);
      invoice := invoice.(status := if invoice.balance == 0 then Paid else PartiallyPaid);
      invoices := invoices[p.invoice := invoice];
      payments := payments + [p];
      return None;
    }

    method UpdateInvoice(i: nat, target: Status) returns (error: Option<int>)
      modifies this
      ensures i < |old(invoices)| ==> View() == Next(old(View()), Update(i, target, old(invoices)[i].status))
      ensures i >= |old(invoices)| ==> View() == old(View())
      ensures error.None?
        <==> i < |old(invoices)| && (target == old(invoices)[i].status || target in Targets(old(invoices)[i].status))
    {
      if i >= |invoices| {
        return Some(404);
      }
      if target == invoices[i].status {
        return None;
      }
      if target !in Targets(invoices[i].status) {
        return Some(422);
      }
      invoices := invoices[i := invoices[i].(status := target)];
      return None;
    }

    /** The number of invoices moved to overdue. */
    method RefreshOverdue(now: int, tenant: Option<string>) returns (count: nat)
      modifies this
      ensures View() == Next(old(View()), Refresh(old(invoices), now, tenant))
      ensures count == Moves(old(invoices), now, tenant)
    {
      count := 0;
      var i := 0;
      ghost var before := invoices;
      while i < |invoices|
        invariant 0 <= i <= |invoices| == |before|
        invariant payments == old(payments)
        invariant forall k | 0 <= k < |before| ::
          invoices[k] == if k < i then Refreshed(before[k], before, k, now, tenant) else before[k]
        invariant count == Moves(before[..i], now, tenant)
      {
        var v := invoices[i];
        assert before[..i + 1][..i] == before[..i];
        if v.due < now && v.balance > 0 && (v.status == Issued || v.status == PartiallyPaid)
            && (tenant.None? || v.tenant == tenant) {
          invoices := invoices[i := v.(status := Overdue)];
          count := count + 1;
        }
        i := i + 1;
      }
      assert before[..i] == before;
    }
  }

  /* ---- the steps in plain terms ---- */

  /** A payment on the balance as it is: accepted when positive, not above the balance and with a new reference; the
      balance falls by it, and the status says whether anything is left. */
  lemma PaymentMeans(b: Book, p: Payment)
    requires p.invoice < |b.invoices|
    ensures var v, t := b.invoices[p.invoice], Next(b, Pay(p, b.invoices[p.invoice].balance));
      if p.amount > 0 && p.amount <= v.balance && forall k | 0 <= k < |b.payments| ::
        b.payments[k].reference != p.reference
      then && t.payments == b.payments + [p] && |t.invoices| == |b.invoices|
           && (forall k | 0 <= k < |b.invoices| && k != p.invoice :: t.invoices[k] == b.invoices[k])
           && t.invoices[p.invoice] == v.(balance := v.balance - p.amount,
                                          status := if v.balance == p.amount then Paid else PartiallyPaid)
      else t == b
  {}

  /** The changes of status a request may make: draft to issued; issued to overdue or void; partially paid to paid or
      overdue; overdue to partially paid, paid or void. */
  lemma StatusMoves(b: Book, i: nat, target: Status)
    requires i < |b.invoices|
    ensures var was := b.invoices[i].status; var t := Next(b, Update(i, target, was));
      t == if (was, target) in {(Draft, Issued), (Issued, Overdue), (Issued, Void), (PartiallyPaid, Paid),
                                (PartiallyPaid, Overdue), (Overdue, PartiallyPaid), (Overdue, Paid), (Overdue, Void)}
           then b.(invoices := b.invoices[i := b.invoices[i].(status := target)]) else b
  {}

  /** A refresh makes overdue exactly the invoices issued or partially paid, with something left, that were due before
      now, of the tenant if one is given. */
  lemma RefreshMeans(b: Book, now: int, tenant: Option<string>)
    ensures var t := Next(b, Refresh(b.invoices, now, tenant));
      && t.payments == b.payments && |t.invoices| == |b.invoices|
      && forall i | 0 <= i < |b.invoices| ::
           var v := b.invoices[i];
           t.invoices[i] ==
           if v.due < now && v.balance > 0 && v.status in {Issued, PartiallyPaid}
               && (tenant.None? || v.tenant == tenant)
           then v.(status := Overdue) else v
  {}

  lemma MovesMeans(invoices: seq<Invoice>, v: Invoice, now: int, tenant: Option<string>)
    ensures Moves([], now, tenant) == 0
    ensures Moves(invoices + [v], now, tenant) == Moves(invoices, now, tenant)
      + if v.due < now && v.balance > 0 && v.status in {Issued, PartiallyPaid} && (tenant.None? || v.tenant == tenant)
        then 1 else 0
  {
    assert (invoices + [v])[..|invoices|] == invoices;
  }

  /** A plan without a tenant serves every tenant, and an invoice without a tenant may name every plan. */
  lemma ForeignMeans(name: string, plan: string, tenant: string)
    ensures ForeignPlan(PlanOffer(name, Some(plan)), Some(tenant)) <==> plan != tenant
    ensures !ForeignPlan(PlanOffer(name, None), Some(tenant)) && !ForeignPlan(PlanOffer(name, Some(plan)), None)
    ensures !ForeignPlan(PlanOffer(name, None), None)
  {}

  /** A created invoice is issued, fully due, positive and adds up, under a number of its own. */
  lemma CreateMeans(b: Book, v: Invoice)
    ensures var t := Next(b, Create(v));
      if && v.number.Other? && (forall k | 0 <= k < |b.invoices| :: b.invoices[k].number != v.number)
         && v.tax >= 0 && v.amount == v.subtotal + v.tax && v.amount > 0 && v.balance == v.amount && v.status == Issued
      then t == b.(invoices := b.invoices + [v]) else t == b
  {}
}
