/** Address leases: services/aaa-service/app/ipam.py, `cleanup_stale_leases` in services/aaa-service/app/workers.py,
    `reserve_ip` and `release_ip` in services/aaa-service/app/main.py. */
module Leases {
  import opened Common

  datatype Version = V4 | V6

  datatype Address = Address(version: Version, value: nat)

  datatype Network = Network(version: Version, base: nat, prefix: nat)

  datatype Pool = Pool(id: nat, tenant: string, network: Network, excluded: set<Address>)

  datatype Lease = Lease(
    tenant: string,
    pool: nat,
    subscriber: string,
    address: Address,
    reservation: bool,
    session: Option<nat>,
    released: Option<int>)

  /* ---- networks ---- */

  function Width(version: Version): nat {
    if version.V4? then 32 else 128
  }

  function Pow2(n: nat): (r: nat)
    ensures r >= 1
  {
    if n == 0 then 1 else 2 * Pow2(n - 1)
  }

  /** The number of addresses of a network. */
  function Size(n: Network): (r: nat)
    ensures r >= 1
  {
    if n.prefix >= Width(n.version) then 1 else Pow2(Width(n.version) - n.prefix)
  }

  predicate InNetwork(a: Address, n: Network) {
    a.version == n.version && n.base <= a.value < n.base + Size(n)
  }

  /** IPv4 networks of more than two addresses keep their first and last one for themselves. */
  function FirstHost(n: Network): nat {
    if n.version.V4? && Size(n) > 2 then n.base + 1 else n.base
  }

  /** One past the last host. */
  function EndHost(n: Network): nat {
    if n.version.V4? && Size(n) > 2 then n.base + Size(n) - 1 else n.base + Size(n)
  }

  predicate IsHost(a: Address, n: Network) {
    a.version == n.version && FirstHost(n) <= a.value < EndHost(n)
  }

  lemma {:induction false} Pow2Grows(k: nat)
    ensures Pow2(k) > 2 <==> k >= 2
  {
    if k >= 3 {
      Pow2Grows(k - 1);
    }
  }

  /** The hosts are the addresses of the network, without the first and last one of an IPv4 network shorter than /31. */
  lemma HostIff(a: Address, n: Network)
    requires n.prefix <= Width(n.version)
    ensures IsHost(a, n) <==>
      InNetwork(a, n) && (n.version.V4? && n.prefix < 31 ==> a.value != n.base && a.value != n.base + Size(n) - 1)
  {
    Pow2Grows(Width(n.version) - n.prefix);
  }

  /* ---- lookups ---- */

  predicate Live(v: Lease) {
    v.released.None?
  }

  /** The row of a tenant's address, or |rows|. */
  function RowOf(rows: seq<Lease>, tenant: string, address: Address): (i: nat)
    ensures i <= |rows|
    ensures i < |rows| ==> rows[i].tenant == tenant && rows[i].address == address
    ensures forall j | 0 <= j < i :: rows[j].tenant != tenant || rows[j].address != address
  {
    if rows == [] then 0
    else if rows[0].tenant == tenant && rows[0].address == address then 0
    else
      var i := RowOf(rows[1..], tenant, address);
      assert forall j | 1 <= j < i + 1 :: rows[j] == rows[1..][j - 1];
      i + 1
  }

  /** The subscriber's live lease in the pool, or |rows|. */
  function ExistingLease(rows: seq<Lease>, pool: Pool, subscriber: string): (i: nat)
    ensures i <= |rows|
    ensures i < |rows| ==> Holds(rows[i], pool, subscriber)
    ensures forall j | 0 <= j < i :: !Holds(rows[j], pool, subscriber)
  {
    if rows == [] then 0
    else if Holds(rows[0], pool, subscriber) then 0
    else
      var i := ExistingLease(rows[1..], pool, subscriber);
      assert forall j | 1 <= j < i + 1 :: rows[j] == rows[1..][j - 1];
      i + 1
  }

  predicate Holds(v: Lease, pool: Pool, subscriber: string) {
    v.tenant == pool.tenant && v.pool == pool.id && v.subscriber == subscriber && Live(v)
  }

  /** The tenant's addresses in live leases, whatever their pool. */
  function Occupied(rows: seq<Lease>, tenant: string): set<Address> {
    set i | 0 <= i < |rows| && rows[i].tenant == tenant && Live(rows[i]) :: rows[i].address
  }

  predicate Eligible(a: Address, pool: Pool, rows: seq<Lease>) {
    IsHost(a, pool.network) && a !in Occupied(rows, pool.tenant) && a !in pool.excluded
  }

  /** The first host of the pool that is neither occupied nor excluded; None exactly when there is none. */
  function FirstEligible(pool: Pool, rows: seq<Lease>, from: nat): (r: Option<Address>)
    ensures r.Some? ==> Eligible(r.value, pool, rows) && from <= r.value.value
    ensures forall a | Eligible(a, pool, rows) && from <= a.value :: r.Some? && r.value.value <= a.value
    decreases EndHost(pool.network) - from
  {
    if from >= EndHost(pool.network) then None
    else
      var a := Address(pool.network.version, from);
      if Eligible(a, pool, rows) then Some(a) else FirstEligible(pool, rows, from + 1)
  }

  /* ---- steps ---- */

  datatype Outcome = Leased(row: nat) | PoolExhausted | Conflict

  /** The decision of `allocate` on the rows it has read. */
  datatype Decision = Keep(row: nat) | Take(address: Address) | GiveUp

  function Decide(seen: seq<Lease>, pool: Pool, subscriber: string): Decision {
    var i := ExistingLease(seen, pool, subscriber);
    if i < |seen| then Keep(i)
    else
      var a := FirstEligible(pool, seen, FirstHost(pool.network));
      if a.Some? then Take(a.value) else GiveUp
  }

  predicate HasRow(rows: seq<Lease>, tenant: string, address: Address) {
    RowOf(rows, tenant, address) < |rows|
  }

  /** The write: an insert for an address that has a row already, live or released, breaks the unique constraint. */
  function Allocated(rows: seq<Lease>, pool: Pool, subscriber: string, session: Option<nat>,
                     decision: Decision): seq<Lease> {
    match decision
    case Keep(i) => if i < |rows| then rows[i := rows[i].(session := session)] else rows
    case Take(a) =>
      if HasRow(rows, pool.tenant, a) then rows
      else rows + [Lease(pool.tenant, pool.id, subscriber, a, false, session, None)]
    case GiveUp => rows
  }

  function OutcomeOf(rows: seq<Lease>, pool: Pool, decision: Decision): Outcome {
    match decision
    case Keep(i) => Leased(i)
    case Take(a) => if HasRow(rows, pool.tenant, a) then Conflict else Leased(|rows|)
    case GiveUp => PoolExhausted
  }

  predicate Reservable(rows: seq<Lease>, pool: Pool, tenant: string, subscriber: string, a: Address) {
    var i := RowOf(rows, tenant, a);
    && pool.tenant == tenant && InNetwork(a, pool.network) && a !in pool.excluded
    && (i < |rows| ==> rows[i].subscriber == subscriber)
  }

  /** The row of a reservation decided on `seen`: only the columns that change on the row read are written. */
  function ReservedRow(v: Lease, seen: Lease): Lease {
    v.(reservation := v.reservation || !seen.reservation,
       released := if seen.released.Some? then None else v.released)
  }

  function Reserved(rows: seq<Lease>, seen: seq<Lease>, pool: Pool, tenant: string, subscriber: string,
                    a: Address): seq<Lease> {
    var i := RowOf(seen, tenant, a);
    if !Reservable(seen, pool, tenant, subscriber, a) then rows
    else if i < |seen| then (if i < |rows| then rows[i := ReservedRow(rows[i], seen[i])] else rows)
    else if HasRow(rows, tenant, a) then rows
    else rows + [Lease(tenant, pool.id, subscriber, a, true, None, None)]
  }

  /** Is the lease stale? `alive` are the sessions that exist and are not stopped. */
  predicate Stale(v: Lease, alive: set<nat>) {
    !v.reservation && Live(v) && v.session.Some? && v.session.value !in alive
  }

  /** A row ended by a release or a cleanup that read it as `seen`. */
  function EndedRow(v: Lease, seen: Lease, now: int): Lease {
    v.(session := if seen.session.Some? then None else v.session, released := Some(now))
  }

  /** The lease `i` can be released by the tenant. */
  predicate Releasable(rows: seq<Lease>, i: nat, tenant: string) {
    i < |rows| && rows[i].tenant == tenant && !rows[i].reservation
  }

  /** The stale leases among the first `n`. */
  function StaleBefore(rows: seq<Lease>, n: nat, alive: set<nat>): set<nat>
    requires n <= |rows|
  {
    set i | 0 <= i < n && Stale(rows[i], alive)
  }

  lemma OneMoreStale(rows: seq<Lease>, n: nat, alive: set<nat>)
    requires n < |rows|
    ensures |StaleBefore(rows, n + 1, alive)|
         == |StaleBefore(rows, n, alive)| + if Stale(rows[n], alive) then 1 else 0
  {
    assert StaleBefore(rows, n + 1, alive)
        == StaleBefore(rows, n, alive) + if Stale(rows[n], alive) then {n} else {};
  }

  predicate StaleAt(seen: seq<Lease>, i: nat, alive: set<nat>) {
    i < |seen| && Stale(seen[i], alive)
  }

  function CleanedRow(v: Lease, seen: seq<Lease>, i: nat, alive: set<nat>, now: int): Lease {
    if StaleAt(seen, i, alive) then EndedRow(v, seen[i], now) else v
  }

  /** Every step writes to the rows of the moment what it decided on rows read at any time before. */
  datatype Step =
    | Allocate(seen: seq<Lease>, pool: Pool, subscriber: string, session: Option<nat>)
    | Reserve(seen: seq<Lease>, pool: Pool, tenant: string, subscriber: string, address: Address)
    | Release(seen: seq<Lease>, i: nat, tenant: string, now: int)
    | Cleanup(seen: seq<Lease>, alive: set<nat>, now: int)

  function Next(rows: seq<Lease>, step: Step): seq<Lease> {
    match step
    case Allocate(seen, pool, subscriber, session) =>
      Allocated(rows, pool, subscriber, session, Decide(seen, pool, subscriber))
    case Reserve(seen, pool, tenant, subscriber, a) => Reserved(rows, seen, pool, tenant, subscriber, a)
    case Release(seen, i, tenant, now) =>
      if Releasable(seen, i, tenant) && i < |rows| then rows[i := EndedRow(rows[i], seen[i], now)] else rows
    case Cleanup(seen, alive, now) =>
      seq(|rows|, i requires 0 <= i < |rows| => CleanedRow(rows[i], seen, i, alive, now))
  }

  function RunFrom(rows: seq<Lease>, steps: seq<Step>): seq<Lease> {
    if steps == [] then rows else Next(RunFrom(rows, steps[..|steps| - 1]), steps[|steps| - 1])
  }

  /* ---- safety ---- */

  /** One row per tenant and address. */
  predicate OneRowEach(rows: seq<Lease>) {
    forall i, j | 0 <= i < j < |rows| :: rows[i].tenant != rows[j].tenant || rows[i].address != rows[j].address
  }

  predicate ReservationsLive(rows: seq<Lease>) {
    forall i | 0 <= i < |rows| :: rows[i].reservation ==> Live(rows[i])
  }

  predicate Safe(rows: seq<Lease>) {
    OneRowEach(rows) && ReservationsLive(rows)
  }

  predicate SameHolder(v: Lease, w: Lease) {
    w.tenant == v.tenant && w.address == v.address && w.subscriber == v.subscriber && w.pool == v.pool
  }

  /** What a step may do to rows that are there: who they are for stays, and so does the mark of a reservation. */
  predicate Kept(rows: seq<Lease>, after: seq<Lease>) {
    && |rows| <= |after|
    && forall i | 0 <= i < |rows| :: SameHolder(rows[i], after[i]) && (rows[i].reservation ==> after[i].reservation)
  }

  /** What a write would have to check against the rows of the moment: a release or cleanup, that the lease has not been
      reserved since it was read; a reservation of a lease read as live, that it has not been ended since. */
  predicate Guarded(rows: seq<Lease>, step: Step) {
    match step
    case Allocate(_, _, _, _) => true
    case Reserve(seen, pool, tenant, subscriber, a) =>
      var i := RowOf(seen, tenant, a);
      Reservable(seen, pool, tenant, subscriber, a)
        && i < |seen| && i < |rows| && !seen[i].reservation && Live(seen[i]) ==>
        Live(rows[i])
    case Release(seen, i, tenant, _) => Releasable(seen, i, tenant) && i < |rows| ==> !rows[i].reservation
    case Cleanup(seen, alive, _) => forall i | 0 <= i < |rows| && StaleAt(seen, i, alive) :: !rows[i].reservation
  }

  lemma ChangeRow(rows: seq<Lease>, i: nat, v: Lease)
    requires OneRowEach(rows) && i < |rows| && SameHolder(rows[i], v) && (rows[i].reservation ==> v.reservation)
    ensures OneRowEach(rows[i := v]) && Kept(rows, rows[i := v])
    ensures ReservationsLive(rows) ==> (ReservationsLive(rows[i := v]) <==> (v.reservation ==> Live(v)))
  {
    assert rows[i := v][i] == v;
  }

  lemma AddRow(rows: seq<Lease>, v: Lease)
    requires OneRowEach(rows) && !HasRow(rows, v.tenant, v.address) && Live(v)
    ensures OneRowEach(rows + [v]) && Kept(rows, rows + [v])
    ensures ReservationsLive(rows) ==> ReservationsLive(rows + [v])
  {}

  lemma CleanupEffect(rows: seq<Lease>, seen: seq<Lease>, alive: set<nat>, now: int)
    requires OneRowEach(rows)
    ensures var t := Next(rows, Cleanup(seen, alive, now));
      && OneRowEach(t) && Kept(rows, t)
      && (ReservationsLive(rows) ==> (ReservationsLive(t) <==> Guarded(rows, Cleanup(seen, alive, now))))
  {
    var t := Next(rows, Cleanup(seen, alive, now));
    assert forall i | 0 <= i < |rows| :: t[i] == CleanedRow(rows[i], seen, i, alive, now);
    if ReservationsLive(rows) && ReservationsLive(t) {
      forall i | 0 <= i < |rows| && StaleAt(seen, i, alive)
        ensures !rows[i].reservation
      {
        assert t[i].reservation ==> Live(t[i]);
      }
    }
  }

  lemma ReserveEffect(rows: seq<Lease>, seen: seq<Lease>, pool: Pool, tenant: string, subscriber: string, a: Address)
    requires OneRowEach(rows)
    ensures var step := Reserve(seen, pool, tenant, subscriber, a); var t := Next(rows, step);
      OneRowEach(t) && Kept(rows, t) && (ReservationsLive(rows) ==> (ReservationsLive(t) <==> Guarded(rows, step)))
  {
    var i := RowOf(seen, tenant, a);
    if Reservable(seen, pool, tenant, subscriber, a) {
      if i < |seen| {
        if i < |rows| { ChangeRow(rows, i, ReservedRow(rows[i], seen[i])); }
      } else if !HasRow(rows, tenant, a) {
        AddRow(rows, Lease(tenant, pool.id, subscriber, a, true, None, None));
      }
    }
  }

  lemma AllocateEffect(rows: seq<Lease>, pool: Pool, subscriber: string, session: Option<nat>, decision: Decision)
    requires OneRowEach(rows)
    ensures var t := Allocated(rows, pool, subscriber, session, decision);
      OneRowEach(t) && Kept(rows, t) && (ReservationsLive(rows) ==> ReservationsLive(t))
  {
    match decision
    case Keep(i) => if i < |rows| { ChangeRow(rows, i, rows[i].(session := session)); }
    case Take(a) =>
      if !HasRow(rows, pool.tenant, a) {
        AddRow(rows, Lease(pool.tenant, pool.id, subscriber, a, false, session, None));
      }
    case GiveUp =>
  }

  /** Every step, on whatever it has read, keeps one row per address and who a row is for; and it keeps the reservations
      live exactly when it is guarded. */
  lemma StepSafe(rows: seq<Lease>, step: Step)
    requires OneRowEach(rows)
    ensures OneRowEach(Next(rows, step)) && Kept(rows, Next(rows, step))
    ensures ReservationsLive(rows) ==> (ReservationsLive(Next(rows, step)) <==> Guarded(rows, step))
  {
    match step
    case Allocate(seen, pool, subscriber, session) =>
      AllocateEffect(rows, pool, subscriber, session, Decide(seen, pool, subscriber));
    case Reserve(seen, pool, tenant, subscriber, a) => ReserveEffect(rows, seen, pool, tenant, subscriber, a);
    case Release(seen, i, tenant, now) =>
      if Releasable(seen, i, tenant) && i < |rows| { ChangeRow(rows, i, EndedRow(rows[i], seen[i], now)); }
    case Cleanup(seen, alive, now) => CleanupEffect(rows, seen, alive, now);
  }

  /** In every run, on reads however stale: two live leases of a tenant never share an address, across all pools. */
  lemma {:induction false} LeaseSafety(rows: seq<Lease>, steps: seq<Step>)
    requires OneRowEach(rows)
    ensures var t := RunFrom(rows, steps);
      && OneRowEach(t) && Kept(rows, t)
      && forall i, j | 0 <= i < j < |t| && Live(t[i]) && Live(t[j]) && t[i].tenant == t[j].tenant ::
         t[i].address != t[j].address
  {
    if steps != [] {
      LeaseSafety(rows, steps[..|steps| - 1]);
      StepSafe(RunFrom(rows, steps[..|steps| - 1]), steps[|steps| - 1]);
    }
  }

  predicate GuardedRun(rows: seq<Lease>, steps: seq<Step>) {
    if steps == [] then true
    else
      var n := |steps| - 1;
      GuardedRun(rows, steps[..n]) && Guarded(RunFrom(rows, steps[..n]), steps[n])
  }

  /** In every guarded run a reservation stays live, on its address and for its subscriber, to the end. */
  lemma {:induction false} ReservationsLast(rows: seq<Lease>, steps: seq<Step>)
    requires Safe(rows) && GuardedRun(rows, steps)
    ensures var t := RunFrom(rows, steps);
      && Safe(t) && Kept(rows, t)
      && forall i | 0 <= i < |rows| && rows[i].reservation ::
         && t[i].tenant == rows[i].tenant && t[i].address == rows[i].address && t[i].pool == rows[i].pool
         && t[i].subscriber == rows[i].subscriber && t[i].reservation && Live(t[i])
  {
    if steps != [] {
      var n := |steps| - 1;
      ReservationsLast(rows, steps[..n]);
      StepSafe(RunFrom(rows, steps[..n]), steps[n]);
    }
  }

  /** A step on the rows as they are is guarded. */
  lemma FreshIsGuarded(rows: seq<Lease>, step: Step)
    requires step.seen == rows && ReservationsLive(rows)
    ensures Guarded(rows, step)
  {}

  /** A first unguarded step ends a reservation: one that was there, or the very one it makes. */
  lemma UnguardedEndsReservation(rows: seq<Lease>, step: Step)
    requires Safe(rows) && !Guarded(rows, step)
    ensures exists i | 0 <= i < |rows| :: Next(rows, step)[i].reservation && !Live(Next(rows, step)[i])
  {
    StepSafe(rows, step);
    var t := Next(rows, step);
    var i :| 0 <= i < |t| && t[i].reservation && !Live(t[i]);
  }

  /* ---- exactness ---- */

  ghost predicate FirstFree(a: Address, pool: Pool, rows: seq<Lease>) {
    Eligible(a, pool, rows) && forall b | Eligible(b, pool, rows) :: a.value <= b.value
  }

  /** What an allocation on fresh rows does: the subscriber's live lease if there is one; otherwise the pool's first
      free host, unless that host ever had a lease of the tenant, which makes the insert fail; `PoolExhausted` exactly
      when no host is free. */
  lemma AllocateExact(rows: seq<Lease>, pool: Pool, subscriber: string, session: Option<nat>)
    ensures var d := Decide(rows, pool, subscriber);
      var o := OutcomeOf(rows, pool, d); var t := Allocated(rows, pool, subscriber, session, d);
      && (o == PoolExhausted
          <==> (forall v | v in rows :: !Holds(v, pool, subscriber)) && (forall a :: !Eligible(a, pool, rows)))
      && (o.Leased? && o.row < |rows| ==>
          Holds(rows[o.row], pool, subscriber) && t == rows[o.row := rows[o.row].(session := session)])
      && (o.Leased? && o.row >= |rows| ==>
            && (forall v | v in rows :: !Holds(v, pool, subscriber))
            && |t| == |rows| + 1 && t[..|rows|] == rows && Holds(t[|rows|], pool, subscriber)
            && FirstFree(t[|rows|].address, pool, rows) && t[|rows|].session == session)
      && (o == Conflict <==>
            && (forall v | v in rows :: !Holds(v, pool, subscriber))
            && exists a :: FirstFree(a, pool, rows) && HasRow(rows, pool.tenant, a))
      && (o == Conflict || o == PoolExhausted ==> t == rows)
  {
    var i := ExistingLease(rows, pool, subscriber);
    if i < |rows| {
      assert rows[i] in rows;
    } else {
      forall v | v in rows
        ensures !Holds(v, pool, subscriber)
      {
        var j :| 0 <= j < |rows| && rows[j] == v;
      }
      ChoiceExact(rows, pool);
    }
  }

  lemma ChoiceExact(rows: seq<Lease>, pool: Pool)
    ensures var r := FirstEligible(pool, rows, FirstHost(pool.network));
      && (r.None? <==> forall a :: !Eligible(a, pool, rows))
      && (forall a :: FirstFree(a, pool, rows) <==> r == Some(a))
  {
    var r := FirstEligible(pool, rows, FirstHost(pool.network));
    forall a
      ensures FirstFree(a, pool, rows) <==> r == Some(a)
    {
      if FirstFree(a, pool, rows) {
        assert Eligible(r.value, pool, rows) && r.value.value <= a.value;
      }
    }
  }

  lemma LiveIsOccupied(rows: seq<Lease>, i: nat)
    requires i < |rows| && Live(rows[i])
    ensures rows[i].address in Occupied(rows, rows[i].tenant)
  {}

  /** The row an insert collides with is always a released one. */
  lemma ConflictIsReleased(rows: seq<Lease>, pool: Pool, a: Address)
    requires Eligible(a, pool, rows) && HasRow(rows, pool.tenant, a)
    ensures !Live(rows[RowOf(rows, pool.tenant, a)])
  {
    var i := RowOf(rows, pool.tenant, a);
    if Live(rows[i]) {
      LiveIsOccupied(rows, i);
      assert false;
    }
  }

  /** A conflict is not passed over: until something else changes the rows, every subscriber without a lease in the
      pool meets the same released row, however many other hosts are free. */
  lemma ConflictStays(rows: seq<Lease>, pool: Pool, first: string, other: string, session: Option<nat>)
    requires OutcomeOf(rows, pool, Decide(rows, pool, first)) == Conflict
    requires forall i | 0 <= i < |rows| :: !Holds(rows[i], pool, other)
    ensures var t := Next(rows, Allocate(rows, pool, first, session));
      OutcomeOf(t, pool, Decide(t, pool, other)) == Conflict
  {}

  /* ---- the service ---- */

  class LeaseStore {
    var rows: seq<Lease>

    constructor ()
      ensures rows == [] && Safe(rows)
    {
      rows := [];
    }

    lemma Fresh(step: Step)
      requires Safe(rows) && step.seen == rows
      ensures Safe(Next(rows, step))
    {
      FreshIsGuarded(rows, step);
      StepSafe(rows, step);
    }

    /** The scan of `allocate`, on the rows as they are. */
    method AllocateLease(pool: Pool, subscriber: string, session: Option<nat>) returns (outcome: Outcome)
      requires Safe(rows)
      modifies this
      ensures rows == Next(old(rows), Allocate(old(rows), pool, subscriber, session)) && Safe(rows)
      ensures outcome == OutcomeOf(old(rows), pool, Decide(old(rows), pool, subscriber))
    {
      Fresh(Allocate(rows, pool, subscriber, session));
      var i := ExistingLease(rows, pool, subscriber);
      if i < |rows| {
        rows := rows[i := rows[i].(session := session)];
        return Leased(i);
      }
      var occupied := Occupied(rows, pool.tenant);
      var from := FirstHost(pool.network);
      while from < EndHost(pool.network)
        invariant FirstHost(pool.network) <= from
        invariant FirstEligible(pool, rows, from) == FirstEligible(pool, rows, FirstHost(pool.network))
        invariant rows == old(rows)
      {
        var a := Address(pool.network.version, from);
        if a !in occupied && a !in pool.excluded {
          assert FirstEligible(pool, rows, from) == Some(a);
          if HasRow(rows, pool.tenant, a) {
            return Conflict;
          }
          rows := rows + [Lease(pool.tenant, pool.id, subscriber, a, false, session, None)];
          return Leased(|rows| - 1);
        }
        from := from + 1;
      }
      return PoolExhausted;
    }

    /** None, or the status of the HTTP error. */
    method ReserveIp(pool: Pool, tenant: string, subscriber: string, a: Address) returns (error: Option<int>)
      requires Safe(rows)
      modifies this
      ensures rows == Next(old(rows), Reserve(old(rows), pool, tenant, subscriber, a)) && Safe(rows)
      ensures error.None? <==> Reservable(old(rows), pool, tenant, subscriber, a)
      ensures error == Some(409) ==>
        exists v | v in old(rows) :: v.tenant == tenant && v.address == a && v.subscriber != subscriber
    {
      Fresh(Reserve(rows, pool, tenant, subscriber, a));
      if pool.tenant != tenant {
        return Some(404);
      }
      if !InNetwork(a, pool.network) || a in pool.excluded {
        return Some(422);
      }
      var i := RowOf(rows, tenant, a);
      if i < |rows| && rows[i].subscriber != subscriber {
        assert rows[i] in rows;
        return Some(409);
      }
      if i < |rows| {
        rows := rows[i := rows[i].(reservation := true, released := None)];
      } else {
        rows := rows + [Lease(tenant, pool.id, subscriber, a, true, None, None)];
      }
      return None;
    }

    method ReleaseIp(i: nat, tenant: string, now: int) returns (error: Option<int>)
      requires Safe(rows)
      modifies this
      ensures rows == Next(old(rows), Release(old(rows), i, tenant, now)) && Safe(rows)
      ensures error ==
        if i >= |old(rows)| || old(rows)[i].tenant != tenant then Some(404)
        else if old(rows)[i].reservation then Some(409)
        else None
    {
      Fresh(Release(rows, i, tenant, now));
      if i >= |rows| || rows[i].tenant != tenant {
        return Some(404);
      }
      if rows[i].reservation {
        return Some(409);
      }
      rows := rows[i := rows[i].(session := None)];
      if !rows[i].reservation {
        rows := rows[i := rows[i].(released := Some(now))];
      }
      return None;
    }

    /** Ends the stale leases and no others. */
    method CleanupStaleLeases(alive: set<nat>, now: int) returns (released: nat)
      requires Safe(rows)
      modifies this
      ensures rows == Next(old(rows), Cleanup(old(rows), alive, now)) && Safe(rows)
      ensures released == |StaleBefore(old(rows), |old(rows)|, alive)|
    {
      ghost var before := rows;
      ghost var cleaned := Next(rows, Cleanup(rows, alive, now));
      Fresh(Cleanup(rows, alive, now));
      assert forall k | 0 <= k < |rows| :: cleaned[k] == CleanedRow(rows[k], rows, k, alive, now);
      released := 0;
      var i := 0;
      while i < |rows|
        invariant 0 <= i <= |rows| == |before|
        invariant forall k | 0 <= k < |before| :: rows[k] == if k < i then cleaned[k] else before[k]
        invariant released == |StaleBefore(before, i, alive)|
      {
        var v := rows[i];
        OneMoreStale(before, i, alive);
        if !v.reservation && Live(v) && v.session.Some? && v.session.value !in alive {
          rows := rows[i := v.(session := None, released := Some(now))];
          released := released + 1;
        }
        i := i + 1;
      }
      assert rows == cleaned;
    }
  }

  /* ---- networks, leases and steps in plain terms ---- */

  /** A full-length prefix is one address, and each bit less doubles the network: 32 bits for IPv4, 128 for IPv6. */
  lemma SizeMeans(n: Network)
    ensures n.prefix == (if n.version == V4 then 32 else 128) ==> Size(n) == 1
    ensures 0 < n.prefix <= (if n.version == V4 then 32 else 128) ==> Size(n.(prefix := n.prefix - 1)) == 2 * Size(n)
  {}

  /** A host is eligible when no live lease of the tenant, in any pool, has it and the pool does not exclude it. */
  lemma EligibleIff(a: Address, pool: Pool, rows: seq<Lease>)
    ensures Eligible(a, pool, rows) <==>
      && IsHost(a, pool.network) && a !in pool.excluded
      && forall i | 0 <= i < |rows| ::
           rows[i].tenant != pool.tenant || rows[i].released.Some? || rows[i].address != a
  {
    if i :| 0 <= i < |rows| && rows[i].tenant == pool.tenant && rows[i].released.None? && rows[i].address == a {
      LiveIsOccupied(rows, i);
    }
  }

  /** The lease an allocation gives back without a new one. */
  lemma ExistingMeans(rows: seq<Lease>, pool: Pool, subscriber: string)
    ensures ExistingLease(rows, pool, subscriber) < |rows| <==> exists i | 0 <= i < |rows| ::
      && rows[i].tenant == pool.tenant && rows[i].pool == pool.id && rows[i].subscriber == subscriber
      && rows[i].released.None?
    ensures var i := ExistingLease(rows, pool, subscriber);
      i < |rows| ==> && rows[i].tenant == pool.tenant && rows[i].pool == pool.id && rows[i].subscriber == subscriber
                     && rows[i].released.None?
  {
    if i :| 0 <= i < |rows| && rows[i].tenant == pool.tenant && rows[i].pool == pool.id
            && rows[i].subscriber == subscriber && rows[i].released.None? {
      assert Holds(rows[i], pool, subscriber);
    }
  }

  /** An allocation on the rows as they are touches one row: it moves the session of the existing lease, or appends a
      live lease of the subscriber in the pool, or nothing. */
  lemma AllocationTouches(rows: seq<Lease>, pool: Pool, subscriber: string, session: Option<nat>)
    ensures var t := Next(rows, Allocate(rows, pool, subscriber, session));
      var i := ExistingLease(rows, pool, subscriber);
      if i < |rows| then t == rows[i := rows[i].(session := session)]
      else t == rows || (|t| == |rows| + 1 && t[..|rows|] == rows
                         && t[|rows|]
                            == Lease(pool.tenant, pool.id, subscriber, t[|rows|].address, false, session, None))
  {}

  /** A reservation on the rows as they are. */
  lemma ReservationMeans(rows: seq<Lease>, pool: Pool, tenant: string, subscriber: string, a: Address)
    ensures var t := Next(rows, Reserve(rows, pool, tenant, subscriber, a)); var i := RowOf(rows, tenant, a);
      if && pool.tenant == tenant && a.version == pool.network.version && a !in pool.excluded
         && pool.network.base <= a.value < pool.network.base + Size(pool.network)
         && (i < |rows| ==> rows[i].subscriber == subscriber)
      then t == (if i < |rows| then rows[i := rows[i].(reservation := true, released := None)]
                 else rows + [Lease(tenant, pool.id, subscriber, a, true, None, None)])
      else t == rows
  {
    assert forall i | 0 <= i < |rows| :: rows[i := rows[i]] == rows;
  }

  /** A release on the rows as they are ends the tenant's lease unless it is a reservation. */
  lemma ReleaseMeans(rows: seq<Lease>, i: nat, tenant: string, now: int)
    ensures Next(rows, Release(rows, i, tenant, now)) ==
      if i < |rows| && rows[i].tenant == tenant && !rows[i].reservation
      then rows[i := rows[i].(session := None, released := Some(now))] else rows
  {}

  /** A cleanup on the rows as they are ends the live leases, no reservations, whose session is not alive; a lease
      without a session or with a live one stays as it is. The stale leases counted are the rows that change. */
  lemma CleanupMeans(rows: seq<Lease>, alive: set<nat>, now: int)
    ensures var t := Next(rows, Cleanup(rows, alive, now));
      && |t| == |rows|
      && forall i | 0 <= i < |rows| ::
           var v := rows[i];
           t[i] == if !v.reservation && v.released.None? && v.session.Some? && v.session.value !in alive
                   then v.(session := None, released := Some(now)) else v
    ensures StaleBefore(rows, |rows|, alive)
         == set i | 0 <= i < |rows| && Next(rows, Cleanup(rows, alive, now))[i] != rows[i]
  {}
}
