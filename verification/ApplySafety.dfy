/** What holds at every prefix of an application, and the whole apply-then-verify flow of
    services/aaa-service/app/nas_service.py. */
module ApplySafety {
  import opened Common
  import opened Router
  import opened Planner
  import opened Sorting
  import opened Apply
  import opened Convergence
  import opened Settled

  /* ---- the protected part of a table ---- */

  /** Entries whose address is outside a set of addresses, in table order. */
  function Outside(es: seq<RadiusEntry>, addresses: set<string>): (r: seq<RadiusEntry>)
    ensures forall e :: e in r <==> e in es && e.address !in addresses
  {
    if es == [] then []
    else (if es[0].address in addresses then [] else [es[0]]) + Outside(es[1..], addresses)
  }

  /** Remote ids of the entries whose address is in a set, in table order. */
  function IdsWithin(es: seq<RadiusEntry>, addresses: set<string>): seq<string> {
    if es == [] then []
    else (if es[0].address in addresses then [es[0].remoteId] else []) + IdsWithin(es[1..], addresses)
  }

  lemma {:induction false} ProtectedAfterAppend(es: seq<RadiusEntry>, e: RadiusEntry, outer: set<string>,
                                                inner: set<string>)
    requires e.address in outer && e.address in inner
    ensures Outside(es + [e], outer) == Outside(es, outer)
    ensures IdsWithin(es + [e], inner) == IdsWithin(es, inner) + [e.remoteId]
  {
    if es == [] {
      assert es + [e] == [e];
    } else {
      assert (es + [e])[1..] == es[1..] + [e];
      ProtectedAfterAppend(es[1..], e, outer, inner);
    }
  }

  lemma {:induction false} ProtectedAfterUpdate(es: seq<RadiusEntry>, i: nat, u: RadiusEntry, outer: set<string>,
                                                inner: set<string>)
    requires i < |es| && u.address == es[i].address && u.remoteId == es[i].remoteId && u.address in outer
    ensures Outside(es[i := u], outer) == Outside(es, outer)
    ensures IdsWithin(es[i := u], inner) == IdsWithin(es, inner)
  {
    if i > 0 {
      assert es[i := u][1..] == es[1..][i - 1 := u];
      ProtectedAfterUpdate(es[1..], i - 1, u, outer, inner);
    } else {
      assert es[0 := u][1..] == es[1..];
    }
  }

  lemma {:induction false} ProtectedAfterRemoval(es: seq<RadiusEntry>, id: string, outer: set<string>,
                                                 inner: set<string>)
    requires forall e | e in es && e.remoteId == id :: e.address in outer && e.address !in inner
    ensures Outside(WithoutId(es, id), outer) == Outside(es, outer)
    ensures IdsWithin(WithoutId(es, id), inner) == IdsWithin(es, inner)
  {
    if es != [] {
      assert es[0] in es;
      ProtectedAfterRemoval(es[1..], id, outer, inner);
    }
  }

  predicate SameRecord(a: map<string, RemoteObject>, b: map<string, RemoteObject>, id: string) {
    (id in a <==> id in b) && (id in a ==> a[id] == b[id])
  }

  /** Entries neither desired nor managed keep all fields, their order and their ownership record;
      entries with a desired address keep their ids and order, new ones coming last. */
  ghost predicate Protects(w: World, w': World, d: DesiredState, managed: set<string>) {
    var desired := Addresses(d.assignments);
    && Outside(w'.router.entries, desired + managed) == Outside(w.router.entries, desired + managed)
    && IdsWithin(w.router.entries, desired) <= IdsWithin(w'.router.entries, desired)
    && (forall e | e in Outside(w.router.entries, desired + managed) :: SameRecord(w.objects, w'.objects, e.remoteId))
  }

  lemma OutsideIdsDiffer(es: seq<RadiusEntry>, addresses: set<string>, inner: RadiusEntry)
    requires UniqueIds(es) && inner in es && inner.address in addresses
    ensures forall e | e in Outside(es, addresses) :: e.remoteId != inner.remoteId
  {
    forall e | e in Outside(es, addresses) && e.remoteId == inner.remoteId
      ensures false
    {
      SameIdSameEntry(es, e, inner);
    }
  }

  /** An addition appends one entry and writes one record. */
  lemma AddEffect(w: World, e0: DesiredEntry)
    requires SoundRouter(w.router) && DesiredChange(w.router.entries, e0).kind == OpAdd
    ensures var es, id := w.router.entries, RemoteIdText(w.router.nextId);
      var w' := ApplyOne(w, DesiredChange(es, e0)).world;
      && w'.router.entries == es + [CreatedEntry(id, ValuesOf(e0))]
      && (forall e | e in es :: e.remoteId != id)
      && forall other :: other != id ==> SameRecord(w.objects, w'.objects, other)
  {}

  lemma AddProtects(w: World, d: DesiredState, managed: set<string>, e0: DesiredEntry)
    requires SoundRouter(w.router) && Settleable(d)
    requires e0 in d.assignments && DesiredChange(w.router.entries, e0).kind == OpAdd
    ensures Protects(w, ApplyOne(w, DesiredChange(w.router.entries, e0)).world, d, managed)
  {
    var es, desired := w.router.entries, Addresses(d.assignments);
    var created := CreatedEntry(RemoteIdText(w.router.nextId), ValuesOf(e0));
    AddEffect(w, e0);
    assert created.address == e0.address && e0.address in desired;
    ProtectedAfterAppend(es, created, desired + managed, desired);
  }

  /** An update writes one entry and one record. */
  lemma UpdateEffect(w: World, e0: DesiredEntry)
    requires UniqueIds(w.router.entries) && DesiredChange(w.router.entries, e0).kind == OpUpdate
    ensures var es := w.router.entries; var found := FindAddress(es, e0.address).value;
      var i := FirstWithId(es, found.remoteId);
      var w' := ApplyOne(w, DesiredChange(es, e0)).world;
      && i < |es| && es[i] == found && found in es && found.address == e0.address
      && w'.router.entries == es[i := UpdatedEntry(found, ValuesOf(e0))]
      && forall id :: id != found.remoteId ==> SameRecord(w.objects, w'.objects, id)
  {
    var es := w.router.entries;
    var found := FindAddress(es, e0.address).value;
    SameIdSameEntry(es, es[FirstWithId(es, found.remoteId)], found);
  }

  lemma UpdateProtects(w: World, d: DesiredState, managed: set<string>, e0: DesiredEntry)
    requires UniqueIds(w.router.entries)
    requires e0 in d.assignments && DesiredChange(w.router.entries, e0).kind == OpUpdate
    ensures Protects(w, ApplyOne(w, DesiredChange(w.router.entries, e0)).world, d, managed)
  {
    var es, desired := w.router.entries, Addresses(d.assignments);
    var found := FindAddress(es, e0.address).value;
    var i := FirstWithId(es, found.remoteId);
    UpdateEffect(w, e0);
    assert e0.address in desired;
    ProtectedAfterUpdate(es, i, UpdatedEntry(found, ValuesOf(e0)), desired + managed, desired);
    OutsideIdsDiffer(es, desired + managed, found);
  }

  /** A removal takes away one id, in the table and in the records. */
  lemma RemovalEffect(w: World, gone: RadiusEntry)
    requires UniqueIds(w.router.entries) && gone in w.router.entries
    ensures var w' := ApplyOne(w, RemovalOf(gone)).world;
      && w'.router.entries == WithoutId(w.router.entries, gone.remoteId)
      && forall id :: id != gone.remoteId ==> SameRecord(w.objects, w'.objects, id)
    ensures forall e | e in w.router.entries && e.remoteId == gone.remoteId :: e == gone
  {
    forall e | e in w.router.entries && e.remoteId == gone.remoteId
      ensures e == gone
    {
      SameIdSameEntry(w.router.entries, e, gone);
    }
  }

  lemma RemovalProtects(w: World, d: DesiredState, managed: set<string>, gone: RadiusEntry)
    requires UniqueIds(w.router.entries)
    requires gone in w.router.entries && Orphan(gone, Addresses(d.assignments), managed)
    ensures Protects(w, ApplyOne(w, RemovalOf(gone)).world, d, managed)
  {
    var es, desired := w.router.entries, Addresses(d.assignments);
    RemovalEffect(w, gone);
    ProtectedAfterRemoval(es, gone.remoteId, desired + managed, desired);
    OutsideIdsDiffer(es, desired + managed, gone);
  }

  lemma OtherTargetsKeepTheTable(w: World, op: Operation)
    requires !op.target.RadiusAssignment? && !op.target.RadiusRemoval?
    ensures ApplyOne(w, op).world.router.entries == w.router.entries && ApplyOne(w, op).world.objects == w.objects
  {}

  lemma DueStepProtects(w: World, d: DesiredState, managed: set<string>, op: Operation)
    requires SoundRouter(w.router) && Settleable(d) && Due(w.router, d, managed, op)
    ensures Protects(w, ApplyOne(w, op).world, d, managed)
  {
    if RadiusDue(w.router.entries, d.assignments, op) {
      var e0 :| e0 in d.assignments && op == DesiredChange(w.router.entries, e0);
      if op.kind == OpAdd {
        AddProtects(w, d, managed, e0);
      } else {
        UpdateProtects(w, d, managed, e0);
      }
    } else if RemovalDue(w.router.entries, Addresses(d.assignments), managed, op) {
      var gone :| gone in w.router.entries && Orphan(gone, Addresses(d.assignments), managed) && op == RemovalOf(gone);
      RemovalProtects(w, d, managed, gone);
    } else {
      OtherTargetsKeepTheTable(w, op);
    }
  }

  lemma StepProtects(w: World, d: DesiredState, managed: set<string>, rest: seq<Operation>)
    requires SoundRouter(w.router) && Settleable(d) && rest != [] && InSync(w.router, d, managed, rest)
    ensures Protects(w, ApplyOne(w, rest[0]).world, d, managed)
  {
    if rest[0].kind != OpNoop {
      assert rest[0] in rest;
      DueStepProtects(w, d, managed, rest[0]);
    }
  }

  lemma ProtectsTransitive(a: World, b: World, c: World, d: DesiredState, managed: set<string>)
    requires Protects(a, b, d, managed) && Protects(b, c, d, managed)
    ensures Protects(a, c, d, managed)
  {}

  /** The world before operation `n` of a plan, and the operations from `n` on. */
  lemma AtPrefix(w: World, d: DesiredState, managed: set<string>, ops: seq<Operation>, n: nat)
    returns (before: World, rest: seq<Operation>)
    requires SoundRouter(w.router) && Settleable(d) && n < |ops|
    requires multiset(ops) == multiset(PlanOperations(w.router, d, managed))
    ensures before == ApplyAll(w, ops[..n]).world && rest == ops[n..] && rest[0] == ops[n]
    ensures SoundRouter(before.router) && InSync(before.router, d, managed, rest)
    ensures ApplyAll(w, ops[..n + 1]).world == ApplyOne(before, rest[0]).world
  {
    PlanInSync(w.router, d, managed, ops);
    RunInSync(w, d, managed, ops, n);
    before, rest := ApplyAll(w, ops[..n]).world, ops[n..];
    assert ops[..n + 1][..n] == ops[..n];
  }

  /** At every prefix of a plan run in any order, the entries outside the plan are untouched and no entry
      with a desired address has been removed. */
  lemma {:induction false} EveryPrefixProtects(w: World, d: DesiredState, managed: set<string>, ops: seq<Operation>,
                                               n: nat)
    requires SoundRouter(w.router) && Settleable(d) && n <= |ops|
    requires multiset(ops) == multiset(PlanOperations(w.router, d, managed))
    ensures Protects(w, ApplyAll(w, ops[..n]).world, d, managed)
  {
    if n > 0 {
      EveryPrefixProtects(w, d, managed, ops, n - 1);
      var before, rest := AtPrefix(w, d, managed, ops, n - 1);
      StepProtects(before, d, managed, rest);
      ProtectsTransitive(w, before, ApplyAll(w, ops[..n]).world, d, managed);
    }
  }

  /* ---- the table never becomes empty ---- */

  lemma DesiredEntrySurvives(es: seq<RadiusEntry>, id: string, a: string)
    requires FindAddress(es, a).Some?
    requires forall e | e in es && e.remoteId == id :: e.address != a
    ensures WithoutId(es, id) != []
  {
    FindAfterRemoval(es, id, a);
  }

  /** While a removal is next in a sorted list, nothing is left to add. */
  lemma NothingToAdd(s: RouterState, d: DesiredState, managed: set<string>, rest: seq<Operation>, e0: DesiredEntry)
    requires rest != [] && rest[0].kind == OpRemove && Sorted(rest, Rank)
    requires InSync(s, d, managed, rest) && e0 in d.assignments
    ensures FindAddress(s.entries, e0.address).Some?
  {
    var change := DesiredChange(s.entries, e0);
    forall j | 0 <= j < |rest|
      ensures rest[j].kind != OpAdd
    {
      assert Rank(rest[0]) <= Rank(rest[j]);
    }
  }

  /** A planned removal leaves the entry that serves a desired one. */
  lemma RemovalLeavesSome(w: World, d: DesiredState, managed: set<string>, gone: RadiusEntry, e0: DesiredEntry)
    requires SoundRouter(w.router) && gone in w.router.entries && Orphan(gone, Addresses(d.assignments), managed)
    requires e0 in d.assignments && FindAddress(w.router.entries, e0.address).Some?
    ensures ApplyOne(w, RemovalOf(gone)).world.router.entries != []
  {
    RemovalEffect(w, gone);
    assert e0.address in Addresses(d.assignments);
    DesiredEntrySurvives(w.router.entries, gone.remoteId, e0.address);
  }

  lemma OthersKeepNonEmpty(w: World, op: Operation)
    requires op.kind != OpRemove && w.router.entries != []
    ensures ApplyOne(w, op).world.router.entries != []
  {}

  lemma NeverEmptyStep(w: World, d: DesiredState, managed: set<string>, rest: seq<Operation>)
    requires SoundRouter(w.router) && d.assignments != []
    requires rest != [] && Sorted(rest, Rank) && InSync(w.router, d, managed, rest)
    requires w.router.entries != []
    ensures ApplyOne(w, rest[0]).world.router.entries != []
  {
    var op, e0 := rest[0], d.assignments[0];
    if op.kind == OpRemove {
      assert op in rest;
      var gone :| gone in w.router.entries && Orphan(gone, Addresses(d.assignments), managed) && op == RemovalOf(gone);
      NothingToAdd(w.router, d, managed, rest, e0);
      RemovalLeavesSome(w, d, managed, gone, e0);
    } else {
      OthersKeepNonEmpty(w, op);
    }
  }

  /** A table that is not empty stays so at every prefix of a plan whose operations are sorted by rank. */
  lemma {:induction false} NeverEmpty(w: World, d: DesiredState, managed: set<string>, ops: seq<Operation>, n: nat)
    requires SoundRouter(w.router) && Settleable(d) && d.assignments != []
    requires multiset(ops) == multiset(PlanOperations(w.router, d, managed)) && Sorted(ops, Rank)
    requires w.router.entries != [] && n <= |ops|
    ensures ApplyAll(w, ops[..n]).world.router.entries != []
  {
    if n > 0 {
      NeverEmpty(w, d, managed, ops, n - 1);
      var before, rest := AtPrefix(w, d, managed, ops, n - 1);
      NeverEmptyStep(before, d, managed, rest);
    }
  }

  /** The order operations run in: a permutation of the plan, additions before updates before removals,
      operations of one rank in planned order. */
  lemma ApplyOrder(plan: seq<Operation>)
    ensures var ops := StableSort(plan, Rank);
      && multiset(ops) == multiset(plan)
      && (forall i, j | 0 <= i < j < |ops| :: (ops[j].kind == OpAdd ==> ops[i].kind == OpAdd)
                                          && (ops[i].kind == OpRemove ==> ops[j].kind in {OpRemove, OpNoop}))
      && (forall r :: OfKey(ops, Rank, r) == OfKey(plan, Rank, r))
  {
    StableSortIsStable(plan, Rank);
    var ops := StableSort(plan, Rank);
    forall i, j | 0 <= i < j < |ops|
      ensures (ops[j].kind == OpAdd ==> ops[i].kind == OpAdd)
           && (ops[i].kind == OpRemove ==> ops[j].kind == OpRemove || ops[j].kind == OpNoop)
    {
      assert Rank(ops[i]) <= Rank(ops[j]);
    }
  }

  /* ---- ownership records of the entries written ---- */

  /** The entry serving `e0` has an ownership record with its assignment and values. */
  ghost predicate Recorded(w: World, e0: DesiredEntry) {
    var found := FindAddress(w.router.entries, e0.address);
    && found.Some?
    && found.value.remoteId in w.objects
    && w.objects[found.value.remoteId] == RemoteObject(e0.assignmentId, ValuesOf(e0), BackendManaged)
  }

  lemma RecordedByOwnStep(w: World, d: DesiredState, managed: set<string>, e0: DesiredEntry)
    requires SoundRouter(w.router) && Settleable(d) && e0 in d.assignments
    requires DesiredChange(w.router.entries, e0).kind != OpNoop
    ensures Recorded(ApplyOne(w, DesiredChange(w.router.entries, e0)).world, e0)
  {
    var es, op := w.router.entries, DesiredChange(w.router.entries, e0);
    if op.kind == OpAdd {
      FindAfterAppend(es, CreatedEntry(RemoteIdText(w.router.nextId), ValuesOf(e0)), e0.address);
    } else {
      var i := FirstWithId(es, op.target.remoteId.value);
      FindAfterUpdate(es, i, UpdatedEntry(es[i], ValuesOf(e0)), e0.address);
    }
  }

  lemma RecordedKeptByRadius(w: World, d: DesiredState, e1: DesiredEntry, e0: DesiredEntry)
    requires SoundRouter(w.router) && Settleable(d) && e0 in d.assignments && e1 in d.assignments
    requires e1.address != e0.address && DesiredChange(w.router.entries, e1).kind != OpNoop && Recorded(w, e0)
    ensures Recorded(ApplyOne(w, DesiredChange(w.router.entries, e1)).world, e0)
  {
    var es, op := w.router.entries, DesiredChange(w.router.entries, e1);
    if op.kind == OpAdd {
      FindAfterAppend(es, CreatedEntry(RemoteIdText(w.router.nextId), ValuesOf(e1)), e0.address);
    } else {
      var i := FirstWithId(es, op.target.remoteId.value);
      SameIdSameEntry(w.router.entries, es[i], FindAddress(es, e1.address).value);
      FindAfterUpdate(es, i, UpdatedEntry(es[i], ValuesOf(e1)), e0.address);
    }
  }

  lemma RecordedKeptByRemoval(w: World, d: DesiredState, gone: RadiusEntry, e0: DesiredEntry)
    requires UniqueIds(w.router.entries) && gone in w.router.entries && gone.address != e0.address && Recorded(w, e0)
    ensures Recorded(ApplyOne(w, RemovalOf(gone)).world, e0)
  {
    RemovalEffect(w, gone);
    FindAfterRemoval(w.router.entries, gone.remoteId, e0.address);
    var w' := ApplyOne(w, RemovalOf(gone)).world;
    var found := FindAddress(w.router.entries, e0.address).value;
    assert FindAddress(w'.router.entries, e0.address) == Some(found);
    assert found.remoteId != gone.remoteId && SameRecord(w.objects, w'.objects, found.remoteId);
  }

  lemma SameAddressSameEntry(ds: seq<DesiredEntry>, a: DesiredEntry, b: DesiredEntry)
    requires DistinctAddresses(ds) && a in ds && b in ds && a.address == b.address
    ensures a == b
  {}

  lemma RecordedKept(w: World, d: DesiredState, managed: set<string>, op: Operation, e0: DesiredEntry)
    requires SoundRouter(w.router) && Settleable(d) && e0 in d.assignments
    requires Due(w.router, d, managed, op) && op != DesiredChange(w.router.entries, e0) && Recorded(w, e0)
    ensures Recorded(ApplyOne(w, op).world, e0)
  {
    if RadiusDue(w.router.entries, d.assignments, op) {
      var e1 :| e1 in d.assignments && op == DesiredChange(w.router.entries, e1);
      if e1.address == e0.address {
        SameAddressSameEntry(d.assignments, e0, e1);
      }
      RecordedKeptByRadius(w, d, e1, e0);
    } else if RemovalDue(w.router.entries, Addresses(d.assignments), managed, op) {
      var gone :| gone in w.router.entries && Orphan(gone, Addresses(d.assignments), managed) && op == RemovalOf(gone);
      assert e0.address in Addresses(d.assignments);
      RecordedKeptByRemoval(w, d, gone, e0);
    } else {
      OtherTargetsKeepTheTable(w, op);
    }
  }

  lemma RadiusTargetsAreRadiusDue(s: RouterState, d: DesiredState, managed: set<string>, x: Operation)
    requires Due(s, d, managed, x) && x.target.RadiusAssignment?
    ensures RadiusDue(s.entries, d.assignments, x)
  {}

  lemma StillDue(w: World, d: DesiredState, managed: set<string>, op: Operation, e0: DesiredEntry)
    requires SoundRouter(w.router) && Settleable(d) && e0 in d.assignments
    requires Due(w.router, d, managed, op) && op != DesiredChange(w.router.entries, e0)
    requires DesiredChange(w.router.entries, e0).kind != OpNoop
    ensures DesiredChange(ApplyOne(w, op).world.router.entries, e0).kind != OpNoop
  {
    var mine := DesiredChange(w.router.entries, e0);
    var s' := ApplyOne(w, op).world.router;
    StepDischarges(w, d, managed, op, mine);
    RadiusTargetsAreRadiusDue(s', d, managed, mine);
    var e1 :| e1 in d.assignments && mine == DesiredChange(s'.entries, e1);
    assert mine.target.values.address == e0.address;
    assert mine.target.values.address == e1.address;
    SameAddressSameEntry(d.assignments, e0, e1);
  }

  lemma RecordedOrDueStep(w: World, d: DesiredState, managed: set<string>, rest: seq<Operation>, e0: DesiredEntry)
    requires SoundRouter(w.router) && Settleable(d) && e0 in d.assignments
    requires rest != [] && InSync(w.router, d, managed, rest)
    requires Recorded(w, e0) || DesiredChange(w.router.entries, e0).kind != OpNoop
    ensures var after := ApplyOne(w, rest[0]).world;
      Recorded(after, e0) || DesiredChange(after.router.entries, e0).kind != OpNoop
  {
    var op, mine := rest[0], DesiredChange(w.router.entries, e0);
    if op.kind != OpNoop {
      assert op in rest;
      if op == mine {
        RecordedByOwnStep(w, d, managed, e0);
      } else if mine.kind != OpNoop {
        StillDue(w, d, managed, op, e0);
      } else {
        RecordedKept(w, d, managed, op, e0);
      }
    }
  }

  lemma ServedAtEnd(w: World, d: DesiredState, managed: set<string>, ops: seq<Operation>, e0: DesiredEntry)
    requires SoundRouter(w.router) && Settleable(d) && e0 in d.assignments
    requires multiset(ops) == multiset(PlanOperations(w.router, d, managed))
    ensures DesiredChange(ApplyAll(w, ops).world.router.entries, e0).kind == OpNoop
  {
    Converges(w, d, managed, ops, managed);
    var s := ApplyAll(w, ops).world.router;
    InDesiredChanges(s.entries, d.assignments, DesiredChange(s.entries, e0));
    assert DesiredChange(s.entries, e0) in PlanOperations(s, d, managed);
  }

  lemma {:induction false} RecordedOrDue(
    w: World, d: DesiredState, managed: set<string>, ops: seq<Operation>, n: nat, e0: DesiredEntry)
    requires SoundRouter(w.router) && Settleable(d) && n <= |ops|
    requires multiset(ops) == multiset(PlanOperations(w.router, d, managed))
    requires e0 in d.assignments && DesiredChange(w.router.entries, e0).kind != OpNoop
    ensures var after := ApplyAll(w, ops[..n]).world;
      Recorded(after, e0) || DesiredChange(after.router.entries, e0).kind != OpNoop
  {
    if n > 0 {
      RecordedOrDue(w, d, managed, ops, n - 1, e0);
      var before, rest := AtPrefix(w, d, managed, ops, n - 1);
      RecordedOrDueStep(before, d, managed, rest, e0);
    }
  }

  /** Every desired entry that needed a write has its ownership record after the plan has run. */
  lemma {:induction false} WrittenEntriesAreRecorded(w: World, d: DesiredState, managed: set<string>,
                                                     ops: seq<Operation>,
                                  e0: DesiredEntry)
    requires SoundRouter(w.router) && Settleable(d)
    requires multiset(ops) == multiset(PlanOperations(w.router, d, managed))
    requires e0 in d.assignments && DesiredChange(w.router.entries, e0).kind != OpNoop
    ensures Recorded(ApplyAll(w, ops).world, e0)
  {
    assert ops[..|ops|] == ops;
    RecordedOrDue(w, d, managed, ops, |ops|, e0);
    ServedAtEnd(w, d, managed, ops, e0);
  }

  /* ---- ownership records of the entries removed ---- */

  /** An id that is still on the router with its address, or gone from the table and from the records; never again given
      to a new entry. */
  ghost predicate Departing(w: World, id: string, a: string) {
    && (forall k: nat | w.router.nextId <= k :: id != RemoteIdText(k))
    && ((exists e | e in w.router.entries :: e.remoteId == id && e.address == a)
        || (id !in w.objects && forall e | e in w.router.entries :: e.remoteId != id))
  }

  lemma DepartingAfterAdd(w: World, e0: DesiredEntry, id: string, a: string)
    requires SoundRouter(w.router) && Departing(w, id, a) && DesiredChange(w.router.entries, e0).kind == OpAdd
    ensures Departing(ApplyOne(w, DesiredChange(w.router.entries, e0)).world, id, a)
  {
    AddEffect(w, e0);
    var w' := ApplyOne(w, DesiredChange(w.router.entries, e0)).world;
    assert SameRecord(w.objects, w'.objects, id);
    assert w'.router.nextId == w.router.nextId + 1;
    assert forall e | e in w.router.entries :: e in w'.router.entries;
  }

  lemma DepartingAfterUpdate(w: World, e0: DesiredEntry, id: string, a: string)
    requires SoundRouter(w.router) && Departing(w, id, a) && e0.address != a
    requires DesiredChange(w.router.entries, e0).kind == OpUpdate
    ensures Departing(ApplyOne(w, DesiredChange(w.router.entries, e0)).world, id, a)
  {
    UpdateEffect(w, e0);
    var es, w' := w.router.entries, ApplyOne(w, DesiredChange(w.router.entries, e0)).world;
    var found := FindAddress(es, e0.address).value;
    var i := FirstWithId(es, found.remoteId);
    if e :| e in es && e.remoteId == id && e.address == a {
      var j :| 0 <= j < |es| && es[j] == e;
      assert w'.router.entries[j] == e;
    } else {
      assert SameRecord(w.objects, w'.objects, id);
    }
  }

  lemma DepartingAfterRemoval(w: World, gone: RadiusEntry, id: string, a: string)
    requires SoundRouter(w.router) && Departing(w, id, a) && gone in w.router.entries
    ensures Departing(ApplyOne(w, RemovalOf(gone)).world, id, a)
  {
    RemovalEffect(w, gone);
    var w' := ApplyOne(w, RemovalOf(gone)).world;
    if gone.remoteId != id {
      assert SameRecord(w.objects, w'.objects, id);
    }
  }

  lemma DepartingStep(w: World, d: DesiredState, managed: set<string>, rest: seq<Operation>, id: string, a: string)
    requires SoundRouter(w.router) && Departing(w, id, a) && a !in Addresses(d.assignments)
    requires rest != [] && InSync(w.router, d, managed, rest)
    ensures Departing(ApplyOne(w, rest[0]).world, id, a)
  {
    var op, es := rest[0], w.router.entries;
    if op.kind != OpNoop {
      assert op in rest;
      if RadiusDue(es, d.assignments, op) {
        var e0 :| e0 in d.assignments && op == DesiredChange(es, e0);
        assert e0.address in Addresses(d.assignments);
        if op.kind == OpAdd {
          DepartingAfterAdd(w, e0, id, a);
        } else {
          DepartingAfterUpdate(w, e0, id, a);
        }
      } else if RemovalDue(es, Addresses(d.assignments), managed, op) {
        var gone :| gone in es && Orphan(gone, Addresses(d.assignments), managed) && op == RemovalOf(gone);
        DepartingAfterRemoval(w, gone, id, a);
      } else {
        OtherTargetsKeepTheTable(w, op);
        OtherTargetsKeepTheCounter(w, op);
      }
    }
  }

  lemma OtherTargetsKeepTheCounter(w: World, op: Operation)
    requires !op.target.RadiusAssignment? && !op.target.RadiusRemoval?
    ensures ApplyOne(w, op).world.router.nextId == w.router.nextId
  {}

  lemma {:induction false} DepartingRun(
    w: World, d: DesiredState, managed: set<string>, ops: seq<Operation>, n: nat, id: string, a: string)
    requires SoundRouter(w.router) && Settleable(d) && n <= |ops|
    requires multiset(ops) == multiset(PlanOperations(w.router, d, managed))
    requires Departing(w, id, a) && a !in Addresses(d.assignments)
    ensures Departing(ApplyAll(w, ops[..n]).world, id, a)
  {
    if n > 0 {
      DepartingRun(w, d, managed, ops, n - 1, id, a);
      var before, rest := AtPrefix(w, d, managed, ops, n - 1);
      DepartingStep(before, d, managed, rest, id, a);
    }
  }

  /** Every managed entry nobody wants is gone after the plan, and so is its ownership row. */
  lemma RemovedEntriesAreForgotten(w: World, d: DesiredState, managed: set<string>, ops: seq<Operation>,
                                   gone: RadiusEntry)
    requires SoundRouter(w.router) && Settleable(d)
    requires multiset(ops) == multiset(PlanOperations(w.router, d, managed))
    requires gone in w.router.entries && gone.address in managed
    requires forall i | 0 <= i < |d.assignments| :: d.assignments[i].address != gone.address
    ensures var t := ApplyAll(w, ops).world;
      gone.remoteId !in t.objects && forall e | e in t.router.entries :: e.remoteId != gone.remoteId
  {
    assert ops[..|ops|] == ops;
    DepartingRun(w, d, managed, ops, |ops|, gone.remoteId, gone.address);
    Converges(w, d, managed, ops, managed);
    NoopsIffSettled(ApplyAll(w, ops).world.router, d, managed);
    var es := ApplyAll(w, ops).world.router.entries;
    forall e | e in es
      ensures e.address != gone.address
    {
      var k :| 0 <= k < |es| && es[k] == e;
    }
  }

  /* ---- apply, then verify ---- */

  /** The outcome of applying a fresh plan. */
  ghost function Applied(w: World, d: DesiredState, managed: set<string>): Outcome {
    ApplyAll(w, StableSort(PlanOperations(w.router, d, managed), Rank))
  }

  /** The hypotheses of convergence. */
  ghost predicate Convergent(s: RouterState, d: DesiredState, managed: set<string>, managedAfter: set<string>) {
    SoundRouter(s) && SoundDesired(d) && managedAfter <= managed + Addresses(d.assignments)
  }

  lemma AppliedConverges(w: World, d: DesiredState, managed: set<string>, managedAfter: set<string>,
                         caps: Capabilities, interimMax: int)
    requires Convergent(w.router, d, managed, managedAfter) && ValidDesired(d, caps, interimMax)
    ensures var after := Applied(w, d, managed);
      && after.error.None? && SoundRouter(after.world.router)
      && AllNoops(PlanOperations(after.world.router, d, managedAfter))
  {
    ValidIsSettleable(d, caps, interimMax);
    Converges(w, d, managed, StableSort(PlanOperations(w.router, d, managed), Rank), managedAfter);
  }

  /** Under the hypotheses of convergence there is no error and nothing left to differ. */
  ghost predicate Matches(after: Outcome, d: DesiredState, managedAfter: set<string>) {
    && after.error.None? && SoundRouter(after.world.router)
    && AllNoops(PlanOperations(after.world.router, d, managedAfter))
    && Differences(PlanOperations(after.world.router, d, managedAfter)) == []
  }

  lemma AppliedMatches(
    w: World, d: DesiredState, managed: set<string>, managedAfter: set<string>, caps: Capabilities, interimMax: int)
    requires ValidDesired(d, caps, interimMax)
    ensures Convergent(w.router, d, managed, managedAfter) ==> Matches(Applied(w, d, managed), d, managedAfter)
  {
    if Convergent(w.router, d, managed, managedAfter) {
      AppliedConverges(w, d, managed, managedAfter, caps, interimMax);
      NoDifferencesIff(PlanOperations(Applied(w, d, managed).world.router, d, managedAfter));
    }
  }

  /** Plan, apply and verify. `managed` and `managedAfter` are the addresses the backend manages before and after. */
  method ApplyNasConfiguration(
    router: FakeRouter, nas: NasRecord, d: DesiredState, managed: set<string>, managedAfter: set<string>,
    caps: Capabilities, interimMax: int)
    returns (valid: bool, error: Option<string>, matched: bool, differences: seq<Operation>)
    modifies router, nas
    ensures valid <==> ValidDesired(d, caps, interimMax)
    ensures !valid ==> WorldOf(router, nas) == old(WorldOf(router, nas)) && !matched
    ensures valid ==> Outcome(WorldOf(router, nas), error) == Applied(old(WorldOf(router, nas)), d, managed)
    ensures matched <==> valid && error.None? && RouterSettled(router.State(), d, managedAfter)
    ensures matched ==> AllNoops(PlanOperations(router.State(), d, managedAfter))
    ensures valid && Convergent(old(router.State()), d, managed, managedAfter)
            ==> error.None? && matched && differences == [] && nas.verified && SoundRouter(router.State())
  {
    error, matched, differences := None, false, [];
    var current := router.GetRelevantServiceState();
    var plan := ComputePlan(current, d, managed, caps, interimMax);
    valid := plan.errors == [];
    if !valid {
      return;
    }
    ghost var start := WorldOf(router, nas);
    error := ApplyOperations(router, nas, plan.operations);
    AppliedMatches(start, d, managed, managedAfter, caps, interimMax);
    if error.None? {
      matched, differences := VerifyNasConfiguration(router, nas, d, managedAfter, caps, interimMax);
      NoopsIffSettled(router.State(), d, managedAfter);
    }
  }
}
