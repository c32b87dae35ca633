/** Desired states that name one address more than once, which the request schema allows. The planner of
    services/aaa-service/app/nas_desired_state.py then plans one operation for each of the entries. */
module Duplicates {
  import opened Common
  import opened Router
  import opened Planner
  import opened Apply
  import opened Convergence

  /** What the planner compares, after defaults. */
  predicate AlikeWishes(a: DesiredEntry, b: DesiredEntry) {
    && a.address == b.address
    && multiset(a.services) == multiset(b.services)
    && OrDefault(a.authPort, 1812) == OrDefault(b.authPort, 1812)
    && OrDefault(a.accountingPort, 1813) == OrDefault(b.accountingPort, 1813)
    && OrDefault(a.timeout, 3000) == OrDefault(b.timeout, 3000)
    && OrNone(a.srcAddress) == OrNone(b.srcAddress)
  }

  /** Desired entries of one address ask for the same. */
  ghost predicate Consistent(ds: seq<DesiredEntry>) {
    forall a, b | a in ds && b in ds && a.address == b.address :: AlikeWishes(a, b)
  }

  predicate Served(es: seq<RadiusEntry>, d: DesiredEntry) {
    var found := FindAddress(es, d.address);
    found.Some? && EntryMatches(found.value, d)
  }

  lemma ServedIffNoop(es: seq<RadiusEntry>, d: DesiredEntry)
    ensures Served(es, d) <==> DesiredChange(es, d).kind == OpNoop
  {}

  lemma AlikeServed(es: seq<RadiusEntry>, a: DesiredEntry, b: DesiredEntry)
    requires a.address == b.address && Served(es, a)
    ensures Served(es, b) <==> AlikeWishes(a, b)
  {}

  /** How the entry of a desired address has fared since the plan was made on `es0`: it is the one found then, or it
      serves the wish; and an address that had no entry has none or one that serves the wish. */
  ghost predicate Fares(es0: seq<RadiusEntry>, es: seq<RadiusEntry>, d: DesiredEntry) {
    var before, now := FindAddress(es0, d.address), FindAddress(es, d.address);
    && (before.Some? ==> now.Some? && now.value.remoteId == before.value.remoteId)
    && (now.Some? ==> now == before || EntryMatches(now.value, d))
  }

  ghost predicate AllFare(es0: seq<RadiusEntry>, es: seq<RadiusEntry>, ds: seq<DesiredEntry>) {
    forall d | d in ds :: Fares(es0, es, d)
  }

  /** The entry of every address but one is what it was; that one now serves `x`. */
  ghost predicate ServesOne(es: seq<RadiusEntry>, after: seq<RadiusEntry>, x: DesiredEntry) {
    && Served(after, x)
    && (forall a | a != x.address :: FindAddress(after, a) == FindAddress(es, a))
    && var before, now := FindAddress(es, x.address), FindAddress(after, x.address);
       before.Some? ==> now.value.remoteId == before.value.remoteId
  }

  /** A planned addition: a second one for an address leaves the first entry in charge. */
  lemma AddServes(w: World, es0: seq<RadiusEntry>, x: DesiredEntry)
    requires SoundRouter(w.router) && SchemaEntry(x)
    requires FindAddress(es0, x.address).None? && Fares(es0, w.router.entries, x)
    ensures var o := ApplyOne(w, DesiredChange(es0, x));
      o.error.None? && SoundRouter(o.world.router) && ServesOne(w.router.entries, o.world.router.entries, x)
  {
    var es := w.router.entries;
    var created := CreatedEntry(RemoteIdText(w.router.nextId), ValuesOf(x));
    CreateKeepsSound(w.router, ValuesOf(x));
    CreatedMatches(created.remoteId, x);
    forall a {
      FindAfterAppend(es, created, a);
    }
  }

  /** A planned update writes the entry that was found, which is still the first of its address. */
  lemma UpdateServes(w: World, es0: seq<RadiusEntry>, x: DesiredEntry)
    requires SoundRouter(w.router) && Fares(es0, w.router.entries, x)
    requires DesiredChange(es0, x).kind == OpUpdate
    ensures var o := ApplyOne(w, DesiredChange(es0, x));
      o.error.None? && SoundRouter(o.world.router) && ServesOne(w.router.entries, o.world.router.entries, x)
  {
    var es := w.router.entries;
    var found := FindAddress(es, x.address).value;
    var i := FirstWithId(es, found.remoteId);
    SameIdSameEntry(es, es[i], found);
    var u := UpdatedEntry(found, ValuesOf(x));
    forall a {
      FindAfterUpdate(es, i, u, a);
    }
    UpdateKeepsSound(w.router, i, u);
  }

  lemma NoopServes(w: World, es0: seq<RadiusEntry>, x: DesiredEntry)
    requires SoundRouter(w.router) && Fares(es0, w.router.entries, x)
    requires DesiredChange(es0, x).kind == OpNoop
    ensures var o := ApplyOne(w, DesiredChange(es0, x));
      o.error.None? && SoundRouter(o.world.router) && ServesOne(w.router.entries, o.world.router.entries, x)
  {}

  lemma OperationServes(w: World, es0: seq<RadiusEntry>, x: DesiredEntry)
    requires SoundRouter(w.router) && SchemaEntry(x) && Fares(es0, w.router.entries, x)
    ensures var o := ApplyOne(w, DesiredChange(es0, x));
      o.error.None? && SoundRouter(o.world.router) && ServesOne(w.router.entries, o.world.router.entries, x)
  {
    match DesiredChange(es0, x).kind
    case OpAdd => AddServes(w, es0, x);
    case OpUpdate => UpdateServes(w, es0, x);
    case _ => NoopServes(w, es0, x);
  }

  lemma FareOn(es0: seq<RadiusEntry>, es: seq<RadiusEntry>, after: seq<RadiusEntry>, x: DesiredEntry, d: DesiredEntry)
    requires Fares(es0, es, d) && ServesOne(es, after, x)
    requires d.address == x.address ==> AlikeWishes(x, d)
    ensures Fares(es0, after, d) && (Served(es, d) || d == x ==> Served(after, d))
  {
    if d.address == x.address {
      AlikeServed(after, x, d);
    }
  }

  ghost predicate AllServed(es: seq<RadiusEntry>, ds: seq<DesiredEntry>) {
    forall d | d in ds :: Served(es, d)
  }

  /** The operation of one more desired entry. */
  lemma OneMoreServed(w: World, es0: seq<RadiusEntry>, ds: seq<DesiredEntry>, done: seq<DesiredEntry>, x: DesiredEntry)
    requires SoundRouter(w.router) && Consistent(ds) && x in ds && SchemaEntry(x)
    requires AllFare(es0, w.router.entries, ds) && AllServed(w.router.entries, done) && forall d | d in done :: d in ds
    ensures var o := ApplyOne(w, DesiredChange(es0, x));
      && o.error.None? && SoundRouter(o.world.router)
      && AllFare(es0, o.world.router.entries, ds) && AllServed(o.world.router.entries, done + [x])
  {
    assert Fares(es0, w.router.entries, x);
    OperationServes(w, es0, x);
    var after := ApplyOne(w, DesiredChange(es0, x)).world.router.entries;
    forall d | d in ds
      ensures Fares(es0, after, d) && (Served(w.router.entries, d) || d == x ==> Served(after, d))
    {
      assert Fares(es0, w.router.entries, d);
      FareOn(es0, w.router.entries, after, x, d);
    }
  }

  /** The planned operations of the first n desired entries serve these, and all fare well. */
  lemma {:induction false} PrefixServes(w: World, ds: seq<DesiredEntry>, n: nat)
    requires SoundRouter(w.router) && n <= |ds| && Consistent(ds) && forall d | d in ds :: SchemaEntry(d)
    ensures var o := ApplyAll(w, DesiredChanges(w.router.entries, ds[..n]));
      && o.error.None? && SoundRouter(o.world.router)
      && AllFare(w.router.entries, o.world.router.entries, ds)
      && AllServed(o.world.router.entries, ds[..n])
  {
    var es0 := w.router.entries;
    if n > 0 {
      var done, x := ds[..n - 1], ds[n - 1];
      PrefixServes(w, ds, n - 1);
      assert ds[..n] == done + [x];
      var front := DesiredChanges(es0, done);
      assert DesiredChanges(es0, ds[..n]) == front + [DesiredChange(es0, x)] by {
        assert ds[..n][..n - 1] == done;
      }
      OneMore(w, front, DesiredChange(es0, x));
      OneMoreServed(ApplyAll(w, front).world, es0, ds, done, x);
    }
  }

  lemma OneMore(w: World, ops: seq<Operation>, op: Operation)
    requires ApplyAll(w, ops).error.None?
    ensures ApplyAll(w, ops + [op]) == ApplyOne(ApplyAll(w, ops).world, op)
  {
    assert (ops + [op])[..|ops|] == ops;
  }

  /** On any table: a plan of no-ops means that desired entries of one address ask for the same. */
  lemma NoopsNeedConsistent(es: seq<RadiusEntry>, ds: seq<DesiredEntry>)
    requires AllNoops(DesiredChanges(es, ds))
    ensures Consistent(ds) && forall d | d in ds :: Served(es, d)
  {
    forall d | d in ds
      ensures Served(es, d)
    {
      InDesiredChanges(es, ds, DesiredChange(es, d));
    }
    forall a, b | a in ds && b in ds && a.address == b.address
      ensures AlikeWishes(a, b)
    {
      AlikeServed(es, a, b);
    }
  }

  /** With repeated addresses, running the planned operations of all desired entries settles the table, in the sense
      that the next plan has only no-ops for them, if and only if entries of one address ask for the same. */
  lemma SettlesIffConsistent(w: World, ds: seq<DesiredEntry>)
    requires SoundRouter(w.router) && forall d | d in ds :: SchemaEntry(d)
    ensures AllNoops(DesiredChanges(ApplyAll(w, DesiredChanges(w.router.entries, ds)).world.router.entries, ds))
      <==> Consistent(ds)
  {
    var after := ApplyAll(w, DesiredChanges(w.router.entries, ds)).world.router.entries;
    if Consistent(ds) {
      PrefixServes(w, ds, |ds|);
      assert ds[..|ds|] == ds;
      forall op | op in DesiredChanges(after, ds)
        ensures op.kind == OpNoop
      {
        InDesiredChanges(after, ds, op);
        var d :| d in ds && op == DesiredChange(after, d);
        assert Served(after, d);
      }
    } else if AllNoops(DesiredChanges(after, ds)) {
      NoopsNeedConsistent(after, ds);
      assert false;
    }
  }
}
