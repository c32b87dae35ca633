/** One application of a plan brings the router to the desired state. */
module Convergence {
  import opened Common
  import opened Text
  import opened Intervals
  import opened Router
  import opened Planner
  import opened Apply

  /* ---- hypotheses ---- */

  /** The service names the request schema admits. */
  const SCHEMA_SERVICES: set<string> := {"pppoe", "hotspot", "login", "wireless", "dot1x", "ipsec", "dhcp"}

  predicate Trimmed(s: string) {
    Strip(s) == s
  }

  ghost predicate UniqueIds(es: seq<RadiusEntry>) {
    forall i, j | 0 <= i < j < |es| :: es[i].remoteId != es[j].remoteId
  }

  /** Remote ids are unique and not yet to be handed out, hotspot names are unique, writes are accepted. */
  ghost predicate SoundRouter(s: RouterState) {
    && UniqueIds(s.entries)
    && (forall e, k: nat | e in s.entries && s.nextId <= k :: e.remoteId != RemoteIdText(k))
    && (forall i, j | 0 <= i < j < |s.hotspots| :: s.hotspots[i].name != s.hotspots[j].name)
    && s.incoming != []
    && s.commandError.None?
  }

  ghost predicate DistinctAddresses(ds: seq<DesiredEntry>) {
    forall i, j | 0 <= i < j < |ds| :: ds[i].address != ds[j].address
  }

  predicate SchemaEntry(d: DesiredEntry) {
    && Trimmed(d.address)
    && (d.srcAddress.Some? ==> Trimmed(d.srcAddress.value))
    && (forall i | 0 <= i < |d.services| :: d.services[i] in SCHEMA_SERVICES)
  }

  ghost predicate SoundDesired(d: DesiredState) {
    && DistinctAddresses(d.assignments)
    && (forall e | e in d.assignments :: SchemaEntry(e))
    && (d.pppAaa ==> d.accounting)
  }

  /** What the convergence proof uses of a valid desired state. */
  ghost predicate Settleable(d: DesiredState) {
    && SoundDesired(d)
    && (d.interimSeconds.Some? ==> d.interimSeconds.value >= 0)
    && (d.loginRadius ==> OrNone(d.userDefaultGroup).Some?)
  }

  lemma ValidIsSettleable(d: DesiredState, caps: Capabilities, interimMax: int)
    requires SoundDesired(d) && ValidDesired(d, caps, interimMax)
    ensures Settleable(d) && d.assignments != []
  {
    assert !Violates(IntervalOutOfBounds, d, caps, interimMax);
    assert !Violates(NoDefaultGroup, d, caps, interimMax);
    assert !Violates(NoAssignment, d, caps, interimMax);
  }

  /* ---- membership in a plan ---- */

  lemma {:induction false} InDesiredChanges(es: seq<RadiusEntry>, ds: seq<DesiredEntry>, x: Operation)
    ensures x in DesiredChanges(es, ds) <==> exists d | d in ds :: x == DesiredChange(es, d)
  {
    if ds != [] {
      var n := |ds| - 1;
      InDesiredChanges(es, ds[..n], x);
      assert ds == ds[..n] + [ds[n]];
    }
  }

  lemma {:induction false} InRemovals(es: seq<RadiusEntry>, desired: set<string>, managed: set<string>, x: Operation)
    ensures x in Removals(es, desired, managed) <==>
            exists e | e in es :: Orphan(e, desired, managed) && x == RemovalOf(e)
  {
    if es != [] {
      var n := |es| - 1;
      InRemovals(es[..n], desired, managed, x);
      assert es == es[..n] + [es[n]];
    }
  }

  lemma {:induction false} InHotspotChanges(ps: seq<HotspotProfile>, d: DesiredState, x: Operation)
    ensures x in HotspotChanges(ps, d) <==>
            exists p | p in ps :: Selected(d.hotspots, p.name) && x == HotspotChange(p, d)
  {
    if ps != [] {
      var n := |ps| - 1;
      InHotspotChanges(ps[..n], d, x);
      assert ps == ps[..n] + [ps[n]];
    }
  }

  ghost predicate RadiusDue(es: seq<RadiusEntry>, ds: seq<DesiredEntry>, x: Operation) {
    x.kind != OpNoop && exists d | d in ds :: x == DesiredChange(es, d)
  }

  ghost predicate RemovalDue(es: seq<RadiusEntry>, desired: set<string>, managed: set<string>, x: Operation) {
    exists e | e in es :: Orphan(e, desired, managed) && x == RemovalOf(e)
  }

  ghost predicate HotspotDue(ps: seq<HotspotProfile>, d: DesiredState, x: Operation) {
    x.kind != OpNoop && exists p | p in ps :: Selected(d.hotspots, p.name) && x == HotspotChange(p, d)
  }

  ghost predicate SettingDue(s: RouterState, d: DesiredState, x: Operation) {
    x.kind != OpNoop
      && (x in PppChanges(s.ppp, d) || x in UserChanges(s.user, d) || x in IncomingChanges(s.incoming, d))
  }

  /** An operation that is still to be done. */
  ghost predicate Due(s: RouterState, d: DesiredState, managed: set<string>, x: Operation) {
    || RadiusDue(s.entries, d.assignments, x)
    || RemovalDue(s.entries, Addresses(d.assignments), managed, x)
    || HotspotDue(s.hotspots, d, x)
    || SettingDue(s, d, x)
  }

  /** The planner plans exactly the operations that are due, beside no-ops. */
  lemma DueIffPlanned(s: RouterState, d: DesiredState, managed: set<string>, x: Operation)
    ensures Due(s, d, managed, x) <==> x.kind != OpNoop && x in PlanOperations(s, d, managed)
  {
    InDesiredChanges(s.entries, d.assignments, x);
    InRemovals(s.entries, Addresses(d.assignments), managed, x);
    InHotspotChanges(s.hotspots, d, x);
  }

  /* ---- the four writes on the table ---- */

  lemma {:induction false} SchemaServicesAreNormal(services: seq<string>)
    requires forall i | 0 <= i < |services| :: services[i] in SCHEMA_SERVICES
    ensures NormalizeServices(services) == services
  {
    if services != [] {
      StripKeeps(services[0]);
      SchemaServicesAreNormal(services[1..]);
    }
  }

  /** A created entry satisfies the planner exactly when normalization keeps the address, the services
      (up to order) and the source address. */
  lemma CreatedMatchesIff(id: string, d: DesiredEntry)
    ensures EntryMatches(CreatedEntry(id, ValuesOf(d)), d) <==>
      && Trimmed(d.address)
      && multiset(NormalizeServices(d.services)) == multiset(d.services)
      && OrNone(NormalizeOptional(d.srcAddress)) == OrNone(d.srcAddress)
  {}

  lemma CreatedMatches(id: string, d: DesiredEntry)
    requires SchemaEntry(d)
    ensures EntryMatches(CreatedEntry(id, ValuesOf(d)), d)
  {
    SchemaServicesAreNormal(d.services);
    CreatedMatchesIff(id, d);
  }

  lemma {:induction false} FindAfterAppend(es: seq<RadiusEntry>, e: RadiusEntry, a: string)
    ensures FindAddress(es + [e], a) ==
            if FindAddress(es, a).Some? then FindAddress(es, a) else if e.address == a then Some(e) else None
  {
    if es == [] {
      assert es + [e] == [e];
    } else {
      assert (es + [e])[1..] == es[1..] + [e];
      FindAfterAppend(es[1..], e, a);
    }
  }

  lemma {:induction false} FindAfterRemoval(es: seq<RadiusEntry>, id: string, a: string)
    requires forall e | e in es && e.remoteId == id :: e.address != a
    ensures FindAddress(WithoutId(es, id), a) == FindAddress(es, a)
  {
    if es != [] {
      FindAfterRemoval(es[1..], id, a);
      assert es[0] in es;
    }
  }

  /** Overwriting the first entry of an address with one of the same address. */
  lemma {:induction false} FindAfterUpdate(es: seq<RadiusEntry>, i: nat, u: RadiusEntry, a: string)
    requires i < |es| && u.address == es[i].address
    requires FindAddress(es, es[i].address) == Some(es[i])
    requires forall j | 0 <= j < i :: es[j].remoteId != es[i].remoteId
    ensures FindAddress(es[i := u], a) == if a == u.address then Some(u) else FindAddress(es, a)
  {
    if i > 0 {
      assert es[i := u][1..] == es[1..][i - 1 := u];
      assert es[1..][i - 1] == es[i];
      assert es[0].remoteId != es[i].remoteId;
      FindAfterUpdate(es[1..], i - 1, u, a);
    } else {
      assert es[0 := u][1..] == es[1..];
    }
  }

  /* ---- one due operation leaves exactly the other due operations ---- */

  /** The table after a write serves `e0` and serves the other desired entries as before. */
  lemma RadiusDischarged(es: seq<RadiusEntry>, es': seq<RadiusEntry>, ds: seq<DesiredEntry>, e0: DesiredEntry,
                         x: Operation)
    requires DistinctAddresses(ds) && e0 in ds
    requires DesiredChange(es', e0).kind == OpNoop
    requires forall e | e in ds && e.address != e0.address :: DesiredChange(es', e) == DesiredChange(es, e)
    ensures RadiusDue(es', ds, x) <==> RadiusDue(es, ds, x) && x != DesiredChange(es, e0)
  {
    forall e | e in ds && e != e0
      ensures e.address != e0.address && DesiredChange(es, e) != DesiredChange(es, e0)
    {
      var i, j :| 0 <= i < |ds| && 0 <= j < |ds| && ds[i] == e && ds[j] == e0;
      assert i < j || j < i;
      assert DesiredChange(es, e).target.values.address == e.address;
      assert DesiredChange(es, e0).target.values.address == e0.address;
    }
  }

  /** The state after a due operation: no error, the hypotheses still hold, and for any operation `x`,
      it is due afterwards exactly when it was due and is another one. */
  ghost predicate Discharges(w: World, d: DesiredState, managed: set<string>, op: Operation, x: Operation) {
    var after := ApplyOne(w, op);
    && after.error.None?
    && SoundRouter(after.world.router)
    && (Due(after.world.router, d, managed, x) <==> Due(w.router, d, managed, x) && x != op)
  }

  lemma CreateKeepsSound(s: RouterState, v: RadiusValues)
    requires SoundRouter(s)
    ensures Create(s, v).error.None? && SoundRouter(Create(s, v).state)
  {
    var id := RemoteIdText(s.nextId);
    forall k: nat | s.nextId < k
      ensures id != RemoteIdText(k)
    {
      if id == RemoteIdText(k) {
        assert id[1..] == RemoteIdText(k)[1..];
        DigitsInjective(s.nextId, k);
      }
    }
  }

  lemma RemovalsAfterAppend(es: seq<RadiusEntry>, c: RadiusEntry, desired: set<string>, managed: set<string>,
                            x: Operation)
    requires c.address in desired
    ensures RemovalDue(es + [c], desired, managed, x) <==> RemovalDue(es, desired, managed, x)
  {}

  lemma AddDischarges(w: World, d: DesiredState, managed: set<string>, e0: DesiredEntry, x: Operation)
    requires SoundRouter(w.router) && Settleable(d)
    requires e0 in d.assignments && DesiredChange(w.router.entries, e0).kind == OpAdd
    ensures Discharges(w, d, managed, DesiredChange(w.router.entries, e0), x)
  {
    var es, op := w.router.entries, DesiredChange(w.router.entries, e0);
    CreateKeepsSound(w.router, ValuesOf(e0));
    var s' := Create(w.router, ValuesOf(e0)).state;
    var c := CreatedEntry(RemoteIdText(w.router.nextId), ValuesOf(e0));
    CreatedMatches(c.remoteId, e0);
    forall e | e in d.assignments {
      FindAfterAppend(es, c, e.address);
    }
    RadiusDischarged(es, es + [c], d.assignments, e0, x);
    RemovalsAfterAppend(es, c, Addresses(d.assignments), managed, x);
  }

  lemma UpdateKeepsSound(s: RouterState, i: nat, u: RadiusEntry)
    requires SoundRouter(s) && i < |s.entries| && u.remoteId == s.entries[i].remoteId
    ensures SoundRouter(s.(entries := s.entries[i := u]))
  {}

  /** A planned update writes the entry that was found, and no other. */
  lemma UpdateOutcome(w: World, e0: DesiredEntry)
    requires SoundRouter(w.router) && DesiredChange(w.router.entries, e0).kind == OpUpdate
    ensures var es := w.router.entries; var found := FindAddress(es, e0.address).value;
      var i := FirstWithId(es, found.remoteId); var after := ApplyOne(w, DesiredChange(es, e0));
      && i < |es| && es[i] == found && after.error.None?
      && after.world.router == w.router.(entries := es[i := UpdatedEntry(found, ValuesOf(e0))])
  {
    var found := FindAddress(w.router.entries, e0.address).value;
    SameIdSameEntry(w.router.entries, w.router.entries[FirstWithId(w.router.entries, found.remoteId)], found);
  }

  lemma UpdateDischarges(w: World, d: DesiredState, managed: set<string>, e0: DesiredEntry, x: Operation)
    requires SoundRouter(w.router) && Settleable(d)
    requires e0 in d.assignments && DesiredChange(w.router.entries, e0).kind == OpUpdate
    ensures Discharges(w, d, managed, DesiredChange(w.router.entries, e0), x)
  {
    var es := w.router.entries;
    var found := FindAddress(es, e0.address).value;
    var i := FirstWithId(es, found.remoteId);
    UpdateOutcome(w, e0);
    var u := UpdatedEntry(found, ValuesOf(e0));
    forall e | e in d.assignments {
      FindAfterUpdate(es, i, u, e.address);
    }
    RadiusDischarged(es, es[i := u], d.assignments, e0, x);
    RemovalsAfterUpdate(es, i, u, Addresses(d.assignments), managed, x);
    UpdateKeepsSound(w.router, i, u);
  }

  lemma RemovalsAfterUpdate(es: seq<RadiusEntry>, i: nat, u: RadiusEntry, desired: set<string>, managed: set<string>,
                            x: Operation)
    requires i < |es| && es[i].address in desired && u.address in desired
    ensures RemovalDue(es[i := u], desired, managed, x) <==> RemovalDue(es, desired, managed, x)
  {
    forall e | Orphan(e, desired, managed)
      ensures e in es[i := u] <==> e in es
    {
      if e in es {
        var j :| 0 <= j < |es| && es[j] == e;
        assert es[i := u][j] == e;
      }
    }
  }

  lemma {:induction false} WithoutIdKeepsUnique(es: seq<RadiusEntry>, id: string)
    requires UniqueIds(es)
    ensures UniqueIds(WithoutId(es, id))
  {
    if es != [] {
      WithoutIdKeepsUnique(es[1..], id);
      var rest := WithoutId(es[1..], id);
      forall j | 0 <= j < |rest|
        ensures rest[j].remoteId != es[0].remoteId
      {
        assert rest[j] in es[1..];
      }
    }
  }

  lemma SameIdSameEntry(es: seq<RadiusEntry>, a: RadiusEntry, b: RadiusEntry)
    requires UniqueIds(es) && a in es && b in es && a.remoteId == b.remoteId
    ensures a == b
  {}

  lemma RemovalsAfterRemoval(s: RouterState, gone: RadiusEntry, desired: set<string>, managed: set<string>,
                             x: Operation)
    requires SoundRouter(s) && gone in s.entries && Orphan(gone, desired, managed)
    ensures RemovalDue(WithoutId(s.entries, gone.remoteId), desired, managed, x)
            <==> RemovalDue(s.entries, desired, managed, x) && x != RemovalOf(gone)
  {
    if RemovalDue(s.entries, desired, managed, x) && x != RemovalOf(gone) {
      var e :| e in s.entries && Orphan(e, desired, managed) && x == RemovalOf(e);
      if e.remoteId == gone.remoteId {
        SameIdSameEntry(s.entries, e, gone);
      }
      assert e in WithoutId(s.entries, gone.remoteId);
    }
  }

  lemma RemovalDischarges(w: World, d: DesiredState, managed: set<string>, gone: RadiusEntry, x: Operation)
    requires SoundRouter(w.router)
    requires gone in w.router.entries && Orphan(gone, Addresses(d.assignments), managed)
    ensures Discharges(w, d, managed, RemovalOf(gone), x)
  {
    var es := w.router.entries;
    var s' := ApplyOne(w, RemovalOf(gone)).world.router;
    assert s'.entries == WithoutId(es, gone.remoteId);
    WithoutIdKeepsUnique(es, gone.remoteId);
    forall e | e in es && e.remoteId == gone.remoteId {
      SameIdSameEntry(w.router.entries, e, gone);
    }
    forall e | e in d.assignments
      ensures DesiredChange(s'.entries, e) == DesiredChange(es, e)
    {
      FindAfterRemoval(es, gone.remoteId, e.address);
    }
    RemovalsAfterRemoval(w.router, gone, Addresses(d.assignments), managed, x);
    assert RadiusDue(s'.entries, d.assignments, x) <==> RadiusDue(es, d.assignments, x);
  }

  /** A profile is replaced by one of the same name. */
  lemma ProfileReplaced(ps: seq<HotspotProfile>, i: nat, q: HotspotProfile)
    requires i < |ps| && q.name == ps[i].name
    requires forall j, k | 0 <= j < k < |ps| :: ps[j].name != ps[k].name
    ensures var rs := ps[i := q]; forall j, k | 0 <= j < k < |rs| :: rs[j].name != rs[k].name
    ensures q in ps[i := q]
    ensures forall y: HotspotProfile | y.name != q.name :: y in ps[i := q] <==> y in ps
    ensures forall y: HotspotProfile | y.name == q.name :: (y in ps[i := q] <==> y == q) && (y in ps <==> y == ps[i])
  {
    var rs := ps[i := q];
    assert rs[i] == q;
    forall y: HotspotProfile | y.name != q.name
      ensures y in rs <==> y in ps
    {
      if y in ps {
        var j :| 0 <= j < |ps| && ps[j] == y;
        assert rs[j] == y;
      }
    }
    forall y: HotspotProfile | y.name == q.name && y in ps
      ensures y == ps[i]
    {
      var j :| 0 <= j < |ps| && ps[j] == y;
      assert i == j || i < j || j < i;
    }
  }

  lemma HotspotDischarges(w: World, d: DesiredState, managed: set<string>, p: HotspotProfile, x: Operation)
    requires SoundRouter(w.router)
    requires p in w.router.hotspots && Selected(d.hotspots, p.name) && HotspotChange(p, d).kind == OpUpdate
    ensures Discharges(w, d, managed, HotspotChange(p, d), x)
  {
    var ps := w.router.hotspots;
    var s' := ApplyOne(w, HotspotChange(p, d)).world.router;
    var i := FirstProfile(ps, p.name);
    assert ps[i] == p;
    var q := ConfiguredProfile(p, WantedHotspot(d, p.name));
    assert s' == w.router.(hotspots := ps[i := q]);
    assert HotspotChange(q, d).kind == OpNoop;
    ProfileReplaced(ps, i, q);
    HotspotReplaced(ps, ps[i := q], d, p, q, x);
  }

  lemma HotspotReplaced(
    ps: seq<HotspotProfile>, rs: seq<HotspotProfile>, d: DesiredState, p: HotspotProfile, q: HotspotProfile,
    x: Operation)
    requires q.name == p.name && HotspotChange(p, d).kind == OpUpdate && HotspotChange(q, d).kind == OpNoop
    requires Selected(d.hotspots, p.name) && p in ps
    requires forall y: HotspotProfile | y.name != q.name :: y in rs <==> y in ps
    requires forall y: HotspotProfile | y.name == q.name :: (y in rs <==> y == q) && (y in ps <==> y == p)
    ensures HotspotDue(rs, d, x) <==> HotspotDue(ps, d, x) && x != HotspotChange(p, d)
  {
    assert forall y: HotspotProfile :: HotspotChange(y, d).target.profile == y.name;
  }

  /** The PPP area settles in one update exactly when accounting is wanted. */
  lemma PppSettlesIff(p: PppAaa, d: DesiredState)
    requires d.pppAaa && (d.interimSeconds.Some? ==> d.interimSeconds.value >= 0)
    ensures AllNoops(PppChanges(ConfiguredPpp(p, WantedPpp(d)), d)) <==> d.accounting
  {
    var changes := PppChanges(ConfiguredPpp(p, WantedPpp(d)), d);
    assert changes[0] in changes;
    if d.interimSeconds.Some? {
      RoundTrip(d.interimSeconds.value);
    }
  }

  lemma SettingDischarges(w: World, d: DesiredState, managed: set<string>, op: Operation, x: Operation)
    requires SoundRouter(w.router) && Settleable(d) && SettingDue(w.router, d, op)
    ensures Discharges(w, d, managed, op, x)
  {
    var s' := ApplyOne(w, op).world.router;
    if op in PppChanges(w.router.ppp, d) {
      PppSettlesIff(w.router.ppp, d);
      assert PppChanges(s'.ppp, d)[0] in PppChanges(s'.ppp, d);
    }
  }

  lemma StepDischarges(w: World, d: DesiredState, managed: set<string>, op: Operation, x: Operation)
    requires SoundRouter(w.router) && Settleable(d) && Due(w.router, d, managed, op)
    ensures Discharges(w, d, managed, op, x)
  {
    if RadiusDue(w.router.entries, d.assignments, op) {
      var e0 :| e0 in d.assignments && op == DesiredChange(w.router.entries, e0);
      if op.kind == OpAdd {
        AddDischarges(w, d, managed, e0, x);
      } else {
        UpdateDischarges(w, d, managed, e0, x);
      }
    } else if RemovalDue(w.router.entries, Addresses(d.assignments), managed, op) {
      var gone :| gone in w.router.entries && Orphan(gone, Addresses(d.assignments), managed) && op == RemovalOf(gone);
      RemovalDischarges(w, d, managed, gone, x);
    } else if HotspotDue(w.router.hotspots, d, op) {
      var p :| p in w.router.hotspots && Selected(d.hotspots, p.name) && op == HotspotChange(p, d);
      HotspotDischarges(w, d, managed, p, x);
    } else {
      SettingDischarges(w, d, managed, op, x);
    }
  }

  /* ---- a planned operation occurs once ---- */

  lemma {:induction false} DesiredChangesOnce(es: seq<RadiusEntry>, ds: seq<DesiredEntry>, x: Operation)
    requires DistinctAddresses(ds)
    ensures multiset(DesiredChanges(es, ds))[x] <= 1
  {
    if ds != [] {
      var n := |ds| - 1;
      DesiredChangesOnce(es, ds[..n], x);
      InDesiredChanges(es, ds[..n], x);
      forall d | d in ds[..n]
        ensures DesiredChange(es, d) != DesiredChange(es, ds[n])
      {
        assert DesiredChange(es, d).target.values.address == d.address;
        assert DesiredChange(es, ds[n]).target.values.address == ds[n].address;
      }
    }
  }

  lemma {:induction false} RemovalsOnce(es: seq<RadiusEntry>, desired: set<string>, managed: set<string>, x: Operation)
    requires UniqueIds(es)
    ensures multiset(Removals(es, desired, managed))[x] <= 1
  {
    if es != [] {
      var n := |es| - 1;
      RemovalsOnce(es[..n], desired, managed, x);
      InRemovals(es[..n], desired, managed, x);
    }
  }

  lemma {:induction false} HotspotChangesOnce(ps: seq<HotspotProfile>, d: DesiredState, x: Operation)
    requires forall i, j | 0 <= i < j < |ps| :: ps[i].name != ps[j].name
    ensures multiset(HotspotChanges(ps, d))[x] <= 1
  {
    if ps != [] {
      var n := |ps| - 1;
      HotspotChangesOnce(ps[..n], d, x);
      InHotspotChanges(ps[..n], d, x);
    }
  }

  /** The settings part of a plan: at most one operation for each of three targets. */
  lemma SettingsOnce(s: RouterState, d: DesiredState, x: Operation)
    ensures var settings := PppChanges(s.ppp, d) + UserChanges(s.user, d) + IncomingChanges(s.incoming, d);
      && multiset(settings)[x] <= 1
      && (x in settings ==> x.target.PppTarget? || x.target.UserTarget? || x.target.IncomingTarget?)
  {}

  lemma TargetsByArea(s: RouterState, d: DesiredState, managed: set<string>, x: Operation)
    ensures x in DesiredChanges(s.entries, d.assignments) ==> x.target.RadiusAssignment?
    ensures x in Removals(s.entries, Addresses(d.assignments), managed) ==> x.target.RadiusRemoval?
    ensures x in HotspotChanges(s.hotspots, d) ==> x.target.HotspotTarget?
  {
    InDesiredChanges(s.entries, d.assignments, x);
    InRemovals(s.entries, Addresses(d.assignments), managed, x);
    InHotspotChanges(s.hotspots, d, x);
  }

  lemma Regroup<T>(a: seq<T>, b: seq<T>, p: seq<T>, u: seq<T>, h: seq<T>, i: seq<T>, x: T)
    ensures multiset(a + b + p + u + h + i)[x]
      == multiset(a)[x] + multiset(b)[x] + multiset(h)[x] + multiset(p + u + i)[x]
  {}

  lemma PlannedOnce(s: RouterState, d: DesiredState, managed: set<string>, x: Operation)
    requires SoundRouter(s) && DistinctAddresses(d.assignments)
    ensures multiset(PlanOperations(s, d, managed))[x] <= 1
  {
    var desired := Addresses(d.assignments);
    DesiredChangesOnce(s.entries, d.assignments, x);
    RemovalsOnce(s.entries, desired, managed, x);
    HotspotChangesOnce(s.hotspots, d, x);
    SettingsOnce(s, d, x);
    TargetsByArea(s, d, managed, x);
    Regroup(DesiredChanges(s.entries, d.assignments), Removals(s.entries, desired, managed), PppChanges(s.ppp, d),
            UserChanges(s.user, d), HotspotChanges(s.hotspots, d), IncomingChanges(s.incoming, d), x);
  }

  lemma EqualTwiceCountsTwo<T>(xs: seq<T>, i: nat, j: nat)
    requires i < j < |xs| && xs[i] == xs[j]
    ensures multiset(xs)[xs[i]] >= 2
  {
    assert xs == xs[..j] + xs[j..];
    assert xs[i] == xs[..j][i] && xs[j] == xs[j..][0];
  }

  /* ---- running a plan in any order ---- */

  /** The remaining operations are the operations due now, each listed once. */
  ghost predicate InSync(s: RouterState, d: DesiredState, managed: set<string>, rest: seq<Operation>) {
    && (forall x: Operation | x.kind != OpNoop :: x in rest <==> Due(s, d, managed, x))
    && (forall i, j | 0 <= i < j < |rest| :: rest[i] == rest[j] ==> rest[i].kind == OpNoop)
  }

  lemma PlanInSync(s: RouterState, d: DesiredState, managed: set<string>, ops: seq<Operation>)
    requires SoundRouter(s) && DistinctAddresses(d.assignments)
    requires multiset(ops) == multiset(PlanOperations(s, d, managed))
    ensures InSync(s, d, managed, ops)
  {
    forall x: Operation | x.kind != OpNoop
      ensures x in ops <==> Due(s, d, managed, x)
    {
      assert x in ops <==> x in multiset(ops);
      DueIffPlanned(s, d, managed, x);
    }
    forall i, j | 0 <= i < j < |ops|
      ensures ops[i] != ops[j]
    {
      if ops[i] == ops[j] {
        EqualTwiceCountsTwo(ops, i, j);
        PlannedOnce(s, d, managed, ops[i]);
      }
    }
  }

  lemma InSyncStep(w: World, d: DesiredState, managed: set<string>, rest: seq<Operation>)
    requires SoundRouter(w.router) && Settleable(d)
    requires rest != [] && InSync(w.router, d, managed, rest)
    ensures var after := ApplyOne(w, rest[0]);
      && after.error.None? && SoundRouter(after.world.router)
      && InSync(after.world.router, d, managed, rest[1..])
  {
    var op := rest[0];
    assert rest == [op] + rest[1..];
    if op.kind != OpNoop {
      StepDischarges(w, d, managed, op, op);
      forall x: Operation | x.kind != OpNoop
        ensures x in rest[1..] <==> Due(ApplyOne(w, op).world.router, d, managed, x)
      {
        StepDischarges(w, d, managed, op, x);
        forall j | 0 <= j < |rest[1..]|
          ensures rest[1..][j] != op
        {
          assert rest[1..][j] == rest[j + 1];
        }
      }
    }
  }

  /** After any number of operations of a plan, run in any order: no error so far, and what remains is
      exactly the plan for the state reached. */
  lemma {:induction false} RunInSync(w: World, d: DesiredState, managed: set<string>, ops: seq<Operation>, n: nat)
    requires SoundRouter(w.router) && Settleable(d) && InSync(w.router, d, managed, ops) && n <= |ops|
    ensures var after := ApplyAll(w, ops[..n]);
      && after.error.None? && SoundRouter(after.world.router)
      && InSync(after.world.router, d, managed, ops[n..])
  {
    if n > 0 {
      RunInSync(w, d, managed, ops, n - 1);
      assert ops[..n][..n - 1] == ops[..n - 1];
      assert ops[n - 1..][1..] == ops[n..];
      InSyncStep(ApplyAll(w, ops[..n - 1]).world, d, managed, ops[n - 1..]);
    } else {
      assert ops[0..] == ops;
    }
  }

  /** Convergence: running a plan once, in any order, makes the next plan all no-ops, also when the addresses
      desired now count as managed by then. */
  lemma Converges(w: World, d: DesiredState, managed: set<string>, ops: seq<Operation>, managedAfter: set<string>)
    requires SoundRouter(w.router) && Settleable(d)
    requires multiset(ops) == multiset(PlanOperations(w.router, d, managed))
    requires managedAfter <= managed + Addresses(d.assignments)
    ensures var after := ApplyAll(w, ops);
      && after.error.None? && SoundRouter(after.world.router)
      && AllNoops(PlanOperations(after.world.router, d, managedAfter))
  {
    PlanInSync(w.router, d, managed, ops);
    RunInSync(w, d, managed, ops, |ops|);
    assert ops[..|ops|] == ops;
    var s := ApplyAll(w, ops).world.router;
    forall x | x in PlanOperations(s, d, managedAfter)
      ensures x.kind == OpNoop
    {
      DueIffPlanned(s, d, managedAfter, x);
      assert x.kind != OpNoop ==> !Due(s, d, managed, x);
    }
  }
}
