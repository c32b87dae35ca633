/** What a plan means for the fields of a router: services/aaa-service/app/nas_desired_state.py read against the state
    the router is to reach. Nothing here speaks through the planner's own functions of an area. */
module Settled {
  import opened Common
  import opened Router
  import opened Planner
  import opened Apply
  import opened Convergence

  /** The first entry of a wanted address has the wanted values, after defaults. */
  ghost predicate EntryServes(es: seq<RadiusEntry>, d: DesiredEntry) {
    exists i | 0 <= i < |es| ::
      && es[i].address == d.address && (forall k | 0 <= k < i :: es[k].address != d.address)
      && multiset(es[i].service) == multiset(d.services)
      && OrDefault(es[i].authPort, 1812) == OrDefault(d.authPort, 1812)
      && OrDefault(es[i].accountingPort, 1813) == OrDefault(d.accountingPort, 1813)
      && OrDefault(es[i].timeout, 3000) == OrDefault(d.timeout, 3000)
      && OrNone(es[i].srcAddress) == OrNone(d.srcAddress)
  }

  /** Every wanted address is served, and no managed address is left that nobody wants. */
  ghost predicate TableSettled(es: seq<RadiusEntry>, ds: seq<DesiredEntry>, managed: set<string>) {
    && (forall i | 0 <= i < |ds| :: EntryServes(es, ds[i]))
    && (forall k | 0 <= k < |es| && es[k].address in managed ::
        exists i | 0 <= i < |ds| :: ds[i].address == es[k].address)
  }

  ghost predicate PppSettled(p: PppAaa, d: DesiredState) {
    d.pppAaa ==>
      && p.useRadius && p.accounting
      && (d.interimSeconds in {None, Some(0)} || PppInterimSeconds(p) == d.interimSeconds)
  }

  ghost predicate UserSettled(u: UserAaa, d: DesiredState) {
    d.loginRadius ==> u.useRadius && u.defaultGroup == d.userDefaultGroup
  }

  ghost predicate ProfileSettled(p: HotspotProfile, d: DesiredState) {
    (exists i | 0 <= i < |d.hotspots| :: d.hotspots[i].name == p.name) ==> p.useRadius && p.radiusAccounting
  }

  ghost predicate IncomingSettled(rows: seq<Incoming>, d: DesiredState) {
    d.incomingCoa ==> rows != [] && rows[0].accept
  }

  ghost predicate RouterSettled(s: RouterState, d: DesiredState, managed: set<string>) {
    && TableSettled(s.entries, d.assignments, managed)
    && PppSettled(s.ppp, d) && UserSettled(s.user, d)
    && (forall i | 0 <= i < |s.hotspots| :: ProfileSettled(s.hotspots[i], d))
    && IncomingSettled(s.incoming, d)
  }

  /* ---- what the planner plans for each area ---- */

  ghost predicate Plans(s: RouterState, d: DesiredState, managed: set<string>, op: Operation) {
    op in PlanOperations(s, d, managed)
  }

  lemma {:induction false} FindIsFirst(es: seq<RadiusEntry>, a: string) returns (i: nat)
    requires FindAddress(es, a).Some?
    ensures i < |es| && es[i] == FindAddress(es, a).value && forall k | 0 <= k < i :: es[k].address != a
  {
    if es[0].address == a {
      i := 0;
    } else {
      i := FindIsFirst(es[1..], a);
      i := i + 1;
    }
  }

  lemma ServesIffNoop(es: seq<RadiusEntry>, d: DesiredEntry)
    ensures EntryServes(es, d) <==> DesiredChange(es, d).kind == OpNoop
  {
    if FindAddress(es, d.address).Some? {
      var i := FindIsFirst(es, d.address);
      assert forall k | 0 <= k < |es| && es[k].address == d.address :: i <= k;
    }
  }

  /** A wanted address that is not served has its addition or update in the plan: an addition without an entry of the
      address, an update of the first entry otherwise, with the wanted values. */
  lemma UnservedIsPlanned(s: RouterState, d: DesiredState, managed: set<string>, a: DesiredEntry)
    requires a in d.assignments && !EntryServes(s.entries, a)
    ensures exists id: Option<string> ::
      && Plans(s, d, managed,
            Operation(if id.None? then OpAdd else OpUpdate,
                      RadiusAssignment(a.assignmentId, id,
                                       RadiusValues(a.address, a.services, a.authPort, a.accountingPort,
                                                                        a.timeout, a.srcAddress))))
      && (id.None? <==> forall k | 0 <= k < |s.entries| :: s.entries[k].address != a.address)
      && (id.Some? ==> exists i | 0 <= i < |s.entries| ::
            && s.entries[i].remoteId == id.value && s.entries[i].address == a.address
            && forall k | 0 <= k < i :: s.entries[k].address != a.address)
  {
    var op := DesiredChange(s.entries, a);
    ServesIffNoop(s.entries, a);
    InDesiredChanges(s.entries, d.assignments, op);
    assert Plans(s, d, managed, op);
    if FindAddress(s.entries, a.address).Some? {
      var i := FindIsFirst(s.entries, a.address);
    }
    assert op.target.remoteId.None? <==> forall k | 0 <= k < |s.entries| :: s.entries[k].address != a.address;
  }

  /** A managed address nobody wants has the removal of each of its entries in the plan. */
  lemma UnwantedIsRemoved(s: RouterState, d: DesiredState, managed: set<string>, k: nat)
    requires k < |s.entries| && s.entries[k].address in managed
    requires forall i | 0 <= i < |d.assignments| :: d.assignments[i].address != s.entries[k].address
    ensures Plans(s, d, managed, Operation(OpRemove, RadiusRemoval(s.entries[k].remoteId, s.entries[k].address)))
  {
    InRemovals(s.entries, Addresses(d.assignments), managed, RemovalOf(s.entries[k]));
    assert s.entries[k] in s.entries;
  }

  /** The plan for RADIUS has nothing but no-ops exactly when the table is settled. */
  lemma TableNoopsIff(s: RouterState, d: DesiredState, managed: set<string>)
    ensures AllNoops(DesiredChanges(s.entries, d.assignments) + Removals(s.entries, Addresses(d.assignments), managed))
       <==> TableSettled(s.entries, d.assignments, managed)
  {
    var changes, removals :=
      DesiredChanges(s.entries, d.assignments), Removals(s.entries, Addresses(d.assignments), managed);
    DesiredNoopsIff(s.entries, d.assignments);
    NoRemovalsIff(s.entries, d.assignments, managed);
    NoopsOfParts(changes, removals);
    NoRemovalIsNoop(s.entries, Addresses(d.assignments), managed);
  }

  lemma NoRemovalIsNoop(es: seq<RadiusEntry>, desired: set<string>, managed: set<string>)
    ensures AllNoops(Removals(es, desired, managed)) <==> Removals(es, desired, managed) == []
  {
    var removals := Removals(es, desired, managed);
    if removals != [] {
      InRemovals(es, desired, managed, removals[0]);
      assert removals[0] in removals && removals[0].kind != OpNoop;
    }
  }

  lemma {:induction false} DesiredNoopsIff(es: seq<RadiusEntry>, ds: seq<DesiredEntry>)
    ensures AllNoops(DesiredChanges(es, ds)) <==> forall i | 0 <= i < |ds| :: EntryServes(es, ds[i])
  {
    forall i | 0 <= i < |ds|
      ensures DesiredChange(es, ds[i]) in DesiredChanges(es, ds)
      ensures EntryServes(es, ds[i]) <==> DesiredChange(es, ds[i]).kind == OpNoop
    {
      InDesiredChanges(es, ds, DesiredChange(es, ds[i]));
      ServesIffNoop(es, ds[i]);
    }
    forall op | op in DesiredChanges(es, ds)
      ensures exists i | 0 <= i < |ds| :: op == DesiredChange(es, ds[i])
    {
      InDesiredChanges(es, ds, op);
    }
  }

  lemma NoRemovalsIff(es: seq<RadiusEntry>, ds: seq<DesiredEntry>, managed: set<string>)
    ensures Removals(es, Addresses(ds), managed) == [] <==>
      forall k | 0 <= k < |es| && es[k].address in managed :: exists i | 0 <= i < |ds| :: ds[i].address == es[k].address
  {
    var removals := Removals(es, Addresses(ds), managed);
    forall k | 0 <= k < |es|
      ensures Orphan(es[k], Addresses(ds), managed) ==> RemovalOf(es[k]) in removals
    {
      InRemovals(es, Addresses(ds), managed, RemovalOf(es[k]));
    }
    if removals != [] {
      InRemovals(es, Addresses(ds), managed, removals[0]);
      var e :| e in es && Orphan(e, Addresses(ds), managed);
      var k :| 0 <= k < |es| && es[k] == e;
    }
  }

  /** Each settings area: its update is in the plan, with the wanted values, exactly when the router differs. */
  lemma SettingsPlannedIff(s: RouterState, d: DesiredState, managed: set<string>)
    ensures Plans(s, d, managed, Operation(OpUpdate, PppTarget(PppSettings(true, d.accounting, d.interimSeconds))))
       <==> !PppSettled(s.ppp, d)
    ensures Plans(s, d, managed,
                  Operation(OpUpdate,
                            UserTarget(UserAaa(true, d.userAccounting, d.userDefaultGroup, d.userExcludedGroups))))
       <==> !UserSettled(s.user, d)
    ensures Plans(s, d, managed, Operation(OpUpdate, IncomingTarget(IncomingSettings(true, d.coaPort, false))))
       <==> !IncomingSettled(s.incoming, d)
  {
    forall op
      ensures Plans(s, d, managed, op) && (op.target.PppTarget? || op.target.UserTarget? || op.target.IncomingTarget?)
              ==> op in PppChanges(s.ppp, d) || op in UserChanges(s.user, d) || op in IncomingChanges(s.incoming, d)
    {
      TargetsByArea(s, d, managed, op);
    }
  }

  /** The last wish with this name. */
  predicate LastWish(wishes: seq<HotspotWish>, name: string, j: nat)
    requires j < |wishes|
  {
    wishes[j].name == name && forall k | j < k < |wishes| :: wishes[k].name != name
  }

  lemma {:induction false} LocationIsLast(wishes: seq<HotspotWish>, name: string) returns (m: nat)
    requires Selected(wishes, name)
    ensures m < |wishes| && LastWish(wishes, name, m) && LocationOf(wishes, name) == wishes[m].locationName
  {
    m := |wishes| - 1;
    if wishes[m].name != name {
      var front := wishes[..m];
      assert forall k | 0 <= k < m :: front[k] == wishes[k];
      assert Selected(front, name);
      m := LocationIsLast(front, name);
    }
  }

  /** A profile on the wish list without both flags has its update in the plan, to the location of its last wish. */
  lemma ProfilePlannedIff(s: RouterState, d: DesiredState, managed: set<string>, i: nat)
    requires i < |s.hotspots|
    ensures !ProfileSettled(s.hotspots[i], d) ==>
      exists j | 0 <= j < |d.hotspots| && LastWish(d.hotspots, s.hotspots[i].name, j) ::
        Plans(s, d, managed, Operation(OpUpdate, HotspotTarget(s.hotspots[i].name,
          HotspotSettings(true, true, d.interimSeconds, d.hotspots[j].locationName))))
  {
    var p := s.hotspots[i];
    InHotspotChanges(s.hotspots, d, HotspotChange(p, d));
    if !ProfileSettled(p, d) {
      assert Selected(d.hotspots, p.name) && p in s.hotspots;
      var j := LocationIsLast(d.hotspots, p.name);
      assert Plans(s, d, managed, HotspotChange(p, d));
    }
  }

  lemma HotspotNoopsIff(ps: seq<HotspotProfile>, d: DesiredState)
    ensures AllNoops(HotspotChanges(ps, d)) <==> forall i | 0 <= i < |ps| :: ProfileSettled(ps[i], d)
  {
    forall i | 0 <= i < |ps| && Selected(d.hotspots, ps[i].name)
      ensures HotspotChange(ps[i], d) in HotspotChanges(ps, d)
    {
      InHotspotChanges(ps, d, HotspotChange(ps[i], d));
    }
    forall op | op in HotspotChanges(ps, d)
      ensures exists i | 0 <= i < |ps| :: Selected(d.hotspots, ps[i].name) && op == HotspotChange(ps[i], d)
    {
      InHotspotChanges(ps, d, op);
    }
  }

  lemma SettingNoopsIff(s: RouterState, d: DesiredState)
    ensures AllNoops(PppChanges(s.ppp, d)) <==> PppSettled(s.ppp, d)
    ensures AllNoops(UserChanges(s.user, d)) <==> UserSettled(s.user, d)
    ensures AllNoops(IncomingChanges(s.incoming, d)) <==> IncomingSettled(s.incoming, d)
  {
    var ppp, user, incoming := PppChanges(s.ppp, d), UserChanges(s.user, d), IncomingChanges(s.incoming, d);
    assert ppp != [] ==> ppp[0] in ppp;
    assert user != [] ==> user[0] in user;
    assert incoming != [] ==> incoming[0] in incoming;
  }

  lemma NoopsOfParts(a: seq<Operation>, b: seq<Operation>)
    ensures AllNoops(a + b) <==> AllNoops(a) && AllNoops(b)
  {
    assert forall op :: op in a + b <==> op in a || op in b;
  }

  /** A plan of no-ops means that the router has what is wanted, area by area, and conversely. */
  lemma NoopsIffSettled(s: RouterState, d: DesiredState, managed: set<string>)
    ensures AllNoops(PlanOperations(s, d, managed)) <==> RouterSettled(s, d, managed)
  {
    var radius := DesiredChanges(s.entries, d.assignments) + Removals(s.entries, Addresses(d.assignments), managed);
    NoopsOfParts(radius, PppChanges(s.ppp, d));
    NoopsOfParts(radius + PppChanges(s.ppp, d), UserChanges(s.user, d));
    NoopsOfParts(radius + PppChanges(s.ppp, d) + UserChanges(s.user, d), HotspotChanges(s.hotspots, d));
    NoopsOfParts(radius + PppChanges(s.ppp, d) + UserChanges(s.user, d) + HotspotChanges(s.hotspots, d),
                 IncomingChanges(s.incoming, d));
    TableNoopsIff(s, d, managed);
    SettingNoopsIff(s, d);
    HotspotNoopsIff(s.hotspots, d);
  }

  /* ---- what the settings hold after a plan ---- */

  /** The settings after a list of operations that ran without an error, given the one write planned for each. */
  ghost predicate OneWrite(ops: seq<Operation>, d: DesiredState) {
    forall op | op in ops && op.kind == OpUpdate ::
      && (op.target.PppTarget? ==> op.target.ppp == PppSettings(true, d.accounting, d.interimSeconds))
      && (op.target.UserTarget? ==>
            op.target.user == UserAaa(true, d.userAccounting, d.userDefaultGroup, d.userExcludedGroups))
      && (op.target.IncomingTarget? ==> op.target.incoming == IncomingSettings(true, d.coaPort, false))
  }

  predicate Writes(op: Operation, area: Area) {
    op.kind == OpUpdate && match area
      case Ppp => op.target.PppTarget?
      case User => op.target.UserTarget?
      case IncomingRow => op.target.IncomingTarget?
  }

  datatype Area = Ppp | User | IncomingRow

  predicate Written(ops: seq<Operation>, area: Area) {
    exists i | 0 <= i < |ops| :: Writes(ops[i], area)
  }

  /** The PPP row: written, it has both flags as wanted, the wanted interval when there is one, and its profile. */
  ghost predicate PppHolds(before: PppAaa, after: PppAaa, d: DesiredState, written: bool) {
    if !written then after == before
    else
      && after.useRadius && after.accounting == d.accounting && after.defaultProfile == before.defaultProfile
      && (d.interimSeconds.None? ==> after.interimUpdate == before.interimUpdate)
      && (d.interimSeconds.Some? && d.interimSeconds.value >= 0 ==> PppInterimSeconds(after) == d.interimSeconds)
  }

  /** The user row: written, it has the wanted accounting and excluded groups, and the wanted group if there is one. */
  ghost predicate UserHolds(before: UserAaa, after: UserAaa, d: DesiredState, written: bool) {
    if !written then after == before
    else
      && after.useRadius && after.accounting == d.userAccounting && after.excludedGroups == d.userExcludedGroups
      && after.defaultGroup == if d.userDefaultGroup in {None, Some("")} then before.defaultGroup
         else d.userDefaultGroup
  }

  /** The incoming rows: written, the first accepts on the wanted port and is not disabled; the rest is as before. */
  ghost predicate IncomingHolds(before: seq<Incoming>, after: seq<Incoming>, d: DesiredState, written: bool) {
    if !written then after == before
    else
      && |after| == |before| > 0 && after[1..] == before[1..]
      && after[0].accept && after[0].port == d.coaPort && !after[0].disabled && after[0].address == before[0].address
  }

  lemma StepWrites(w: World, op: Operation, d: DesiredState)
    requires OneWrite([op], d) && ApplyOne(w, op).error.None?
    ensures var s, t := w.router, ApplyOne(w, op).world.router;
      && PppHolds(s.ppp, t.ppp, d, Writes(op, Ppp))
      && UserHolds(s.user, t.user, d, Writes(op, User))
      && IncomingHolds(s.incoming, t.incoming, d, Writes(op, IncomingRow))
  {
    assert op in [op];
    PppWriteMeans(w.router.ppp, PppSettings(true, d.accounting, d.interimSeconds));
  }

  lemma HoldsOn(s: RouterState, t: RouterState, u: RouterState, d: DesiredState, area: Area, first: bool, second: bool)
    ensures PppHolds(s.ppp, t.ppp, d, first) && PppHolds(t.ppp, u.ppp, d, second)
            ==> PppHolds(s.ppp, u.ppp, d, first || second)
    ensures UserHolds(s.user, t.user, d, first) && UserHolds(t.user, u.user, d, second)
            ==> UserHolds(s.user, u.user, d, first || second)
    ensures IncomingHolds(s.incoming, t.incoming, d, first) && IncomingHolds(t.incoming, u.incoming, d, second)
            ==> IncomingHolds(s.incoming, u.incoming, d, first || second)
  {}

  lemma {:induction false} RunWrites(w: World, ops: seq<Operation>, d: DesiredState)
    requires OneWrite(ops, d) && ApplyAll(w, ops).error.None?
    ensures var s, t := w.router, ApplyAll(w, ops).world.router;
      && PppHolds(s.ppp, t.ppp, d, Written(ops, Ppp))
      && UserHolds(s.user, t.user, d, Written(ops, User))
      && IncomingHolds(s.incoming, t.incoming, d, Written(ops, IncomingRow))
  {
    if ops != [] {
      var n := |ops| - 1;
      var front, op := ops[..n], ops[n];
      assert ops == front + [op];
      RunWrites(w, front, d);
      var before := ApplyAll(w, front).world;
      StepWrites(before, op, d);
      forall area
        ensures Written(ops, area) == (Written(front, area) || Writes(op, area))
      {
        assert forall i | 0 <= i < n :: front[i] == ops[i];
        assert ops[n] == op;
      }
      var s, t, u := w.router, before.router, ApplyAll(w, ops).world.router;
      HoldsOn(s, t, u, d, Ppp, Written(front, Ppp), Writes(op, Ppp));
      HoldsOn(s, t, u, d, User, Written(front, User), Writes(op, User));
      HoldsOn(s, t, u, d, IncomingRow, Written(front, IncomingRow), Writes(op, IncomingRow));
    }
  }

  /** The only updates a plan has for the three rows. */
  lemma SettingUpdateIs(s: RouterState, d: DesiredState, managed: set<string>, op: Operation)
    requires Plans(s, d, managed, op) && op.kind == OpUpdate
    ensures op.target.PppTarget? ==>
      op.target.ppp == PppSettings(true, d.accounting, d.interimSeconds) && !PppSettled(s.ppp, d)
    ensures op.target.UserTarget? ==>
      && op.target.user == UserAaa(true, d.userAccounting, d.userDefaultGroup, d.userExcludedGroups)
      && !UserSettled(s.user, d)
    ensures op.target.IncomingTarget? ==>
      op.target.incoming == IncomingSettings(true, d.coaPort, false) && !IncomingSettled(s.incoming, d)
  {
    TargetsByArea(s, d, managed, op);
    SettingNoopsIff(s, d);
    if op.target.PppTarget? || op.target.UserTarget? || op.target.IncomingTarget? {
      assert op in PppChanges(s.ppp, d) || op in UserChanges(s.user, d) || op in IncomingChanges(s.incoming, d);
    }
  }

  lemma SameMembers(ops: seq<Operation>, plan: seq<Operation>)
    requires multiset(ops) == multiset(plan)
    ensures forall op :: op in ops <==> op in plan
  {
    forall op
      ensures op in ops <==> op in plan
    {
      assert op in ops <==> op in multiset(ops);
      assert op in plan <==> op in multiset(plan);
    }
  }

  lemma WrittenIff(ops: seq<Operation>, area: Area)
    ensures Written(ops, area) <==> exists op :: op in ops && Writes(op, area)
  {
    if op :| op in ops && Writes(op, area) {
      var i :| 0 <= i < |ops| && ops[i] == op;
    }
    if i :| 0 <= i < |ops| && Writes(ops[i], area) {
      assert ops[i] in ops;
    }
  }

  lemma PlanWritesOnce(s: RouterState, d: DesiredState, managed: set<string>, ops: seq<Operation>)
    requires multiset(ops) == multiset(PlanOperations(s, d, managed))
    ensures OneWrite(ops, d)
    ensures Written(ops, Ppp) <==> !PppSettled(s.ppp, d)
    ensures Written(ops, User) <==> !UserSettled(s.user, d)
    ensures Written(ops, IncomingRow) <==> !IncomingSettled(s.incoming, d)
  {
    SettingsPlannedIff(s, d, managed);
    SameMembers(ops, PlanOperations(s, d, managed));
    WrittenIff(ops, Ppp);
    WrittenIff(ops, User);
    WrittenIff(ops, IncomingRow);
    forall op | op in ops && op.kind == OpUpdate {
      SettingUpdateIs(s, d, managed, op);
    }
    var ppp := Operation(OpUpdate, PppTarget(PppSettings(true, d.accounting, d.interimSeconds)));
    var user :=
      Operation(OpUpdate, UserTarget(UserAaa(true, d.userAccounting, d.userDefaultGroup, d.userExcludedGroups)));
    var incoming := Operation(OpUpdate, IncomingTarget(IncomingSettings(true, d.coaPort, false)));
    assert Writes(ppp, Ppp) && Writes(user, User) && Writes(incoming, IncomingRow);
  }

  /** After a plan has run in any order without an error: each settings row that differed has been written as wanted,
      and each that did not is as it was. */
  lemma SettingsAfterPlan(w: World, d: DesiredState, managed: set<string>, ops: seq<Operation>)
    requires multiset(ops) == multiset(PlanOperations(w.router, d, managed)) && ApplyAll(w, ops).error.None?
    ensures var s, t := w.router, ApplyAll(w, ops).world.router;
      && PppHolds(s.ppp, t.ppp, d, !PppSettled(s.ppp, d))
      && UserHolds(s.user, t.user, d, !UserSettled(s.user, d))
      && IncomingHolds(s.incoming, t.incoming, d, !IncomingSettled(s.incoming, d))
  {
    PlanWritesOnce(w.router, d, managed, ops);
    RunWrites(w, ops, d);
  }

  /* ---- hotspot profiles nobody wished for ---- */

  ghost predicate OnlyWished(ops: seq<Operation>, d: DesiredState) {
    forall op | op in ops && op.target.HotspotTarget? :: Wished(d, op.target.profile)
  }

  ghost predicate Wished(d: DesiredState, name: string) {
    exists i | 0 <= i < |d.hotspots| :: d.hotspots[i].name == name
  }

  ghost predicate UnwishedKept(before: seq<HotspotProfile>, after: seq<HotspotProfile>, d: DesiredState) {
    && |after| == |before|
    && forall i | 0 <= i < |before| ::
         && after[i].name == before[i].name && after[i].remoteId == before[i].remoteId
         && after[i].locationName == before[i].locationName
         && (!Wished(d, before[i].name) ==> after[i] == before[i])
  }

  lemma HotspotStepKeeps(w: World, op: Operation, d: DesiredState)
    requires OnlyWished([op], d)
    ensures UnwishedKept(w.router.hotspots, ApplyOne(w, op).world.router.hotspots, d)
  {
    assert op in [op];
    if op.kind == OpUpdate && op.target.HotspotTarget? {
      HotspotWriteMeans(w.router, op.target.profile, op.target.hotspot);
    }
  }

  lemma {:induction false} HotspotRunKeeps(w: World, ops: seq<Operation>, d: DesiredState)
    requires OnlyWished(ops, d)
    ensures UnwishedKept(w.router.hotspots, ApplyAll(w, ops).world.router.hotspots, d)
  {
    if ops != [] {
      var front, op := ops[..|ops| - 1], ops[|ops| - 1];
      assert ops == front + [op];
      HotspotRunKeeps(w, front, d);
      HotspotStepKeeps(ApplyAll(w, front).world, op, d);
    }
  }

  /** A plan leaves every hotspot profile nobody wished for as it is. */
  lemma UnwishedProfilesStay(w: World, d: DesiredState, managed: set<string>, ops: seq<Operation>)
    requires multiset(ops) == multiset(PlanOperations(w.router, d, managed))
    ensures UnwishedKept(w.router.hotspots, ApplyAll(w, ops).world.router.hotspots, d)
  {
    SameMembers(ops, PlanOperations(w.router, d, managed));
    forall op | op in ops && op.target.HotspotTarget?
      ensures Wished(d, op.target.profile)
    {
      HotspotOpsAreWished(w.router, d, managed, op);
    }
    HotspotRunKeeps(w, ops, d);
  }

  lemma HotspotOpsAreWished(s: RouterState, d: DesiredState, managed: set<string>, op: Operation)
    requires Plans(s, d, managed, op) && op.target.HotspotTarget?
    ensures Wished(d, op.target.profile)
  {
    TargetsByArea(s, d, managed, op);
    assert op in HotspotChanges(s.hotspots, d);
    InHotspotChanges(s.hotspots, d, op);
  }
}
