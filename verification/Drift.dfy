/** Drift detection: services/aaa-service/app/nas_drift.py, and its agreement with the planner. */
module Drift {
  import opened Common
  import opened Router
  import opened Planner
  import opened Apply
  import opened Convergence
  import opened Settled

  datatype Field = Address | ServiceList | AuthenticationPort | AccountingPort | Timeout | SrcAddress

  datatype Item =
    | NoCurrentState
    | MissingRadiusEntry(assignmentId: string)
    | RadiusEntryDiffers(field: Field, assignmentId: string)
    | RemoteObjectRemoved(address: string)
    | UnknownExternalEntry(address: string)
    | PppAaaChanged
    | UserAaaChanged
    | HotspotRadiusChanged(name: string)
    | IncomingCoaDisabled

  datatype Severity = NoDrift | Safe | Warning | Critical | UnknownDrift

  /** The severity each kind of item is reported with. */
  function SeverityOf(item: Item): Severity {
    match item
    case NoCurrentState => UnknownDrift
    case MissingRadiusEntry(_) => Critical
    case UserAaaChanged => Critical
    case UnknownExternalEntry(_) => Safe
    case _ => Warning
  }

  predicate Differs(f: Field, e: RadiusEntry, d: DesiredEntry) {
    match f
    case Address => e.address != d.address
    case ServiceList => multiset(e.service) != multiset(d.services)
    case AuthenticationPort => OrDefault(e.authPort, 1812) != OrDefault(d.authPort, 1812)
    case AccountingPort => OrDefault(e.accountingPort, 1813) != OrDefault(d.accountingPort, 1813)
    case Timeout => OrDefault(e.timeout, 3000) != OrDefault(d.timeout, 3000)
    case SrcAddress => OrNone(e.srcAddress) != OrNone(d.srcAddress)
  }

  method RadiusFieldsMatch(e: RadiusEntry, d: DesiredEntry) returns (differences: seq<Field>)
    ensures forall f :: f in differences <==> Differs(f, e, d)
    ensures differences == [] <==> EntryMatches(e, d)
  {
    differences := [];
    if e.address != d.address {
      differences := differences + [Address];
    }
    if multiset(e.service) != multiset(d.services) {
      differences := differences + [ServiceList];
    }
    if OrDefault(e.authPort, 1812) != OrDefault(d.authPort, 1812) {
      differences := differences + [AuthenticationPort];
    }
    if OrDefault(e.accountingPort, 1813) != OrDefault(d.accountingPort, 1813) {
      differences := differences + [AccountingPort];
    }
    if OrDefault(e.timeout, 3000) != OrDefault(d.timeout, 3000) {
      differences := differences + [Timeout];
    }
    if OrNone(e.srcAddress) != OrNone(d.srcAddress) {
      differences := differences + [SrcAddress];
    }
  }

  /** The last entry of each address, as a dictionary built in table order keeps it. */
  function LastByAddress(es: seq<RadiusEntry>): map<string, RadiusEntry> {
    if es == [] then map[]
    else LastByAddress(es[..|es| - 1])[es[|es| - 1].address := es[|es| - 1]]
  }

  method IndexByAddress(es: seq<RadiusEntry>) returns (index: map<string, RadiusEntry>)
    ensures index == LastByAddress(es)
  {
    index := map[];
    for n := 0 to |es|
      invariant index == LastByAddress(es[..n])
    {
      assert es[..n + 1][..n] == es[..n];
      index := index[es[n].address := es[n]];
    }
    assert es[..|es|] == es;
  }

  function FindProfile(ps: seq<HotspotProfile>, name: string): Option<HotspotProfile> {
    if ps == [] then None else if ps[0].name == name then Some(ps[0]) else FindProfile(ps[1..], name)
  }

  predicate HotspotDrifted(ps: seq<HotspotProfile>, name: string) {
    var p := FindProfile(ps, name);
    p.None? || !p.value.useRadius
  }

  /** What each item reports about a router state. */
  ghost predicate Drifted(item: Item, s: RouterState, d: DesiredState, managed: set<string>) {
    var index, desired := LastByAddress(s.entries), Addresses(d.assignments);
    match item
    case NoCurrentState => false
    case MissingRadiusEntry(id) => exists a | a in d.assignments :: a.assignmentId == id && a.address !in index
    case RadiusEntryDiffers(f, id) =>
      exists a | a in d.assignments :: a.assignmentId == id && a.address in index && Differs(f, index[a.address], a)
    case RemoteObjectRemoved(a) => a in managed && a !in index && a !in desired
    case UnknownExternalEntry(a) => a in index && a !in desired && a !in managed
    case PppAaaChanged => d.pppAaa && !(s.ppp.useRadius && s.ppp.accounting)
    case UserAaaChanged => d.loginRadius && !s.user.useRadius
    case HotspotRadiusChanged(name) => Selected(d.hotspots, name) && HotspotDrifted(s.hotspots, name)
    case IncomingCoaDisabled => d.incomingCoa && !(s.incoming != [] && s.incoming[0].accept)
  }

  method OneAssignmentDrift(index: map<string, RadiusEntry>, a: DesiredEntry) returns (items: seq<Item>)
    ensures forall item :: item in items <==> AssignmentDrifted(item, index, a)
  {
    if a.address !in index {
      return [MissingRadiusEntry(a.assignmentId)];
    }
    var differences := RadiusFieldsMatch(index[a.address], a);
    items := [];
    for k := 0 to |differences|
      invariant forall item :: item in items <==>
        item.RadiusEntryDiffers? && item.assignmentId == a.assignmentId && item.field in differences[..k]
    {
      items := items + [RadiusEntryDiffers(differences[k], a.assignmentId)];
    }
  }

  method AssignmentDrift(index: map<string, RadiusEntry>, ds: seq<DesiredEntry>) returns (items: seq<Item>)
    ensures forall item :: item in items <==> exists a | a in ds :: AssignmentDrifted(item, index, a)
  {
    items := [];
    for n := 0 to |ds|
      invariant forall item :: item in items <==> exists a | a in ds[..n] :: AssignmentDrifted(item, index, a)
    {
      assert ds[..n + 1] == ds[..n] + [ds[n]];
      var more := OneAssignmentDrift(index, ds[n]);
      items := items + more;
    }
    assert ds[..|ds|] == ds;
  }

  ghost predicate AssignmentDrifted(item: Item, index: map<string, RadiusEntry>, a: DesiredEntry) {
    || (item == MissingRadiusEntry(a.assignmentId) && a.address !in index)
    || (item.RadiusEntryDiffers? && item.assignmentId == a.assignmentId && a.address in index
        && Differs(item.field, index[a.address], a))
  }

  method RemovedObjects(index: map<string, RadiusEntry>, desired: set<string>, managed: set<string>)
    returns (items: seq<Item>)
    ensures forall item :: item in items <==>
      item.RemoteObjectRemoved? && item.address in managed && item.address !in index && item.address !in desired
  {
    items := [];
    var pending := managed;
    while pending != {}
      invariant pending <= managed
      invariant forall item :: item in items <==> item.RemoteObjectRemoved? && item.address in managed - pending
                                                  && item.address !in index && item.address !in desired
    {
      var a :| a in pending;
      pending := pending - {a};
      if a !in index && a !in desired {
        items := items + [RemoteObjectRemoved(a)];
      }
    }
  }

  method ExternalEntries(index: map<string, RadiusEntry>, desired: set<string>, managed: set<string>)
    returns (items: seq<Item>)
    ensures forall item :: item in items <==>
      item.UnknownExternalEntry? && item.address in index && item.address !in desired && item.address !in managed
  {
    items := [];
    var pending := index.Keys;
    while pending != {}
      invariant pending <= index.Keys
      invariant forall item :: item in items <==> item.UnknownExternalEntry? && item.address in index.Keys - pending
                                                  && item.address !in desired && item.address !in managed
    {
      var a :| a in pending;
      pending := pending - {a};
      if a !in desired && a !in managed {
        items := items + [UnknownExternalEntry(a)];
      }
    }
  }

  method HotspotDrift(ps: seq<HotspotProfile>, wishes: seq<HotspotWish>) returns (items: seq<Item>)
    ensures forall item :: item in items <==>
      item.HotspotRadiusChanged? && Selected(wishes, item.name) && HotspotDrifted(ps, item.name)
  {
    items := [];
    for n := 0 to |wishes|
      invariant forall item :: item in items <==>
        item.HotspotRadiusChanged? && Selected(wishes[..n], item.name) && HotspotDrifted(ps, item.name)
    {
      if HotspotDrifted(ps, wishes[n].name) {
        items := items + [HotspotRadiusChanged(wishes[n].name)];
      }
    }
    assert wishes[..|wishes|] == wishes;
  }

  /** The worst severity among the items. */
  ghost predicate Classifies(classification: Severity, items: seq<Item>) {
    && (classification == Critical <==> exists item | item in items :: SeverityOf(item) == Critical)
    && (classification == Warning <==> (exists item | item in items :: SeverityOf(item) == Warning)
                                       && (forall item | item in items :: SeverityOf(item) != Critical))
    && (classification == NoDrift <==> items == [])
    && (classification == Safe <==> (exists item | item in items :: SeverityOf(item) == Safe)
                                    && (forall item | item in items :: SeverityOf(item) in {Safe, UnknownDrift}))
    && (classification == UnknownDrift
        <==> items != [] && forall item | item in items :: SeverityOf(item) == UnknownDrift)
  }

  lemma SeverityKinds(items: seq<Item>)
    ensures forall item | item in items :: SeverityOf(item) in {Critical, Warning, Safe, UnknownDrift}
  {}

  method Classify(items: seq<Item>) returns (classification: Severity)
    ensures Classifies(classification, items)
  {
    var severities := set item | item in items :: SeverityOf(item);
    forall s
      ensures s in severities <==> exists item | item in items :: SeverityOf(item) == s
    {}
    SeverityKinds(items);
    if Critical in severities {
      classification := Critical;
    } else if Warning in severities {
      classification := Warning;
    } else if Safe in severities {
      classification := Safe;
    } else if items == [] {
      classification := NoDrift;
    } else {
      assert SeverityOf(items[0]) in severities;
      classification := UnknownDrift;
    }
    if items != [] {
      assert items[0] in items;
    }
  }

  /** Items about the RADIUS table. */
  predicate EntryItem(item: Item) {
    item.MissingRadiusEntry? || item.RadiusEntryDiffers? || item.RemoteObjectRemoved? || item.UnknownExternalEntry?
  }

  method EntryDrift(s: RouterState, d: DesiredState, managed: set<string>) returns (items: seq<Item>)
    ensures forall item :: item in items <==> EntryItem(item) && Drifted(item, s, d, managed)
  {
    var desired := Addresses(d.assignments);
    var index := IndexByAddress(s.entries);
    items := AssignmentDrift(index, d.assignments);
    var removed := RemovedObjects(index, desired, managed);
    items := items + removed;
    var external := ExternalEntries(index, desired, managed);
    items := items + external;
  }

  method SettingDrift(s: RouterState, d: DesiredState) returns (items: seq<Item>)
    ensures forall item :: item in items <==> !EntryItem(item) && Drifted(item, s, d, {})
  {
    items := [];
    if d.pppAaa && !(s.ppp.useRadius && s.ppp.accounting) {
      items := items + [PppAaaChanged];
    }
    if d.loginRadius && !s.user.useRadius {
      items := items + [UserAaaChanged];
    }
    var hotspots := HotspotDrift(s.hotspots, d.hotspots);
    items := items + hotspots;
    if d.incomingCoa && !(s.incoming != [] && s.incoming[0].accept) {
      items := items + [IncomingCoaDisabled];
    }
  }

  method DetectDrift(current: Option<RouterState>, d: DesiredState, managed: set<string>)
    returns (classification: Severity, items: seq<Item>)
    ensures current.None? ==> items == [NoCurrentState] && classification == UnknownDrift
    ensures current.Some? ==> forall item :: item in items <==> Drifted(item, current.value, d, managed)
    ensures current.Some? ==> Classifies(classification, items)
  {
    if current.None? {
      return UnknownDrift, [NoCurrentState];
    }
    items := EntryDrift(current.value, d, managed);
    var settings := SettingDrift(current.value, d);
    items := items + settings;
    classification := Classify(items);
  }

  /* ---- agreement with the planner ---- */

  ghost predicate UniqueAddresses(es: seq<RadiusEntry>) {
    forall i, j | 0 <= i < j < |es| :: es[i].address != es[j].address
  }

  lemma {:induction false} IndexedAddresses(es: seq<RadiusEntry>, a: string)
    ensures a in LastByAddress(es) <==> exists i :: 0 <= i < |es| && es[i].address == a
  {
    if es != [] {
      var n := |es| - 1;
      IndexedAddresses(es[..n], a);
      if i :| 0 <= i < |es| && es[i].address == a && i < n {
        assert es[..n][i].address == a;
      }
    }
  }

  lemma {:induction false} LastByAddressAt(es: seq<RadiusEntry>, i: nat)
    requires i < |es| && forall j | i < j < |es| :: es[j].address != es[i].address
    ensures es[i].address in LastByAddress(es) && LastByAddress(es)[es[i].address] == es[i]
  {
    var n := |es| - 1;
    if i < n {
      LastByAddressAt(es[..n], i);
    }
  }

  /** Under unique addresses the dictionary finds what the linear scan finds. */
  lemma IndexIsScan(es: seq<RadiusEntry>, a: string)
    requires UniqueAddresses(es)
    ensures FindAddress(es, a) == if a in LastByAddress(es) then Some(LastByAddress(es)[a]) else None
  {
    IndexedAddresses(es, a);
    if i :| 0 <= i < |es| && es[i].address == a {
      LastByAddressAt(es, i);
      FindAddressAt(es, i);
    }
  }

  /** A reported difference of a RADIUS entry, or a missing one. */
  predicate RadiusItem(item: Item) {
    item.MissingRadiusEntry? || item.RadiusEntryDiffers?
  }

  /** The RADIUS part of a plan. */
  function RadiusOperations(s: RouterState, d: DesiredState, managed: set<string>): seq<Operation> {
    DesiredChanges(s.entries, d.assignments) + Removals(s.entries, Addresses(d.assignments), managed)
  }

  /** What the planner and drift detection compare, after defaults. */
  predicate Alike(e: RadiusEntry, f: RadiusEntry) {
    && e.address == f.address
    && multiset(e.service) == multiset(f.service)
    && OrDefault(e.authPort, 1812) == OrDefault(f.authPort, 1812)
    && OrDefault(e.accountingPort, 1813) == OrDefault(f.accountingPort, 1813)
    && OrDefault(e.timeout, 3000) == OrDefault(f.timeout, 3000)
    && OrNone(e.srcAddress) == OrNone(f.srcAddress)
  }

  /** For every address, the first entry, which the planner takes, and the last, which drift detection takes, look
      alike. */
  ghost predicate EndsAlike(es: seq<RadiusEntry>) {
    forall a | a in LastByAddress(es) ::
      FindAddress(es, a).Some? ==> Alike(FindAddress(es, a).value, LastByAddress(es)[a])
  }

  lemma IndexedIffFound(es: seq<RadiusEntry>, a: string)
    ensures a in LastByAddress(es) <==> FindAddress(es, a).Some?
  {
    IndexedAddresses(es, a);
    if i :| 0 <= i < |es| && es[i].address == a {
      assert es[i] in es;
    }
  }

  lemma {:induction false} IndexedAddress(es: seq<RadiusEntry>, a: string)
    requires a in LastByAddress(es)
    ensures LastByAddress(es)[a].address == a
  {
    if es[|es| - 1].address != a {
      IndexedAddress(es[..|es| - 1], a);
    }
  }

  /** Tables with unique addresses are a special case. */
  lemma UniqueAddressesAlike(es: seq<RadiusEntry>)
    requires UniqueAddresses(es)
    ensures EndsAlike(es)
  {
    forall a | a in LastByAddress(es)
      ensures FindAddress(es, a) == Some(LastByAddress(es)[a])
    {
      IndexIsScan(es, a);
    }
  }

  lemma DiffersInSomeField(e: RadiusEntry, a: DesiredEntry)
    ensures (forall f :: !Differs(f, e, a)) <==> EntryMatches(e, a)
  {
    assert EntryMatches(e, a) <==>
      !Differs(Address, e, a) && !Differs(ServiceList, e, a) && !Differs(AuthenticationPort, e, a)
      && !Differs(AccountingPort, e, a) && !Differs(Timeout, e, a) && !Differs(SrcAddress, e, a);
  }

  /** Drift detection has nothing to say about the entry of one assignment. */
  ghost predicate Undrifted(es: seq<RadiusEntry>, a: DesiredEntry) {
    a.address in LastByAddress(es) && EntryMatches(LastByAddress(es)[a.address], a)
  }

  lemma AssignmentAgrees(es: seq<RadiusEntry>, a: DesiredEntry)
    requires EndsAlike(es)
    ensures DesiredChange(es, a).kind == OpNoop <==> Undrifted(es, a)
  {
    IndexedIffFound(es, a.address);
  }

  ghost predicate NoRadiusDrift(s: RouterState, d: DesiredState, managed: set<string>) {
    forall item :: RadiusItem(item) ==> !Drifted(item, s, d, managed)
  }

  lemma NoRadiusDriftIff(s: RouterState, d: DesiredState, managed: set<string>)
    ensures NoRadiusDrift(s, d, managed) <==> forall a | a in d.assignments :: Undrifted(s.entries, a)
  {
    var index := LastByAddress(s.entries);
    forall a | a in d.assignments
      ensures NoRadiusDrift(s, d, managed) ==> Undrifted(s.entries, a)
    {
      if NoRadiusDrift(s, d, managed) {
        assert !Drifted(MissingRadiusEntry(a.assignmentId), s, d, managed);
        forall f
          ensures !Differs(f, index[a.address], a)
        {
          assert !Drifted(RadiusEntryDiffers(f, a.assignmentId), s, d, managed);
        }
        DiffersInSomeField(index[a.address], a);
      }
    }
    if forall a | a in d.assignments :: Undrifted(s.entries, a) {
      forall a | a in d.assignments
        ensures forall f :: !Differs(f, index[a.address], a)
      {
        DiffersInSomeField(index[a.address], a);
      }
    }
  }

  lemma RadiusNoopsIff(s: RouterState, d: DesiredState, managed: set<string>)
    requires managed <= Addresses(d.assignments)
    ensures AllNoops(RadiusOperations(s, d, managed))
            <==> forall a | a in d.assignments :: DesiredChange(s.entries, a).kind == OpNoop
  {
    var ops := RadiusOperations(s, d, managed);
    forall a | a in d.assignments
      ensures DesiredChange(s.entries, a) in ops
    {
      InDesiredChanges(s.entries, d.assignments, DesiredChange(s.entries, a));
    }
    forall op | op in ops
      ensures exists a | a in d.assignments :: op == DesiredChange(s.entries, a)
    {
      InDesiredChanges(s.entries, d.assignments, op);
      InRemovals(s.entries, Addresses(d.assignments), managed, op);
    }
  }

  ghost predicate Agree(s: RouterState, d: DesiredState, managed: set<string>) {
    NoRadiusDrift(s, d, managed) <==> AllNoops(RadiusOperations(s, d, managed))
  }

  /** On a table whose first and last entries look alike, and without orphan addresses, drift detection reports no
      RADIUS entry exactly when the planner has nothing to do for RADIUS. */
  lemma DriftAgreesWithPlan(s: RouterState, d: DesiredState, managed: set<string>)
    requires EndsAlike(s.entries) && managed <= Addresses(d.assignments)
    ensures Agree(s, d, managed)
  {
    NoRadiusDriftIff(s, d, managed);
    RadiusNoopsIff(s, d, managed);
    forall a | a in d.assignments
      ensures DesiredChange(s.entries, a).kind == OpNoop <==> Undrifted(s.entries, a)
    {
      AssignmentAgrees(s.entries, a);
    }
  }

  /** A desired entry that asks for what an entry has. */
  function AsDesired(e: RadiusEntry): DesiredEntry {
    DesiredEntry("", "", e.address, 1, e.service, e.authPort, e.accountingPort, None, e.timeout, e.srcAddress)
  }

  function WishFor(a: DesiredEntry): DesiredState {
    DesiredState([a], [], false, true, None, false, false, false, false, None, [], [], false, 3799)
  }

  /** Asking for what the first of two unlike entries has parts the two views. */
  lemma UnlikeEndsDisagree(s: RouterState) returns (d: DesiredState)
    requires !EndsAlike(s.entries)
    ensures !NoRadiusDrift(s, d, {}) && AllNoops(RadiusOperations(s, d, {}))
  {
    var a :| a in LastByAddress(s.entries) && FindAddress(s.entries, a).Some?
             && !Alike(FindAddress(s.entries, a).value, LastByAddress(s.entries)[a]);
    var wish := AsDesired(FindAddress(s.entries, a).value);
    d := WishFor(wish);
    IndexedAddress(s.entries, a);
    NoRadiusDriftIff(s, d, {});
    RadiusNoopsIff(s, d, {});
    assert wish in d.assignments && !Undrifted(s.entries, wish);
  }

  /** Drift detection and planner agree on every desired state if and only if, for every address of the table, its
      first and last entries look alike. */
  lemma AgreeIffEndsAlike(s: RouterState)
    ensures EndsAlike(s.entries)
       <==> forall d: DesiredState, managed | managed <= Addresses(d.assignments) :: Agree(s, d, managed)
  {
    if EndsAlike(s.entries) {
      forall d: DesiredState, managed | managed <= Addresses(d.assignments)
        ensures Agree(s, d, managed)
      {
        DriftAgreesWithPlan(s, d, managed);
      }
    } else {
      var d := UnlikeEndsDisagree(s);
      var none: set<string> := {};
      assert none <= Addresses(d.assignments) && !Agree(s, d, none);
    }
  }

  /** A planned addition makes the drift critical. */
  lemma AddIsCritical(s: RouterState, d: DesiredState, managed: set<string>, items: seq<Item>,
                      classification: Severity, op: Operation)
    requires forall item :: item in items <==> Drifted(item, s, d, managed)
    requires Classifies(classification, items)
    requires op in PlanOperations(s, d, managed) && op.kind == OpAdd
    ensures classification == Critical
  {
    DueIffPlanned(s, d, managed, op);
    var a :| a in d.assignments && op == DesiredChange(s.entries, a);
    IndexedIffFound(s.entries, a.address);
    assert Drifted(MissingRadiusEntry(a.assignmentId), s, d, managed);
    assert SeverityOf(MissingRadiusEntry(a.assignmentId)) == Critical;
  }

  /** An instance: two entries of one address with different timeouts. */
  lemma DuplicateAddressesDisagree(good: RadiusEntry, bad: RadiusEntry, a: DesiredEntry, s: RouterState,
                                   d: DesiredState)
    requires s.entries == [good, bad] && d.assignments == [a]
    requires EntryMatches(good, a) && bad.address == a.address && Differs(Timeout, bad, a)
    ensures AllNoops(RadiusOperations(s, d, {}))
    ensures Drifted(RadiusEntryDiffers(Timeout, a.assignmentId), s, d, {})
  {
    RadiusNoopsIff(s, d, {});
    assert s.entries[..1] == [good];
  }

  /* ---- items and severities in plain terms ---- */

  /** The classification by what the items are about. */
  lemma ClassificationMeans(classification: Severity, items: seq<Item>)
    requires Classifies(classification, items)
    ensures classification == Critical
      <==> exists item | item in items :: item.MissingRadiusEntry? || item.UserAaaChanged?
    ensures classification == NoDrift <==> items == []
    ensures classification == Safe ==> forall item | item in items :: item.UnknownExternalEntry? || item.NoCurrentState?
    ensures items != [] && (forall item | item in items :: item.UnknownExternalEntry?) ==> classification == Safe
    ensures (exists item | item in items :: item.RadiusEntryDiffers? || item.RemoteObjectRemoved? || item.PppAaaChanged?
                                            || item.HotspotRadiusChanged? || item.IncomingCoaDisabled?)
            ==> classification in {Warning, Critical}
  {
    if items != [] {
      assert items[0] in items;
    }
  }

  /** The items about addresses: external entries are those the planner warns about, if they have an address; a managed
      address neither on the router nor wanted was removed. */
  lemma AddressItemsMean(s: RouterState, d: DesiredState, managed: set<string>, a: string)
    ensures Drifted(UnknownExternalEntry(a), s, d, managed) <==>
      && (exists i :: 0 <= i < |s.entries| && s.entries[i].address == a) && a !in managed
      && forall i | 0 <= i < |d.assignments| :: d.assignments[i].address != a
    ensures Drifted(RemoteObjectRemoved(a), s, d, managed) <==>
      && (forall i | 0 <= i < |s.entries| :: s.entries[i].address != a) && a in managed
      && forall i | 0 <= i < |d.assignments| :: d.assignments[i].address != a
  {
    IndexedAddresses(s.entries, a);
    assert a in Addresses(d.assignments) <==> exists i :: 0 <= i < |d.assignments| && d.assignments[i].address == a;
  }

  /** The items about settings, and the update the planner has for each. */
  lemma SettingItemsMean(s: RouterState, d: DesiredState, managed: set<string>, name: string)
    ensures Drifted(PppAaaChanged, s, d, managed) <==> d.pppAaa && (!s.ppp.useRadius || !s.ppp.accounting)
    ensures Drifted(PppAaaChanged, s, d, managed)
            ==> exists op | op in PlanOperations(s, d, managed) :: op.kind == OpUpdate && op.target.PppTarget?
    ensures Drifted(UserAaaChanged, s, d, managed) <==> d.loginRadius && !s.user.useRadius
    ensures Drifted(UserAaaChanged, s, d, managed)
            ==> exists op | op in PlanOperations(s, d, managed) :: op.kind == OpUpdate && op.target.UserTarget?
    ensures Drifted(IncomingCoaDisabled, s, d, managed) <==>
      exists op | op in PlanOperations(s, d, managed) :: op.kind == OpUpdate && op.target.IncomingTarget?
  {
    SettingsPlannedIff(s, d, managed);
    forall op | op in PlanOperations(s, d, managed) && op.kind == OpUpdate {
      SettingUpdateIs(s, d, managed, op);
    }
  }

  /** A hotspot profile drifts when the first one of its name is missing or does not use RADIUS. */
  lemma {:induction false} HotspotItemMeans(ps: seq<HotspotProfile>, name: string)
    ensures HotspotDrifted(ps, name) <==>
      || (forall i | 0 <= i < |ps| :: ps[i].name != name)
      || (exists i | 0 <= i < |ps| ::
          ps[i].name == name && !ps[i].useRadius && forall k | 0 <= k < i :: ps[k].name != name)
  {
    if ps != [] {
      HotspotItemMeans(ps[1..], name);
      if ps[0].name != name {
        assert forall i | 1 <= i < |ps| :: ps[i] == ps[1..][i - 1];
        assert forall i | 0 <= i < |ps| - 1 :: ps[1..][i] == ps[i + 1];
      }
    }
  }
}
