/** The desired-state planner: services/aaa-service/app/nas_desired_state.py. */
module Planner {
  import opened Common
  import opened Router

  /* ---- desired state ---- */

  /** One secret-free desired RADIUS entry. */
  datatype DesiredEntry = DesiredEntry(
    assignmentId: string, role: string, address: string, secretVersion: int, services: seq<string>,
    authPort: Option<int>, accountingPort: Option<int>, coaPort: Option<int>,
    timeout: Option<int>, srcAddress: Option<string>)

  datatype HotspotWish = HotspotWish(name: string, locationName: Option<string>)

  datatype DesiredState = DesiredState(
    assignments: seq<DesiredEntry>, services: seq<string>,
    pppAaa: bool, accounting: bool, interimSeconds: Option<int>,
    loginRadius: bool, breakGlassVerified: bool, acknowledgeLoginRisk: bool,
    userAccounting: bool, userDefaultGroup: Option<string>, userExcludedGroups: seq<string>,
    hotspots: seq<HotspotWish>, incomingCoa: bool, coaPort: int)

  datatype Capabilities = Capabilities(hotspot: Option<bool>, incomingCoa: Option<bool>)

  const ALLOWED_SERVICES: set<string> := {"ppp", "pppoe", "hotspot", "login", "wireless", "dhcp", "ipsec", "dot1x"}

  /* ---- operations ---- */

  datatype Kind = OpAdd | OpUpdate | OpRemove | OpNoop

  datatype Target =
    | RadiusAssignment(assignmentId: string, remoteId: Option<string>, values: RadiusValues)
    | RadiusRemoval(removedId: string, address: string)
    | PppTarget(ppp: PppSettings)
    | UserTarget(user: UserAaa)
    | HotspotTarget(profile: string, hotspot: HotspotSettings)
    | IncomingTarget(incoming: IncomingSettings)

  datatype Operation = Operation(kind: Kind, target: Target)

  datatype Risk = LowRisk | MediumRisk | HighRisk | CriticalRisk

  datatype Plan = Plan(
    operations: seq<Operation>, warnings: seq<string>, errors: seq<ValidationError>, risk: Risk, requiresApproval: bool)

  /* ---- RADIUS entries ---- */

  function ValuesOf(d: DesiredEntry): RadiusValues {
    RadiusValues(d.address, d.services, d.authPort, d.accountingPort, d.timeout, d.srcAddress)
  }

  /** `_entry_matches_desired`; equal sorted lists are equal multisets. */
  predicate EntryMatches(e: RadiusEntry, d: DesiredEntry) {
    && e.address == d.address
    && multiset(e.service) == multiset(d.services)
    && OrDefault(e.authPort, 1812) == OrDefault(d.authPort, 1812)
    && OrDefault(e.accountingPort, 1813) == OrDefault(d.accountingPort, 1813)
    && OrDefault(e.timeout, 3000) == OrDefault(d.timeout, 3000)
    && OrNone(e.srcAddress) == OrNone(d.srcAddress)
  }

  /** The first entry with an address. */
  function FindAddress(es: seq<RadiusEntry>, address: string): (r: Option<RadiusEntry>)
    ensures r.Some? ==> r.value in es && r.value.address == address
    ensures r.None? ==> forall e | e in es :: e.address != address
  {
    if es == [] then None
    else if es[0].address == address then Some(es[0])
    else FindAddress(es[1..], address)
  }

  lemma {:induction false} FindAddressAt(es: seq<RadiusEntry>, i: nat)
    requires i < |es| && forall k | 0 <= k < i :: es[k].address != es[i].address
    ensures FindAddress(es, es[i].address) == Some(es[i])
  {
    if i > 0 {
      assert es[1..][i - 1] == es[i];
      FindAddressAt(es[1..], i - 1);
    }
  }

  function Addresses(ds: seq<DesiredEntry>): set<string> {
    set d | d in ds :: d.address
  }

  function RemovalOf(e: RadiusEntry): Operation {
    Operation(OpRemove, RadiusRemoval(e.remoteId, e.address))
  }

  /** The operation planned for one desired entry. */
  function DesiredChange(es: seq<RadiusEntry>, d: DesiredEntry): Operation {
    match FindAddress(es, d.address)
    case None => Operation(OpAdd, RadiusAssignment(d.assignmentId, None, ValuesOf(d)))
    case Some(e) => Operation(if EntryMatches(e, d) then OpNoop else OpUpdate,
                              RadiusAssignment(d.assignmentId, Some(e.remoteId), ValuesOf(d)))
  }

  function DesiredChanges(es: seq<RadiusEntry>, ds: seq<DesiredEntry>): seq<Operation> {
    if ds == [] then []
    else DesiredChanges(es, ds[..|ds| - 1]) + [DesiredChange(es, ds[|ds| - 1])]
  }

  /** A managed entry that is no longer desired. */
  predicate Orphan(e: RadiusEntry, desired: set<string>, managed: set<string>) {
    e.address !in desired && e.address in managed
  }

  function Removals(es: seq<RadiusEntry>, desired: set<string>, managed: set<string>): seq<Operation> {
    if es == [] then []
    else
      var e := es[|es| - 1];
      Removals(es[..|es| - 1], desired, managed)
      + if Orphan(e, desired, managed) then [RemovalOf(e)] else []
  }

  /** The position of the first entry with this address, or |current|. */
  method ScanFor(current: seq<RadiusEntry>, address: string) returns (i: nat)
    ensures i <= |current|
    ensures FindAddress(current, address) == if i < |current| then Some(current[i]) else None
  {
    i := 0;
    while i < |current| && current[i].address != address
      invariant i <= |current|
      invariant forall k | 0 <= k < i :: current[k].address != address
    {
      i := i + 1;
    }
    if i < |current| {
      FindAddressAt(current, i);
    }
  }

  method ComputeRadiusChanges(current: seq<RadiusEntry>, desired: seq<DesiredEntry>, managed: set<string>)
    returns (changes: seq<Operation>)
    ensures changes == DesiredChanges(current, desired) + Removals(current, Addresses(desired), managed)
  {
    var desiredAddresses := Addresses(desired);
    var matched: set<string> := {};
    changes := [];
    for n := 0 to |desired|
      invariant changes == DesiredChanges(current, desired[..n])
      invariant matched <= desiredAddresses
    {
      var d := desired[n];
      assert desired[..n + 1][..n] == desired[..n];
      var i := ScanFor(current, d.address);
      if i == |current| {
        changes := changes + [Operation(OpAdd, RadiusAssignment(d.assignmentId, None, ValuesOf(d)))];
      } else {
        matched := matched + {d.address};
        var kind := if EntryMatches(current[i], d) then OpNoop else OpUpdate;
        changes :=
          changes + [Operation(kind, RadiusAssignment(d.assignmentId, Some(current[i].remoteId), ValuesOf(d)))];
      }
    }
    assert desired[..|desired|] == desired;
    for n := 0 to |current|
      invariant changes == DesiredChanges(current, desired) + Removals(current[..n], desiredAddresses, managed)
    {
      var e := current[n];
      assert current[..n + 1][..n] == current[..n];
      if e.address !in desiredAddresses && e.address in managed && e.address !in matched {
        changes := changes + [Operation(OpRemove, RadiusRemoval(e.remoteId, e.address))];
      }
    }
    assert current[..|current|] == current;
  }

  /* ---- the other four areas ---- */

  function WantedPpp(d: DesiredState): PppSettings {
    PppSettings(true, d.accounting, d.interimSeconds)
  }

  function PppChanges(current: PppAaa, d: DesiredState): seq<Operation> {
    if !d.pppAaa then []
    else
      var settled := current.useRadius && current.accounting
                     && (OrDefault(d.interimSeconds, 0) == 0 || PppInterimSeconds(current) == d.interimSeconds);
      [Operation(if settled then OpNoop else OpUpdate, PppTarget(WantedPpp(d)))]
  }

  function WantedUser(d: DesiredState): UserAaa {
    UserAaa(true, d.userAccounting, d.userDefaultGroup, d.userExcludedGroups)
  }

  function UserChanges(current: UserAaa, d: DesiredState): seq<Operation> {
    if !d.loginRadius then []
    else [Operation(if current.useRadius && current.defaultGroup == d.userDefaultGroup then OpNoop else OpUpdate,
                    UserTarget(WantedUser(d)))]
  }

  /** The last wish for a profile name, as a dictionary built in list order keeps it. */
  function LocationOf(wishes: seq<HotspotWish>, name: string): Option<string> {
    if wishes == [] then None
    else if wishes[|wishes| - 1].name == name then wishes[|wishes| - 1].locationName
    else LocationOf(wishes[..|wishes| - 1], name)
  }

  predicate Selected(wishes: seq<HotspotWish>, name: string) {
    exists i | 0 <= i < |wishes| :: wishes[i].name == name
  }

  function WantedHotspot(d: DesiredState, name: string): HotspotSettings {
    HotspotSettings(true, true, d.interimSeconds, LocationOf(d.hotspots, name))
  }

  function HotspotChange(p: HotspotProfile, d: DesiredState): Operation {
    Operation(if p.useRadius && p.radiusAccounting then OpNoop else OpUpdate,
              HotspotTarget(p.name, WantedHotspot(d, p.name)))
  }

  function HotspotChanges(ps: seq<HotspotProfile>, d: DesiredState): seq<Operation> {
    if ps == [] then []
    else
      HotspotChanges(ps[..|ps| - 1], d)
      + if Selected(d.hotspots, ps[|ps| - 1].name) then [HotspotChange(ps[|ps| - 1], d)] else []
  }

  method ComputeHotspotChanges(profiles: seq<HotspotProfile>, d: DesiredState) returns (changes: seq<Operation>)
    ensures changes == HotspotChanges(profiles, d)
  {
    changes := [];
    for n := 0 to |profiles|
      invariant changes == HotspotChanges(profiles[..n], d)
    {
      assert profiles[..n + 1][..n] == profiles[..n];
      if !Selected(d.hotspots, profiles[n].name) {
        continue;
      }
      var wanted := HotspotSettings(true, true, d.interimSeconds, LocationOf(d.hotspots, profiles[n].name));
      var matches := profiles[n].useRadius && profiles[n].radiusAccounting;
      changes := changes + [Operation(if matches then OpNoop else OpUpdate, HotspotTarget(profiles[n].name, wanted))];
    }
    assert profiles[..|profiles|] == profiles;
  }

  function WantedIncoming(d: DesiredState): IncomingSettings {
    IncomingSettings(true, d.coaPort, false)
  }

  function IncomingChanges(rows: seq<Incoming>, d: DesiredState): seq<Operation> {
    if !d.incomingCoa then []
    else [Operation(if rows != [] && rows[0].accept then OpNoop else OpUpdate, IncomingTarget(WantedIncoming(d)))]
  }

  /* ---- validation ---- */

  datatype ValidationError =
    | NoAssignment | NoBreakGlass | NoAcknowledgement | NoDefaultGroup | CoaWithoutAssignment
    | IntervalOutOfBounds | UnsupportedService(service: string) | NoHotspotSupport | NoCoaSupport

  const DEFAULT_INTERIM_MAX := 86400

  /** The rule each blocking error reports. */
  predicate Violates(e: ValidationError, d: DesiredState, caps: Capabilities, interimMax: int) {
    match e
    case NoAssignment => d.assignments == []
    case NoBreakGlass => d.loginRadius && !d.breakGlassVerified
    case NoAcknowledgement => d.loginRadius && !d.acknowledgeLoginRisk
    case NoDefaultGroup => d.loginRadius && OrNone(d.userDefaultGroup).None?
    case CoaWithoutAssignment => d.incomingCoa && d.assignments == []
    case IntervalOutOfBounds => d.interimSeconds.Some? && !(60 <= d.interimSeconds.value <= interimMax)
    case UnsupportedService(service) => service in d.services && service !in ALLOWED_SERVICES
    case NoHotspotSupport => caps.hotspot == Some(false) && d.hotspots != []
    case NoCoaSupport => caps.incomingCoa == Some(false) && d.incomingCoa
  }

  /** Every rule of the validator is respected. */
  ghost predicate ValidDesired(d: DesiredState, caps: Capabilities, interimMax: int) {
    forall e: ValidationError :: !Violates(e, d, caps, interimMax)
  }

  method ValidateDesired(d: DesiredState, caps: Capabilities, interimMax: int) returns (errors: seq<ValidationError>)
    ensures forall e :: e in errors <==> Violates(e, d, caps, interimMax)
  {
    errors := [];
    if d.assignments == [] {
      errors := errors + [NoAssignment];
    }
    if d.loginRadius {
      if !d.breakGlassVerified {
        errors := errors + [NoBreakGlass];
      }
      if !d.acknowledgeLoginRisk {
        errors := errors + [NoAcknowledgement];
      }
      if OrNone(d.userDefaultGroup).None? {
        errors := errors + [NoDefaultGroup];
      }
    }
    if d.incomingCoa && d.assignments == [] {
      errors := errors + [CoaWithoutAssignment];
    }
    if d.interimSeconds.Some? && !(60 <= d.interimSeconds.value <= interimMax) {
      errors := errors + [IntervalOutOfBounds];
    }
    ghost var before := errors;
    for n := 0 to |d.services|
      invariant forall e :: e in errors <==>
        e in before || (e.UnsupportedService? && e.service in d.services[..n] && e.service !in ALLOWED_SERVICES)
    {
      if d.services[n] !in ALLOWED_SERVICES {
        errors := errors + [UnsupportedService(d.services[n])];
      }
    }
    if caps.hotspot == Some(false) && d.hotspots != [] {
      errors := errors + [NoHotspotSupport];
    }
    if caps.incomingCoa == Some(false) && d.incomingCoa {
      errors := errors + [NoCoaSupport];
    }
  }

  /* ---- the whole plan ---- */

  function PlanOperations(current: RouterState, d: DesiredState, managed: set<string>): seq<Operation> {
    DesiredChanges(current.entries, d.assignments)
    + Removals(current.entries, Addresses(d.assignments), managed)
    + PppChanges(current.ppp, d) + UserChanges(current.user, d)
    + HotspotChanges(current.hotspots, d) + IncomingChanges(current.incoming, d)
  }

  datatype Ownership = BackendManaged | ExternallyManaged | UnknownOwner

  function Classify(e: RadiusEntry, desired: set<string>, managed: set<string>): Ownership {
    if e.address in desired || e.address in managed then BackendManaged
    else if e.address == "" then UnknownOwner
    else ExternallyManaged
  }

  /** The addresses of the externally managed entries, in table order. */
  function ExternalAddresses(es: seq<RadiusEntry>, desired: set<string>, managed: set<string>): seq<string> {
    if es == [] then []
    else
      var e := es[|es| - 1];
      ExternalAddresses(es[..|es| - 1], desired, managed)
      + if Classify(e, desired, managed) == ExternallyManaged then [e.address] else []
  }

  /* ---- risk ---- */

  predicate IsPrimary(ds: seq<DesiredEntry>, address: string) {
    exists a | a in ds :: a.role == "primary" && a.address == address
  }

  /** An update of an entry that serves a primary assignment. */
  predicate UpdatesPrimary(op: Operation, ds: seq<DesiredEntry>) {
    op.kind == OpUpdate && op.target.RadiusAssignment? && op.target.values.address != ""
      && IsPrimary(ds, op.target.values.address)
  }

  predicate RemovesEntry(op: Operation) {
    op.kind == OpRemove && op.target.RadiusRemoval?
  }

  /** What a plan risks: administrative login, then a primary server or a removal, then an interval. */
  ghost predicate RiskFits(risk: Risk, d: DesiredState, ops: seq<Operation>) {
    var high := exists op | op in ops ::
      || (op.kind == OpRemove && op.target.RadiusRemoval?)
      || (op.kind == OpUpdate && op.target.RadiusAssignment? && op.target.values.address != ""
          && exists a | a in d.assignments :: a.role == "primary" && a.address == op.target.values.address);
    && (risk == CriticalRisk <==> d.loginRadius)
    && (risk == HighRisk <==> !d.loginRadius && high)
    && (risk == MediumRisk <==> !d.loginRadius && !high && d.interimSeconds.Some?)
  }

  method RiskForDesired(d: DesiredState, ops: seq<Operation>) returns (risk: Risk)
    ensures RiskFits(risk, d, ops)
  {
    if d.loginRadius {
      return CriticalRisk;
    }
    for n := 0 to |ops|
      invariant forall k | 0 <= k < n :: !UpdatesPrimary(ops[k], d.assignments)
    {
      if UpdatesPrimary(ops[n], d.assignments) {
        assert ops[n] in ops;
        return HighRisk;
      }
    }
    for n := 0 to |ops|
      invariant forall k | 0 <= k < n :: !RemovesEntry(ops[k])
    {
      if RemovesEntry(ops[n]) {
        assert ops[n] in ops;
        return HighRisk;
      }
    }
    return if d.interimSeconds.Some? then MediumRisk else LowRisk;
  }

  method PlanWarnings(es: seq<RadiusEntry>, desired: set<string>, managed: set<string>) returns (warnings: seq<string>)
    ensures warnings == ExternalAddresses(es, desired, managed)
  {
    warnings := [];
    for n := 0 to |es|
      invariant warnings == ExternalAddresses(es[..n], desired, managed)
    {
      assert es[..n + 1][..n] == es[..n];
      if Classify(es[n], desired, managed) == ExternallyManaged {
        warnings := warnings + [es[n].address];
      }
    }
    assert es[..|es|] == es;
  }

  method ComputePlan(current: RouterState, d: DesiredState, managed: set<string>, caps: Capabilities, interimMax: int)
    returns (plan: Plan)
    ensures plan.operations == PlanOperations(current, d, managed)
    ensures plan.errors == [] <==> ValidDesired(d, caps, interimMax)
    ensures plan.warnings == ExternalAddresses(current.entries, Addresses(d.assignments), managed)
    ensures RiskFits(plan.risk, d, plan.operations)
    ensures plan.requiresApproval <==> d.loginRadius
  {
    var errors := ValidateDesired(d, caps, interimMax);
    assert errors == [] <==> ValidDesired(d, caps, interimMax) by {
      if errors != [] {
        assert errors[0] in errors;
      }
    }
    var changes := ComputeRadiusChanges(current.entries, d.assignments, managed);
    changes := changes + PppChanges(current.ppp, d);
    changes := changes + UserChanges(current.user, d);
    var hotspot := ComputeHotspotChanges(current.hotspots, d);
    changes := changes + hotspot;
    changes := changes + IncomingChanges(current.incoming, d);
    var warnings := PlanWarnings(current.entries, Addresses(d.assignments), managed);
    var risk := RiskForDesired(d, changes);
    if errors != [] && d.loginRadius {
      risk := CriticalRisk;
    }
    plan := Plan(changes, warnings, errors, risk, risk == CriticalRisk);
  }

  /* ---- in plain terms ---- */

  /** A desired state is valid exactly when it respects these bounds. */
  lemma ValidIff(d: DesiredState, caps: Capabilities, interimMax: int)
    ensures ValidDesired(d, caps, interimMax) <==>
      && d.assignments != []
      && (d.loginRadius ==> d.breakGlassVerified && d.acknowledgeLoginRisk && d.userDefaultGroup !in {None, Some("")})
      && (d.interimSeconds.Some? ==> 60 <= d.interimSeconds.value <= interimMax)
      && (forall i | 0 <= i < |d.services| ::
            d.services[i] in {"ppp", "pppoe", "hotspot", "login", "wireless", "dhcp", "ipsec", "dot1x"})
      && (caps.hotspot == Some(false) ==> d.hotspots == [])
      && (caps.incomingCoa == Some(false) ==> !d.incomingCoa)
  {
    if ValidDesired(d, caps, interimMax) {
      assert !Violates(NoAssignment, d, caps, interimMax) && !Violates(NoBreakGlass, d, caps, interimMax);
      assert !Violates(NoAcknowledgement, d, caps, interimMax) && !Violates(NoDefaultGroup, d, caps, interimMax);
      assert !Violates(IntervalOutOfBounds, d, caps, interimMax) && !Violates(NoHotspotSupport, d, caps, interimMax);
      assert !Violates(NoCoaSupport, d, caps, interimMax);
      forall i | 0 <= i < |d.services|
        ensures d.services[i] in {"ppp", "pppoe", "hotspot", "login", "wireless", "dhcp", "ipsec", "dot1x"}
      {
        assert !Violates(UnsupportedService(d.services[i]), d, caps, interimMax);
      }
    }
  }

  /** What each reported error says about the desired state. */
  lemma ErrorsMean(d: DesiredState, caps: Capabilities, interimMax: int, service: string)
    ensures Violates(NoAssignment, d, caps, interimMax) <==> |d.assignments| == 0
    ensures Violates(NoBreakGlass, d, caps, interimMax) <==> d.loginRadius && !d.breakGlassVerified
    ensures Violates(NoAcknowledgement, d, caps, interimMax) <==> d.loginRadius && !d.acknowledgeLoginRisk
    ensures Violates(NoDefaultGroup, d, caps, interimMax) <==> d.loginRadius && d.userDefaultGroup in {None, Some("")}
    ensures Violates(CoaWithoutAssignment, d, caps, interimMax) <==> d.incomingCoa && |d.assignments| == 0
    ensures Violates(IntervalOutOfBounds, d, caps, interimMax)
       <==> d.interimSeconds.Some? && (d.interimSeconds.value < 60 || interimMax < d.interimSeconds.value)
    ensures Violates(UnsupportedService(service), d, caps, interimMax) <==>
      && (exists i | 0 <= i < |d.services| :: d.services[i] == service)
      && service !in {"ppp", "pppoe", "hotspot", "login", "wireless", "dhcp", "ipsec", "dot1x"}
    ensures Violates(NoHotspotSupport, d, caps, interimMax) <==> caps.hotspot == Some(false) && |d.hotspots| > 0
    ensures Violates(NoCoaSupport, d, caps, interimMax) <==> caps.incomingCoa == Some(false) && d.incomingCoa
  {}

  /** A warning for each entry that is neither desired nor managed and has an address, in table order. */
  lemma {:induction false} WarningsMean(es: seq<RadiusEntry>, e: RadiusEntry, desired: set<string>,
                                        managed: set<string>)
    ensures ExternalAddresses([], desired, managed) == []
    ensures ExternalAddresses(es + [e], desired, managed) == ExternalAddresses(es, desired, managed)
      + if e.address != "" && e.address !in desired && e.address !in managed then [e.address] else []
  {
    assert (es + [e])[..|es|] == es;
  }
}
