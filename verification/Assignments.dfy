/** From assignment records to desired entries: `build_desired_assignments` in
    services/aaa-service/app/nas_desired_state.py. */
module Assignments {
  import opened Common
  import opened Planner
  import opened Sorting

  datatype RadiusServer = RadiusServer(host: string, authPort: Option<int>, accountingPort: Option<int>,
                                       coaPort: Option<int>)

  datatype AssignmentRecord = AssignmentRecord(
    id: string, desiredStatus: string, priority: int, role: string, server: Option<RadiusServer>,
    services: seq<string>, authPort: Option<int>, accountingPort: Option<int>, coaPort: Option<int>,
    timeoutSeconds: int, sourceAddress: Option<string>, secretVersion: int)

  /** `own or server's`: a missing or zero port of the assignment falls back to its server's. */
  function PortOr(own: Option<int>, fallback: Option<int>): Option<int> {
    if OrDefault(own, 0) == 0 then fallback else own
  }

  function Normalized(a: AssignmentRecord): DesiredEntry {
    var server := if a.server.Some? then a.server.value else RadiusServer("", None, None, None);
    DesiredEntry(a.id, a.role, server.host, a.secretVersion, a.services,
                 PortOr(a.authPort, server.authPort), PortOr(a.accountingPort, server.accountingPort),
                 PortOr(a.coaPort, server.coaPort), Some(a.timeoutSeconds), a.sourceAddress)
  }

  function Enabled(xs: seq<AssignmentRecord>): (r: seq<AssignmentRecord>)
    ensures forall a :: a in r <==> a in xs && a.desiredStatus != "disabled"
  {
    if xs == [] then []
    else (if xs[0].desiredStatus != "disabled" then [xs[0]] else []) + Enabled(xs[1..])
  }

  function Priority(a: AssignmentRecord): int {
    a.priority
  }

  function EnabledByPriority(xs: seq<AssignmentRecord>): seq<AssignmentRecord> {
    StableSort(Enabled(xs), Priority)
  }

  method NormalizeEach(ordered: seq<AssignmentRecord>) returns (desired: seq<DesiredEntry>)
    ensures |desired| == |ordered|
    ensures forall i | 0 <= i < |ordered| :: desired[i] == Normalized(ordered[i])
  {
    desired := [];
    for n := 0 to |ordered|
      invariant |desired| == n
      invariant forall i | 0 <= i < n :: desired[i] == Normalized(ordered[i])
    {
      desired := desired + [Normalized(ordered[n])];
    }
  }

  method BuildDesiredAssignments(xs: seq<AssignmentRecord>) returns (desired: seq<DesiredEntry>)
    ensures |desired| == |EnabledByPriority(xs)|
    ensures forall i | 0 <= i < |desired| :: desired[i] == Normalized(EnabledByPriority(xs)[i])
  {
    desired := NormalizeEach(EnabledByPriority(xs));
  }

  /** The enabled assignments appear once each, by ascending priority, equal priorities in table order. */
  lemma EnabledOrder(xs: seq<AssignmentRecord>)
    ensures var ordered := EnabledByPriority(xs);
      && multiset(ordered) == multiset(Enabled(xs))
      && (forall i, j | 0 <= i < j < |ordered| :: ordered[i].priority <= ordered[j].priority)
      && (forall p :: OfKey(ordered, Priority, p) == OfKey(Enabled(xs), Priority, p))
  {
    StableSortIsStable(Enabled(xs), Priority);
    var ordered := EnabledByPriority(xs);
    forall i, j | 0 <= i < j < |ordered|
      ensures ordered[i].priority <= ordered[j].priority
    {
      assert Priority(ordered[i]) <= Priority(ordered[j]);
    }
  }

  /** Each desired entry in plain terms: the ports of the assignment, or those of its server where the assignment has
      none or zero, each in its own place; host, services, timeout and source address as they are. */
  lemma NormalizedMeans(a: AssignmentRecord)
    ensures var d := Normalized(a);
      && d.assignmentId == a.id && d.role == a.role && d.secretVersion == a.secretVersion && d.services == a.services
      && d.timeout == Some(a.timeoutSeconds) && d.srcAddress == a.sourceAddress
      && d.address == (if a.server.Some? then a.server.value.host else "")
      && d.authPort == (if a.authPort !in {None, Some(0)} then a.authPort
                        else if a.server.Some? then a.server.value.authPort else None)
      && d.accountingPort == (if a.accountingPort !in {None, Some(0)} then a.accountingPort
                              else if a.server.Some? then a.server.value.accountingPort else None)
      && d.coaPort == (if a.coaPort !in {None, Some(0)} then a.coaPort
                       else if a.server.Some? then a.server.value.coaPort else None)
  {}

  /** The enabled assignments are those not disabled, each as often as in the table and in its order. */
  lemma {:induction false} EnabledMeans(xs: seq<AssignmentRecord>, a: AssignmentRecord)
    ensures Enabled([]) == []
    ensures Enabled(xs + [a]) == Enabled(xs) + if a.desiredStatus == "disabled" then [] else [a]
  {
    if xs == [] {
      assert xs + [a] == [a];
    } else {
      assert (xs + [a])[1..] == xs[1..] + [a];
      EnabledMeans(xs[1..], a);
    }
  }
}
