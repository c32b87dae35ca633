/** Running a plan on a router: `apply_operations`, `verify_nas_configuration` and
    `apply_nas_configuration` in services/aaa-service/app/nas_service.py. */
module Apply {
  import opened Common
  import opened Router
  import opened Planner
  import opened Sorting

  /** Ownership record of a remote object, keyed by remote id in its table. */
  datatype RemoteObject = RemoteObject(assignmentId: string, observed: RadiusValues, ownership: Ownership)

  datatype World = World(router: RouterState, objects: map<string, RemoteObject>)

  /** A world, and the error that stopped the operations before it, if any. */
  datatype Outcome = Outcome(world: World, error: Option<string>)

  function Upserted(objects: map<string, RemoteObject>, id: string, assignmentId: string,
                    v: RadiusValues): map<string, RemoteObject> {
    objects[id := RemoteObject(assignmentId, v, BackendManaged)]
  }

  /** A router write, followed by a change of the remote-object table when it succeeded. */
  function AfterWrite(w: World, written: Written, objects: map<string, RemoteObject>): Outcome {
    Outcome(World(written.state, if written.error.Some? then w.objects else objects), written.error)
  }

  /** The effect of one operation. */
  function ApplyOne(w: World, op: Operation): Outcome {
    match op
    case Operation(OpAdd, RadiusAssignment(a, _, v)) =>
      AfterWrite(w, Create(w.router, v), Upserted(w.objects, RemoteIdText(w.router.nextId), a, v))
    case Operation(OpUpdate, RadiusAssignment(a, id, v)) =>
      if id.None? then Outcome(w, Some("INVALID_RESPONSE"))
      else AfterWrite(w, Update(w.router, id.value, v), Upserted(w.objects, id.value, a, v))
    case Operation(OpRemove, RadiusRemoval(id, _)) => AfterWrite(w, Remove(w.router, id), w.objects - {id})
    case Operation(OpUpdate, PppTarget(v)) =>
      Outcome(w.(router := w.router.(ppp := ConfiguredPpp(w.router.ppp, v))), None)
    case Operation(OpUpdate, UserTarget(v)) =>
      Outcome(w.(router := w.router.(user := ConfiguredUser(w.router.user, v))), None)
    case Operation(OpUpdate, HotspotTarget(name, v)) => AfterWrite(w, ConfigureHotspot(w.router, name, v), w.objects)
    case Operation(OpUpdate, IncomingTarget(v)) => AfterWrite(w, ConfigureIncoming(w.router, v), w.objects)
    case _ => Outcome(w, None)
  }

  /** The effect of a list of operations; the first error stops the rest. */
  function ApplyAll(w: World, ops: seq<Operation>): Outcome {
    if ops == [] then Outcome(w, None)
    else
      var before := ApplyAll(w, ops[..|ops| - 1]);
      if before.error.Some? then before else ApplyOne(before.world, ops[|ops| - 1])
  }

  lemma {:induction false} ErrorStops(w: World, ops: seq<Operation>, n: nat)
    requires n <= |ops| && ApplyAll(w, ops[..n]).error.Some?
    ensures ApplyAll(w, ops) == ApplyAll(w, ops[..n])
    decreases |ops|
  {
    if n == |ops| {
      assert ops[..n] == ops;
    } else {
      assert ops[..|ops| - 1][..n] == ops[..n];
      ErrorStops(w, ops[..|ops| - 1], n);
    }
  }

  lemma ApplyNext(w: World, ops: seq<Operation>, n: nat)
    requires n < |ops| && ApplyAll(w, ops[..n]).error.None?
    ensures ApplyAll(w, ops[..n + 1]) == ApplyOne(ApplyAll(w, ops[..n]).world, ops[n])
  {
    assert ops[..n + 1][..n] == ops[..n];
  }

  /** Additions first, then updates, then everything else. */
  function Rank(op: Operation): int {
    match op.kind
    case OpAdd => 0
    case OpUpdate => 1
    case _ => 2
  }

  /** The router state found by a verification. */
  datatype Snapshot = Snapshot(version: nat, state: RouterState)

  /** The highest version, or 0. */
  function Highest(snapshots: seq<Snapshot>): (v: nat)
    ensures forall s | s in snapshots :: s.version <= v
    ensures snapshots != [] ==> exists s | s in snapshots :: s.version == v
    ensures snapshots == [] ==> v == 0
  {
    if snapshots == [] then 0
    else
      var last := snapshots[|snapshots| - 1];
      assert snapshots == snapshots[..|snapshots| - 1] + [last];
      var before := Highest(snapshots[..|snapshots| - 1]);
      if before < last.version then last.version else before
  }

  /** The operations of a plan that are not no-ops, in order. */
  function Differences(ops: seq<Operation>): (r: seq<Operation>)
    ensures forall op :: op in r <==> op in ops && op.kind != OpNoop
  {
    if ops == [] then []
    else
      var op := ops[|ops| - 1];
      assert ops == ops[..|ops| - 1] + [op];
      Differences(ops[..|ops| - 1]) + if op.kind != OpNoop then [op] else []
  }

  /** The rows a worker keeps about one NAS. */
  class NasRecord {
    var objects: map<string, RemoteObject>
    var snapshots: seq<Snapshot>
    var verified: bool

    constructor ()
      ensures objects == map[] && snapshots == [] && !verified
    {
      objects, snapshots, verified := map[], [], false;
    }

    method UpsertRemoteObject(id: string, assignmentId: string, v: RadiusValues)
      modifies this`objects
      ensures objects == Upserted(old(objects), id, assignmentId, v)
    {
      if id in objects {
        objects :=
          objects[id := objects[id].(assignmentId := assignmentId, observed := v, ownership := BackendManaged)];
      } else {
        objects := objects[id := RemoteObject(assignmentId, v, BackendManaged)];
      }
    }

    method DropRemoteObject(id: string)
      modifies this`objects
      ensures objects == old(objects) - {id}
    {
      if id in objects {
        objects := objects - {id};
      }
    }
  }

  ghost function WorldOf(router: FakeRouter, nas: NasRecord): World
    reads router, nas
  {
    World(router.State(), nas.objects)
  }

  method ApplyOperation(router: FakeRouter, nas: NasRecord, op: Operation) returns (error: Option<string>)
    modifies router, nas`objects
    ensures Outcome(WorldOf(router, nas), error) == ApplyOne(old(WorldOf(router, nas)), op)
  {
    error := None;
    match op
    case Operation(OpNoop, _) =>
    case Operation(OpAdd, RadiusAssignment(a, _, v)) =>
      var id;
      id, error := router.CreateRadiusEntry(v);
      if error.None? {
        nas.UpsertRemoteObject(id, a, v);
      }
    case Operation(OpUpdate, RadiusAssignment(a, id, v)) =>
      if id.None? {
        return Some("INVALID_RESPONSE");
      }
      error := router.UpdateRadiusEntry(id.value, v);
      if error.None? {
        nas.UpsertRemoteObject(id.value, a, v);
      }
    case Operation(OpRemove, RadiusRemoval(id, _)) =>
      router.RemoveRadiusEntry(id);
      nas.DropRemoteObject(id);
    case Operation(OpUpdate, PppTarget(v)) => router.ConfigurePppAaa(v);
    case Operation(OpUpdate, UserTarget(v)) => router.ConfigureUserAaa(v);
    case Operation(OpUpdate, HotspotTarget(name, v)) => error := router.ConfigureHotspotRadius(name, v);
    case Operation(OpUpdate, IncomingTarget(v)) => error := router.ConfigureRadiusIncoming(v);
    case _ =>
  }

  method ApplyOperations(router: FakeRouter, nas: NasRecord, operations: seq<Operation>) returns (error: Option<string>)
    modifies router, nas`objects
    ensures Outcome(WorldOf(router, nas), error) == ApplyAll(old(WorldOf(router, nas)), StableSort(operations, Rank))
  {
    var ordered := StableSort(operations, Rank);
    ghost var start := WorldOf(router, nas);
    error := None;
    for n := 0 to |ordered|
      invariant error.None?
      invariant Outcome(WorldOf(router, nas), None) == ApplyAll(start, ordered[..n])
    {
      ApplyNext(start, ordered, n);
      error := ApplyOperation(router, nas, ordered[n]);
      if error.Some? {
        ErrorStops(start, ordered, n + 1);
        return;
      }
    }
    assert ordered[..|ordered|] == ordered;
  }

  /** Every planned operation is a no-op. */
  ghost predicate AllNoops(ops: seq<Operation>) {
    forall op | op in ops :: op.kind == OpNoop
  }

  lemma NoDifferencesIff(ops: seq<Operation>)
    ensures Differences(ops) == [] <==> AllNoops(ops)
  {
    if Differences(ops) != [] {
      assert Differences(ops)[0] in Differences(ops);
    }
  }

  method CollectDifferences(ops: seq<Operation>) returns (differences: seq<Operation>)
    ensures differences == Differences(ops)
  {
    differences := [];
    for n := 0 to |ops|
      invariant differences == Differences(ops[..n])
    {
      assert ops[..n + 1][..n] == ops[..n];
      if ops[n].kind != OpNoop {
        differences := differences + [ops[n]];
      }
    }
    assert ops[..|ops|] == ops;
  }

  method PlanDifferences(
    current: RouterState, d: DesiredState, managed: set<string>, caps: Capabilities, interimMax: int)
    returns (differences: seq<Operation>)
    ensures differences == Differences(PlanOperations(current, d, managed))
  {
    var plan := ComputePlan(current, d, managed, caps, interimMax);
    differences := CollectDifferences(plan.operations);
  }

  method VerifyNasConfiguration(
    router: FakeRouter, nas: NasRecord, d: DesiredState, managed: set<string>, caps: Capabilities, interimMax: int)
    returns (matched: bool, differences: seq<Operation>)
    modifies nas`snapshots, nas`verified
    ensures matched <==> AllNoops(PlanOperations(router.State(), d, managed))
    ensures differences == Differences(PlanOperations(router.State(), d, managed))
    ensures nas.snapshots == old(nas.snapshots) + [Snapshot(Highest(old(nas.snapshots)) + 1, router.State())]
    ensures nas.verified == (old(nas.verified) || matched)
  {
    var current := router.GetRelevantServiceState();
    differences := PlanDifferences(current, d, managed, caps, interimMax);
    matched := differences == [];
    NoDifferencesIff(PlanOperations(current, d, managed));
    nas.snapshots := nas.snapshots + [Snapshot(Highest(nas.snapshots) + 1, current)];
    if matched {
      nas.verified := true;
    }
  }
}
