/** Staged rotation of an assignment's shared secret: services/aaa-service/app/nas_rotation.py with the
    SECRET_ROTATION table of services/aaa-service/app/nas_lifecycle.py and the commits of the callers in
    services/aaa-service/app/main.py. Encryption is symbolic. */
module Rotation {
  import opened Common

  /* ---- symbolic encryption ---- */

  datatype Ciphertext = Ciphertext(plain: string, nonce: nat)

  function Encrypt(secret: string, nonce: nat): Ciphertext {
    Ciphertext(secret, nonce)
  }

  function Decrypt(c: Ciphertext): string {
    c.plain
  }

  /* ---- state machine ---- */

  datatype Stage =
    | Draft
    | NewSecretGenerated
    | AwaitingFreeRadius
    | FreeRadiusConfirmed
    | RouterUpdatePending
    | RouterUpdated
    | Verifying
    | Active
    | RollbackPending
    | RolledBack
    | Failed

  function Targets(stage: Stage): set<Stage> {
    match stage
    case Draft => {NewSecretGenerated, Failed}
    case NewSecretGenerated => {AwaitingFreeRadius, Draft, Failed}
    case AwaitingFreeRadius => {FreeRadiusConfirmed, Draft, Failed}
    case FreeRadiusConfirmed => {RouterUpdatePending, RollbackPending, Failed}
    case RouterUpdatePending => {RouterUpdated, RollbackPending, Failed}
    case RouterUpdated => {Verifying, RollbackPending, Failed}
    case Verifying => {Active, RollbackPending, Failed}
    case RollbackPending => {RolledBack, Failed}
    case _ => {}
  }

  /** `_transition`: the target, or the ValueError. */
  function Transition(current: Stage, target: Stage): (r: Option<Stage>) {
    if target in Targets(current) then Some(target) else None
  }

  /* ---- data ---- */

  datatype Rotation = Rotation(
    stage: Stage,
    oldSecret: Option<Ciphertext>,
    oldVersion: Option<nat>,
    newSecret: Ciphertext,
    newVersion: nat,
    confirmations: map<string, int>,
    completedAt: Option<int>,
    rollbackUntil: Option<int>)

  datatype Package = Package(rotation: nat, token: string, secret: Ciphertext, expires: int, accessed: Option<int>)

  datatype Assignment = Assignment(secret: Ciphertext, version: nat, remoteId: string, applied: bool)

  /** A RADIUS entry of the router with the secret the router keeps for it. */
  datatype Entry = Entry(remoteId: string, address: string, secret: string)

  /** The database record, the packages and the router. `server` is the address of the assignment's server. */
  datatype System = System(
    server: string,
    assignment: Assignment,
    rotations: seq<Rotation>,
    packages: seq<Package>,
    router: seq<Entry>)

  const REVEAL_TTL_SECONDS := 600
  const ROLLBACK_WINDOW_SECONDS := 3600

  /** How a router call ends. `LostReply` and `Crash` come after the router has taken the new secret; a crash also
      loses the commit that would have followed. */
  datatype Call = Replies | Unreached | LostReply | Crash

  /* ---- router ---- */

  /** The first entry of an address. */
  function IdOf(router: seq<Entry>, address: string): Option<string> {
    if router == [] then None
    else if router[0].address == address then Some(router[0].remoteId)
    else IdOf(router[1..], address)
  }

  function Locate(s: System): Option<string> {
    if s.assignment.remoteId != "" then Some(s.assignment.remoteId) else IdOf(s.router, s.server)
  }

  function SecretOf(router: seq<Entry>, id: string): Option<string> {
    if router == [] then None
    else if router[0].remoteId == id then Some(router[0].secret)
    else SecretOf(router[1..], id)
  }

  /** Sets the secret of the first entry with this id; without one nothing changes. */
  function SetSecret(router: seq<Entry>, id: string, secret: string): seq<Entry> {
    if router == [] then []
    else if router[0].remoteId == id then [router[0].(secret := secret)] + router[1..]
    else [router[0]] + SetSecret(router[1..], id, secret)
  }

  /** What the router uses for the assignment. */
  function RouterSecret(s: System): Option<string> {
    if Locate(s).None? then None else SecretOf(s.router, Locate(s).value)
  }

  lemma {:induction false} SetSecretSets(router: seq<Entry>, id: string, secret: string, address: string)
    ensures SecretOf(SetSecret(router, id, secret), id) == if SecretOf(router, id).Some? then Some(secret) else None
    ensures forall other :: other != id ==> SecretOf(SetSecret(router, id, secret), other) == SecretOf(router, other)
    ensures IdOf(SetSecret(router, id, secret), address) == IdOf(router, address)
  {
    if router != [] && router[0].remoteId != id {
      SetSecretSets(router[1..], id, secret, address);
      assert ([router[0]] + SetSecret(router[1..], id, secret))[1..] == SetSecret(router[1..], id, secret);
    }
  }

  /** Did the router take the secret? */
  predicate Effective(s: System, call: Call) {
    RouterSecret(s).Some? && call != Unreached
  }

  /** Does the caller see the call succeed? */
  predicate Answered(s: System, call: Call) {
    RouterSecret(s).Some? && call == Replies
  }

  function Written(s: System, secret: string, call: Call): System {
    if Effective(s, call) then s.(router := SetSecret(s.router, Locate(s).value, secret)) else s
  }

  lemma WrittenSets(s: System, secret: string, call: Call)
    ensures RouterSecret(Written(s, secret, call)) == if Effective(s, call) then Some(secret) else RouterSecret(s)
    ensures Written(s, secret, call) == s.(router := Written(s, secret, call).router)
  {
    if Effective(s, call) {
      SetSecretSets(s.router, Locate(s).value, secret, s.server);
    }
  }

  /* ---- steps: what is committed, and what the router holds ---- */

  datatype Step =
    | Start(secret: string, oldNonce: nat, newNonce: nat, token: string, now: int)
    | RevealSecret(i: nat, token: string, now: int)
    | Confirm(i: nat, actor: string, now: int)
    | Apply(i: nat, call: Call)
    | Verify(i: nat, now: int)
    | Rollback(i: nat, adapter: Option<Call>)
    | Expire(i: nat)

  function StageOf(s: System, i: nat): Stage {
    if i < |s.rotations| then s.rotations[i].stage else Failed
  }

  function WithStage(s: System, i: nat, stage: Stage): System {
    if i < |s.rotations| then s.(rotations := s.rotations[i := s.rotations[i].(stage := stage)]) else s
  }

  /** `rotate-secret`: the rotation and its one-time package in one commit; a token in use refuses the insert. */
  function AfterStart(s: System, secret: string, oldNonce: nat, newNonce: nat, token: string, now: int): System {
    if TokenTaken(s.packages, token) then s
    else
      var old_ := Some(Encrypt(Decrypt(s.assignment.secret), oldNonce));
      var r := Rotation(AwaitingFreeRadius, old_, Some(s.assignment.version),
                        Encrypt(secret, newNonce), s.assignment.version + 1, map[], None, None);
      s.(rotations := s.rotations + [r],
         packages := s.packages + [Package(|s.rotations|, token, r.newSecret, now + REVEAL_TTL_SECONDS, None)])
  }

  predicate TokenTaken(packages: seq<Package>, token: string) {
    exists k | 0 <= k < |packages| :: packages[k].token == token
  }

  function FindPackage(packages: seq<Package>, i: nat, token: string): (k: nat)
    ensures k <= |packages|
    ensures k < |packages| ==> packages[k].rotation == i && packages[k].token == token
    ensures forall j | 0 <= j < k :: packages[j].rotation != i || packages[j].token != token
  {
    if packages == [] then 0
    else if packages[0].rotation == i && packages[0].token == token then 0
    else
      var k := FindPackage(packages[1..], i, token);
      assert forall j | 1 <= j < k + 1 :: packages[j] == packages[1..][j - 1];
      k + 1
  }

  predicate Revealable(s: System, i: nat, token: string, now: int) {
    var k := FindPackage(s.packages, i, token);
    k < |s.packages| && s.packages[k].accessed.None? && now <= s.packages[k].expires
  }

  /** What a reveal answers. */
  function RevealAnswer(s: System, i: nat, token: string, now: int): Option<string> {
    if Revealable(s, i, token, now) then Some(Decrypt(s.packages[FindPackage(s.packages, i, token)].secret)) else None
  }

  function AfterReveal(s: System, i: nat, token: string, now: int): System {
    if Revealable(s, i, token, now) then
      var k := FindPackage(s.packages, i, token);
      s.(packages := s.packages[k := s.packages[k].(accessed := Some(now))])
    else s
  }

  function AfterConfirm(s: System, i: nat, actor: string, now: int): System {
    if i < |s.rotations| && Transition(s.rotations[i].stage, FreeRadiusConfirmed).Some? then
      var r := s.rotations[i];
      s.(rotations := s.rotations[i := r.(stage := FreeRadiusConfirmed,
                                          confirmations := r.confirmations[actor := now])])
    else s
  }

  /** No entry to write: nothing is committed. An adapter error commits the pending stage. */
  function AfterApply(s: System, i: nat, call: Call): System {
    if i >= |s.rotations| || Transition(s.rotations[i].stage, RouterUpdatePending).None? || Locate(s).None? then s
    else
      var t := Written(s, Decrypt(s.rotations[i].newSecret), call);
      if call == Crash then t
      else if Answered(s, call) then WithStage(t, i, Verifying)
      else WithStage(t, i, RouterUpdatePending)
  }

  function AfterVerify(s: System, i: nat, now: int): System {
    if i >= |s.rotations| || Transition(s.rotations[i].stage, Active).None? then s
    else
      var r := s.rotations[i];
      s.(rotations := s.rotations[i := r.(stage := Active, completedAt := Some(now),
                                          rollbackUntil := Some(now + ROLLBACK_WINDOW_SECONDS))],
         assignment := s.assignment.(secret := r.newSecret, version := r.newVersion, applied := true))
  }

  /** `version or 1`: None and 0 are falsy. */
  function VersionOrOne(version: Option<nat>): nat {
    if version.None? || version.value == 0 then 1 else version.value
  }

  /** The record goes back to the old secret, if one is kept. */
  function Restored(s: System, i: nat): System {
    if i >= |s.rotations| then s
    else
      var r := s.rotations[i];
      var t := WithStage(s, i, RolledBack);
      if r.oldSecret.None? then t
      else t.(assignment := t.assignment.(secret := r.oldSecret.value,
                                          version := VersionOrOne(r.oldVersion)))
  }

  /** Any failure of the router call commits nothing. Without an adapter the router is left alone. */
  function AfterRollback(s: System, i: nat, call: Option<Call>): System {
    if i >= |s.rotations| || Transition(s.rotations[i].stage, RollbackPending).None? then s
    else if call.None? then Restored(s, i)
    else if Locate(s).None? || s.rotations[i].oldSecret.None? then s
    else
      var t := Written(s, Decrypt(s.rotations[i].oldSecret.value), call.value);
      if Answered(s, call.value) then Restored(t, i) else t
  }

  function AfterExpire(s: System, i: nat): System {
    if StageOf(s, i) != Active then s
    else if i < |s.rotations|
      then s.(rotations := s.rotations[i := s.rotations[i].(oldSecret := None, oldVersion := None)])
    else s
  }

  function Next(s: System, step: Step): System {
    match step
    case Start(secret, oldNonce, newNonce, token, now) => AfterStart(s, secret, oldNonce, newNonce, token, now)
    case RevealSecret(i, token, now) => AfterReveal(s, i, token, now)
    case Confirm(i, actor, now) => AfterConfirm(s, i, actor, now)
    case Apply(i, call) => AfterApply(s, i, call)
    case Verify(i, now) => AfterVerify(s, i, now)
    case Rollback(i, call) => AfterRollback(s, i, call)
    case Expire(i) => AfterExpire(s, i)
  }

  function RunFrom(s: System, steps: seq<Step>): System {
    if steps == [] then s else Next(RunFrom(s, steps[..|steps| - 1]), steps[|steps| - 1])
  }

  /* ---- runs ---- */

  predicate Closed(r: Rotation) {
    r.stage == Active || r.stage == RolledBack
  }

  /** The router holds the secret of the record. */
  predicate InSync(s: System) {
    RouterSecret(s) == Some(Decrypt(s.assignment.secret))
  }

  /** No rotation yet; the router may hold any secret, or have no entry at all. */
  predicate Fresh(s: System) {
    s.rotations == [] && s.assignment.version >= 1
  }

  predicate Initial(s: System) {
    Fresh(s) && InSync(s)
  }

  /** One open rotation at a time with a fresh secret, and rollbacks through an adapter. */
  predicate Tidy(s: System, step: Step) {
    && (step.Start? ==> (forall r | r in s.rotations :: Closed(r)) && step.secret != Decrypt(s.assignment.secret))
    && (step.Rollback? ==> step.adapter.Some?)
  }

  /** A rollback of a router in verification that took effect without being recorded. */
  predicate LostRollback(s: System, step: Step) {
    step.Rollback? && step.adapter.Some? && StageOf(s, step.i) == Verifying && Effective(s, step.adapter.value)
      && !Answered(s, step.adapter.value)
  }

  predicate BeginsRotation(s: System, step: Step) {
    step.Start? && !TokenTaken(s.packages, step.token)
  }

  /** Was there a lost rollback since the last rotation began? */
  predicate Lost(s: System, steps: seq<Step>) {
    if steps == [] then false
    else
      var n := |steps| - 1;
      var t := RunFrom(s, steps[..n]);
      if BeginsRotation(t, steps[n]) then false
      else Lost(s, steps[..n]) || LostRollback(t, steps[n])
  }

  /** Tidy steps, and new secrets that the router does not hold already. */
  predicate TidyRun(s: System, steps: seq<Step>) {
    if steps == [] then true
    else
      var n := |steps| - 1;
      TidyRun(s, steps[..n]) && TidyStep(RunFrom(s, steps[..n]), steps[n])
  }

  predicate TidyStep(s: System, step: Step) {
    Tidy(s, step) && (step.Start? ==> RouterSecret(s) != Some(step.secret))
  }

  /** A tidy run without lost rollbacks. */
  predicate CleanRun(s: System, steps: seq<Step>) {
    if steps == [] then true
    else
      var n := |steps| - 1;
      var t := RunFrom(s, steps[..n]);
      CleanRun(s, steps[..n]) && Tidy(t, steps[n]) && !LostRollback(t, steps[n])
  }

  /* ---- the invariant ---- */

  /** An open rotation: the record still has the old secret, the router has the new one only after a confirmation, and
      in verification it has the new one, or the old one after a lost rollback. */
  predicate OpenFits(s: System, r: Rotation, lost: bool) {
    && r.stage in {AwaitingFreeRadius, FreeRadiusConfirmed, RouterUpdatePending, Verifying}
    && r.oldSecret.Some? && r.oldVersion == Some(s.assignment.version)
    && Decrypt(r.oldSecret.value) == Decrypt(s.assignment.secret)
    && r.newVersion == s.assignment.version + 1
    && Decrypt(r.newSecret) != Decrypt(r.oldSecret.value)
    && (if r.stage == AwaitingFreeRadius then RouterSecret(s) != Some(Decrypt(r.newSecret))
        else r.confirmations != map[])
    && (if r.stage == Verifying then RouterSecret(s) == Some(Decrypt(if lost then r.oldSecret.value else r.newSecret))
        else !lost)
  }

  /** The last rotation is closed: its outcome is what the record says, and the router agrees unless it strayed. */
  predicate ClosedFits(s: System, r: Rotation, lost: bool) {
    && r.confirmations != map[]
    && (r.stage == Active ==>
          && s.assignment.secret == r.newSecret && s.assignment.version == r.newVersion
          && (r.oldVersion.Some? ==> r.newVersion == r.oldVersion.value + 1)
          && (InSync(s) <==> !lost)
          && (lost && r.oldSecret.Some? ==> RouterSecret(s) == Some(Decrypt(r.oldSecret.value))))
    && (r.stage == RolledBack ==>
          && Some(s.assignment.secret) == r.oldSecret && Some(s.assignment.version) == r.oldVersion
          && InSync(s))
  }

  predicate Inv(s: System, lost: bool) {
    && s.assignment.version >= 1
    && (forall i | 0 <= i < |s.rotations| - 1 :: Closed(s.rotations[i]))
    && (s.rotations != [] ==>
          var r := s.rotations[|s.rotations| - 1];
          if Closed(r) then ClosedFits(s, r, lost) else OpenFits(s, r, lost))
  }

  predicate StrayedBy(s: System, step: Step, lost: bool) {
    if BeginsRotation(s, step) then false else lost || LostRollback(s, step)
  }

  lemma SameRouter(s: System, t: System)
    requires t.router == s.router && t.server == s.server && t.assignment.remoteId == s.assignment.remoteId
    ensures RouterSecret(t) == RouterSecret(s)
  {}

  lemma StartKeepsInv(s: System, step: Step, lost: bool)
    requires Inv(s, lost) && step.Start? && TidyStep(s, step)
    ensures Inv(Next(s, step), StrayedBy(s, step, lost))
  {
    var t := Next(s, step);
    SameRouter(s, t);
    forall i | 0 <= i < |t.rotations| - 1
      ensures Closed(t.rotations[i])
    {
      assert t.rotations[i] == s.rotations[i] || t.rotations == s.rotations;
    }
  }

  /** Only the last rotation may be open. */
  lemma OpenIsLast(s: System, i: nat, lost: bool)
    requires Inv(s, lost) && i < |s.rotations| && !Closed(s.rotations[i])
    ensures i == |s.rotations| - 1 && OpenFits(s, s.rotations[i], lost)
  {}

  lemma ConfirmKeepsInv(s: System, i: nat, actor: string, now: int, lost: bool)
    requires Inv(s, lost)
    ensures Inv(AfterConfirm(s, i, actor, now), lost)
  {
    var t := AfterConfirm(s, i, actor, now);
    SameRouter(s, t);
    if i < |s.rotations| && s.rotations[i].stage == AwaitingFreeRadius {
      OpenIsLast(s, i, lost);
      assert actor in t.rotations[i].confirmations;
    }
  }

  lemma VerifyKeepsInv(s: System, i: nat, now: int, lost: bool)
    requires Inv(s, lost)
    ensures Inv(AfterVerify(s, i, now), lost)
  {
    SameRouter(s, AfterVerify(s, i, now));
    if i < |s.rotations| && s.rotations[i].stage == Verifying {
      OpenIsLast(s, i, lost);
    }
  }

  lemma ExpireKeepsInv(s: System, i: nat, lost: bool)
    requires Inv(s, lost)
    ensures Inv(AfterExpire(s, i), lost)
  {
    SameRouter(s, AfterExpire(s, i));
  }

  /** The router takes the new secret, or not, while the rotation stays confirmed. */
  lemma WrittenFits(s: System, r: Rotation, call: Call)
    requires OpenFits(s, r, false) && r.stage == FreeRadiusConfirmed
    ensures var t := Written(s, Decrypt(r.newSecret), call);
      && OpenFits(t, r, false) && OpenFits(t, r.(stage := RouterUpdatePending), false)
      && (Effective(s, call) ==> OpenFits(t, r.(stage := Verifying), false))
  {
    WrittenSets(s, Decrypt(r.newSecret), call);
  }

  /** The last rotation is replaced by an open one that fits. */
  lemma OpenLast(s: System, t: System, r: Rotation, lost: bool)
    requires s.rotations != [] && s.assignment.version >= 1
    requires forall i | 0 <= i < |s.rotations| - 1 :: Closed(s.rotations[i])
    requires OpenFits(s, r, lost)
    requires t == s.(rotations := s.rotations[|s.rotations| - 1 := r])
    ensures Inv(t, lost)
  {
    SameRouter(s, t);
  }

  lemma ApplyKeepsInv(s: System, i: nat, call: Call, lost: bool)
    requires Inv(s, lost)
    ensures Inv(AfterApply(s, i, call), lost)
  {
    if i < |s.rotations| && s.rotations[i].stage == FreeRadiusConfirmed && Locate(s).Some? {
      OpenIsLast(s, i, lost);
      ConfirmedApplyKeepsInv(s, s.rotations[i], call);
    }
  }

  lemma ConfirmedApplyKeepsInv(s: System, r: Rotation, call: Call)
    requires Inv(s, false) && s.rotations != [] && r == s.rotations[|s.rotations| - 1]
    requires r.stage == FreeRadiusConfirmed && Locate(s).Some?
    ensures Inv(AfterApply(s, |s.rotations| - 1, call), false)
  {
    var t := Written(s, Decrypt(r.newSecret), call);
    WrittenFits(s, r, call);
    WrittenSets(s, Decrypt(r.newSecret), call);
    if call == Crash {
      assert t == t.(rotations := t.rotations[|s.rotations| - 1 := r]);
      OpenLast(t, t, r, false);
    } else {
      var stage := if Answered(s, call) then Verifying else RouterUpdatePending;
      OpenLast(t, WithStage(t, |s.rotations| - 1, stage), r.(stage := stage), false);
    }
  }

  lemma RollbackKeepsInv(s: System, i: nat, call: Call, lost: bool)
    requires Inv(s, lost)
    ensures Inv(AfterRollback(s, i, Some(call)), lost || LostRollback(s, Rollback(i, Some(call))))
  {
    if i < |s.rotations| && Transition(s.rotations[i].stage, RollbackPending).Some? && Locate(s).Some? {
      var secret := Decrypt(s.rotations[i].oldSecret.value);
      var t := Written(s, secret, call);
      WrittenSets(s, secret, call);
      SameRouter(t, AfterRollback(s, i, Some(call)));
    }
  }

  lemma StepKeepsInv(s: System, step: Step, lost: bool)
    requires Inv(s, lost) && TidyStep(s, step)
    ensures Inv(Next(s, step), StrayedBy(s, step, lost))
  {
    match step
    case Start(_, _, _, _, _) => StartKeepsInv(s, step, lost);
    case Apply(i, call) => ApplyKeepsInv(s, i, call, lost);
    case Rollback(i, call) => RollbackKeepsInv(s, i, call.value, lost);
    case Confirm(i, actor, now) => ConfirmKeepsInv(s, i, actor, now, lost);
    case Verify(i, now) => VerifyKeepsInv(s, i, now, lost);
    case Expire(i) => ExpireKeepsInv(s, i, lost);
    case RevealSecret(_, _, _) => SameRouter(s, Next(s, step));
  }

  lemma {:induction false} RunKeepsInv(s: System, steps: seq<Step>)
    requires Fresh(s) && TidyRun(s, steps)
    ensures Inv(RunFrom(s, steps), Lost(s, steps))
  {
    if steps != [] {
      var n := |steps| - 1;
      RunKeepsInv(s, steps[..n]);
      StepKeepsInv(RunFrom(s, steps[..n]), steps[n], Lost(s, steps[..n]));
    }
  }

  /* ---- agreement ---- */

  /** The outcome of the last rotation. Active: a confirmation is recorded, the record has the new secret one version
      up, and the router has it exactly when no rollback was lost. Rolled back: record and router have the old secret,
      and the record the old version. */
  predicate Settled(s: System, r: Rotation, lost: bool) {
    && (r.stage == Active ==>
          && s.assignment.secret == r.newSecret && s.assignment.version == r.newVersion && r.confirmations != map[]
          && (r.oldVersion.Some? ==> s.assignment.version == r.oldVersion.value + 1)
          && (RouterSecret(s) == Some(Decrypt(r.newSecret)) <==> !lost))
    && (r.stage == RolledBack ==>
          && r.oldSecret == Some(s.assignment.secret) && r.oldVersion == Some(s.assignment.version)
          && RouterSecret(s) == Some(Decrypt(s.assignment.secret)))
  }

  /** Router and record agree after the last rotation exactly when it was rolled back or no rollback was lost. */
  predicate InStep(s: System, r: Rotation, lost: bool) {
    Closed(r) ==> (InSync(s) <==> r.stage == RolledBack || !lost)
  }

  predicate ConfirmedIfNew(s: System, r: Rotation) {
    RouterSecret(s) == Some(Decrypt(r.newSecret)) ==> r.confirmations != map[]
  }

  lemma LastOutcome(s: System, lost: bool)
    requires Inv(s, lost) && s.rotations != []
    ensures var r := s.rotations[|s.rotations| - 1]; Settled(s, r, lost) && InStep(s, r, lost) && ConfirmedIfNew(s, r)
  {}

  function LastRotation(s: System): Rotation
    requires s.rotations != []
  {
    s.rotations[|s.rotations| - 1]
  }

  /** The router takes the new secret only after a confirmation was recorded. */
  lemma {:induction false} ConfirmedBeforeRouter(s: System, steps: seq<Step>)
    requires Fresh(s) && TidyRun(s, steps) && RunFrom(s, steps).rotations != []
    ensures ConfirmedIfNew(RunFrom(s, steps), LastRotation(RunFrom(s, steps)))
  {
    RunKeepsInv(s, steps);
    LastOutcome(RunFrom(s, steps), Lost(s, steps));
  }

  /** The outcome of every rotation of a tidy run, also of one that began while router and record disagreed. */
  lemma Agreement(s: System, steps: seq<Step>)
    requires Fresh(s) && TidyRun(s, steps) && RunFrom(s, steps).rotations != []
    ensures var t := RunFrom(s, steps); var r := t.rotations[|t.rotations| - 1];
      && (r.stage == Active ==>
            && t.assignment.secret == r.newSecret && t.assignment.version == r.newVersion && r.confirmations != map[]
            && (r.oldVersion.Some? ==> t.assignment.version == r.oldVersion.value + 1)
            && (RouterSecret(t) == Some(Decrypt(r.newSecret)) <==> !Lost(s, steps)))
      && (r.stage == RolledBack ==>
            && r.oldSecret == Some(t.assignment.secret) && r.oldVersion == Some(t.assignment.version)
            && RouterSecret(t) == Some(Decrypt(t.assignment.secret)))
  {
    RunKeepsInv(s, steps);
    LastOutcome(RunFrom(s, steps), Lost(s, steps));
  }

  /** A rotation restores agreement, whatever it began with: after it closes, router and record agree exactly when it
      was rolled back or no rollback was lost since it began. */
  lemma RotationRestores(s: System, steps: seq<Step>)
    requires Fresh(s) && TidyRun(s, steps) && RunFrom(s, steps).rotations != []
    ensures var t := RunFrom(s, steps); var r := t.rotations[|t.rotations| - 1];
      r.stage in {Active, RolledBack} ==>
        (RouterSecret(t) == Some(Decrypt(t.assignment.secret)) <==> r.stage == RolledBack || !Lost(s, steps))
  {
    RunKeepsInv(s, steps);
    LastOutcome(RunFrom(s, steps), Lost(s, steps));
  }

  /** What runs without lost rollbacks keep. */
  predicate Clean(s: System) {
    (forall r | r in s.rotations :: Closed(r)) ==> InSync(s)
  }

  /** Without lost rollbacks every rotation of a run, however many, begins and ends with router and record in
      agreement. */
  lemma {:induction false} CleanRunsAgree(s: System, steps: seq<Step>)
    requires Initial(s) && CleanRun(s, steps)
    ensures TidyRun(s, steps) && !Lost(s, steps)
    ensures Clean(RunFrom(s, steps))
  {
    if steps != [] {
      var n := |steps| - 1;
      CleanRunsAgree(s, steps[..n]);
      RunKeepsInv(s, steps);
      var t := RunFrom(s, steps);
      if t.rotations != [] {
        LastOutcome(t, false);
        assert LastRotation(t) in t.rotations;
      } else {
        NoRotationYet(s, steps);
      }
    }
  }

  /** Without a rotation nothing has happened to the router or the record. */
  lemma {:induction false} NoRotationYet(s: System, steps: seq<Step>)
    requires RunFrom(s, steps).rotations == []
    ensures RunFrom(s, steps).router == s.router && RunFrom(s, steps).assignment == s.assignment
    ensures RunFrom(s, steps).server == s.server && s.rotations == []
  {
    if steps != [] {
      RotationsStay(RunFrom(s, steps[..|steps| - 1]), steps[|steps| - 1]);
      NoRotationYet(s, steps[..|steps| - 1]);
    }
  }

  lemma RotationsStay(s: System, step: Step)
    ensures |s.rotations| <= |Next(s, step).rotations| && Next(s, step).server == s.server
    ensures s.rotations == [] ==> Next(s, step).router == s.router && Next(s, step).assignment == s.assignment
  {}

  /** A first rotation whose calls all succeed reaches verification with the new secret on the router. */
  lemma ReachesVerification(s: System, secret: string, oldNonce: nat, newNonce: nat, token: string, actor: string,
                            now: int)
    requires Fresh(s) && RouterSecret(s).Some? && s.packages == []
    requires secret != Decrypt(s.assignment.secret) && RouterSecret(s) != Some(secret)
    ensures var started := Next(s, Start(secret, oldNonce, newNonce, token, now));
      var t := Next(Next(started, Confirm(0, actor, now)), Apply(0, Replies));
      && Inv(t, false) && |t.rotations| == 1 && StageOf(t, 0) == Verifying
      && RouterSecret(t) == Some(secret) && Decrypt(t.rotations[0].newSecret) == secret
  {
    var s1 := Next(s, Start(secret, oldNonce, newNonce, token, now));
    StartAdds(s, secret, oldNonce, newNonce, token, now);
    PushedVerifies(s1, 0, actor, now);
    StartKeepsInv(s, Start(secret, oldNonce, newNonce, token, now), false);
    ConfirmKeepsInv(s1, 0, actor, now, false);
    ApplyKeepsInv(Next(s1, Confirm(0, actor, now)), 0, Replies, false);
  }

  /* ---- where agreement fails ---- */

  /** The rollback of a verified update takes effect, its reply is lost, and the rotation is then declared active:
      the record has the new secret, the router the old one. */
  lemma LostRollbackDisagrees(s: System, i: nat, now: int)
    requires Inv(s, false) && StageOf(s, i) == Verifying
    ensures var t := Next(Next(s, Rollback(i, Some(LostReply))), Verify(i, now));
      && t.assignment.secret == t.rotations[i].newSecret && StageOf(t, i) == Active
      && RouterSecret(t) == Some(Decrypt(s.assignment.secret)) && !InSync(t)
  {
    var r := s.rotations[i];
    assert i == |s.rotations| - 1 && OpenFits(s, r, false);
    var u := Next(s, Rollback(i, Some(LostReply)));
    assert u == Written(s, Decrypt(r.oldSecret.value), LostReply);
    WrittenSets(s, Decrypt(r.oldSecret.value), LostReply);
    VerifyAgreesIff(u, i, now);
  }

  /** A rollback without an adapter closes the rotation whatever the router holds: router and record agree afterwards
      exactly when the router had the old secret before. */
  lemma BlindRollback(s: System, i: nat, lost: bool)
    requires Inv(s, lost) && i < |s.rotations| && Transition(s.rotations[i].stage, RollbackPending).Some?
    ensures var t := Next(s, Rollback(i, None));
      && StageOf(t, i) == RolledBack && t.router == s.router
      && (InSync(t) <==> InSync(s))
  {
    assert i == |s.rotations| - 1;
    SameRouter(s, Next(s, Rollback(i, None)));
  }

  /* ---- any number of open rotations ---- */

  function OrElse(a: Option<string>, b: Option<string>): Option<string> {
    if a.Some? then a else b
  }

  /** The secret a step makes the router take, if any. */
  function WrittenBy(s: System, step: Step): Option<string> {
    match step
    case Apply(i, call) =>
      if StageOf(s, i) == FreeRadiusConfirmed && i < |s.rotations| && Effective(s, call)
      then Some(Decrypt(s.rotations[i].newSecret)) else None
    case Rollback(i, Some(call)) =>
      if i < |s.rotations| && RollbackPending in Targets(s.rotations[i].stage) && s.rotations[i].oldSecret.Some?
          && Effective(s, call)
      then Some(Decrypt(s.rotations[i].oldSecret.value)) else None
    case _ => None
  }

  /** The secret a step makes the record take over, if any. */
  function TakenBy(s: System, step: Step): Option<string> {
    match step
    case Verify(i, _) =>
      if i < |s.rotations| && s.rotations[i].stage == Verifying then Some(Decrypt(s.rotations[i].newSecret)) else None
    case Rollback(i, call) =>
      if i < |s.rotations| && RollbackPending in Targets(s.rotations[i].stage) && s.rotations[i].oldSecret.Some?
         && (call.Some? ==> Answered(s, call.value))
      then Some(Decrypt(s.rotations[i].oldSecret.value)) else None
    case _ => None
  }

  /** The last secret a run made the router take; at first what it had. */
  function LastWritten(s: System, steps: seq<Step>): Option<string> {
    if steps == [] then RouterSecret(s)
    else
      var n := |steps| - 1;
      var written := WrittenBy(RunFrom(s, steps[..n]), steps[n]);
      if written.Some? then written else LastWritten(s, steps[..n])
  }

  /** The last secret a run made the record take over; at first what it had. */
  function LastTaken(s: System, steps: seq<Step>): string {
    if steps == [] then Decrypt(s.assignment.secret)
    else
      var n := |steps| - 1;
      var taken := TakenBy(RunFrom(s, steps[..n]), steps[n]);
      if taken.Some? then taken.value else LastTaken(s, steps[..n])
  }

  lemma ApplyWrites(s: System, i: nat, call: Call)
    ensures RouterSecret(AfterApply(s, i, call)) == OrElse(WrittenBy(s, Apply(i, call)), RouterSecret(s))
    ensures AfterApply(s, i, call).assignment == s.assignment
  {
    if i < |s.rotations| && s.rotations[i].stage == FreeRadiusConfirmed && Locate(s).Some? {
      var t := Written(s, Decrypt(s.rotations[i].newSecret), call);
      WrittenSets(s, Decrypt(s.rotations[i].newSecret), call);
      SameRouter(t, AfterApply(s, i, call));
    }
  }

  lemma RollbackWrites(s: System, i: nat, adapter: Option<Call>)
    ensures var t, step := AfterRollback(s, i, adapter), Rollback(i, adapter);
      && RouterSecret(t) == OrElse(WrittenBy(s, step), RouterSecret(s))
      && Some(Decrypt(t.assignment.secret)) == OrElse(TakenBy(s, step), Some(Decrypt(s.assignment.secret)))
  {
    var t := AfterRollback(s, i, adapter);
    if i < |s.rotations| && RollbackPending in Targets(s.rotations[i].stage) {
      if adapter.None? {
        SameRouter(s, t);
      } else if Locate(s).Some? && s.rotations[i].oldSecret.Some? {
        var secret := Decrypt(s.rotations[i].oldSecret.value);
        WrittenSets(s, secret, adapter.value);
        SameRouter(Written(s, secret, adapter.value), t);
      }
    }
  }

  lemma StepWrites(s: System, step: Step)
    ensures RouterSecret(Next(s, step)) == OrElse(WrittenBy(s, step), RouterSecret(s))
    ensures Some(Decrypt(Next(s, step).assignment.secret))
         == OrElse(TakenBy(s, step), Some(Decrypt(s.assignment.secret)))
  {
    match step
    case Apply(i, call) => ApplyWrites(s, i, call);
    case Rollback(i, adapter) => RollbackWrites(s, i, adapter);
    case _ => SameRouter(s, Next(s, step));
  }

  /** In every run whatever, with any number of open rotations: router and record agree exactly when the last secret
      written to the router is the last one the record took over. */
  lemma {:induction false} AgreeIffLast(s: System, steps: seq<Step>)
    ensures RouterSecret(RunFrom(s, steps)) == LastWritten(s, steps)
    ensures Decrypt(RunFrom(s, steps).assignment.secret) == LastTaken(s, steps)
    ensures InSync(RunFrom(s, steps)) <==> LastWritten(s, steps) == Some(LastTaken(s, steps))
  {
    if steps != [] {
      AgreeIffLast(s, steps[..|steps| - 1]);
      StepWrites(RunFrom(s, steps[..|steps| - 1]), steps[|steps| - 1]);
    }
  }

  /** A verification ends in agreement exactly when the router has the secret of the rotation verified. */
  lemma VerifyAgreesIff(s: System, i: nat, now: int)
    requires i < |s.rotations| && s.rotations[i].stage == Verifying
    ensures var t := Next(s, Verify(i, now));
      && t.router == s.router && t.rotations == s.rotations[i := t.rotations[i]] && StageOf(t, i) == Active
      && t.assignment.secret == s.rotations[i].newSecret && t.assignment.version == s.rotations[i].newVersion
      && RouterSecret(t) == RouterSecret(s)
      && (InSync(t) <==> RouterSecret(s) == Some(Decrypt(s.rotations[i].newSecret)))
  {
    SameRouter(s, Next(s, Verify(i, now)));
  }

  lemma StartAdds(s: System, secret: string, n: nat, m: nat, token: string, now: int)
    requires !TokenTaken(s.packages, token)
    ensures var t := Next(s, Start(secret, n, m, token, now)); var k := |s.rotations|;
      && |t.rotations| == k + 1 && t.rotations[..k] == s.rotations
      && t.rotations[k].stage == AwaitingFreeRadius && t.rotations[k].newSecret == Encrypt(secret, m)
      && t.rotations[k].newVersion == s.assignment.version + 1
      && t.assignment == s.assignment && RouterSecret(t) == RouterSecret(s)
  {
    SameRouter(s, Next(s, Start(secret, n, m, token, now)));
  }

  /** A rotation confirmed and applied without failure, whatever other rotations there are. */
  function Pushed(s: System, i: nat, actor: string, now: int): System {
    Next(Next(s, Confirm(i, actor, now)), Apply(i, Replies))
  }

  lemma PushedVerifies(s: System, i: nat, actor: string, now: int)
    requires i < |s.rotations| && s.rotations[i].stage == AwaitingFreeRadius && RouterSecret(s).Some?
    ensures var t := Pushed(s, i, actor, now);
      && |t.rotations| == |s.rotations| && t.rotations == s.rotations[i := t.rotations[i]]
      && t.rotations[i].stage == Verifying && t.rotations[i].newSecret == s.rotations[i].newSecret
      && t.rotations[i].newVersion == s.rotations[i].newVersion
      && t.assignment == s.assignment && RouterSecret(t) == Some(Decrypt(s.rotations[i].newSecret))
  {
    var s1 := Next(s, Confirm(i, actor, now));
    SameRouter(s, s1);
    var secret := Decrypt(s.rotations[i].newSecret);
    WrittenSets(s1, secret, Replies);
    SameRouter(Written(s1, secret, Replies), Next(s1, Apply(i, Replies)));
  }

  /** Nothing refuses a second rotation while one is open. Both then carry the same version, and after both have been
      applied and verified, the record and the router agree exactly when the one applied last was verified last, or
      their secrets are equal. */
  lemma TwoOpenRotations(s: System, a: string, b: string, tokenA: string, tokenB: string, actor: string, now: int)
    requires RouterSecret(s).Some? && tokenA != tokenB && !TokenTaken(s.packages, tokenA)
             && !TokenTaken(s.packages, tokenB)
    ensures var k := |s.rotations|;
      var open := Next(Next(s, Start(a, 0, 1, tokenA, now)), Start(b, 2, 3, tokenB, now));
      var pushed := Pushed(Pushed(open, k, actor, now), k + 1, actor, now);
      var inOrder := Next(Next(pushed, Verify(k, now)), Verify(k + 1, now));
      var crossed := Next(Next(pushed, Verify(k + 1, now)), Verify(k, now));
      && inOrder.assignment.version == crossed.assignment.version == s.assignment.version + 1
      && RouterSecret(inOrder) == RouterSecret(crossed) == Some(b)
      && Decrypt(crossed.assignment.secret) == a
      && InSync(inOrder) && (InSync(crossed) <==> a == b)
  {
    var k := |s.rotations|;
    var pushed := TwoPushed(s, a, b, tokenA, tokenB, actor, now);
    VerifyAgreesIff(pushed, k, now);
    VerifyAgreesIff(Next(pushed, Verify(k, now)), k + 1, now);
    VerifyAgreesIff(pushed, k + 1, now);
    VerifyAgreesIff(Next(pushed, Verify(k + 1, now)), k, now);
  }

  lemma TwoPushed(s: System, a: string, b: string, tokenA: string, tokenB: string, actor: string, now: int)
    returns (t: System)
    requires RouterSecret(s).Some? && tokenA != tokenB && !TokenTaken(s.packages, tokenA)
             && !TokenTaken(s.packages, tokenB)
    ensures var k := |s.rotations|;
      var open := Next(Next(s, Start(a, 0, 1, tokenA, now)), Start(b, 2, 3, tokenB, now));
      t == Pushed(Pushed(open, k, actor, now), k + 1, actor, now)
    ensures var k := |s.rotations|;
      && |t.rotations| == k + 2 && t.rotations[k].stage == t.rotations[k + 1].stage == Verifying
      && t.rotations[k].newSecret == Encrypt(a, 1) && t.rotations[k + 1].newSecret == Encrypt(b, 3)
      && t.rotations[k].newVersion == t.rotations[k + 1].newVersion == s.assignment.version + 1
      && RouterSecret(t) == Some(b)
  {
    var k := |s.rotations|;
    var s1 := Next(s, Start(a, 0, 1, tokenA, now));
    StartAdds(s, a, 0, 1, tokenA, now);
    assert !TokenTaken(s1.packages, tokenB);
    var s2 := Next(s1, Start(b, 2, 3, tokenB, now));
    StartAdds(s1, b, 2, 3, tokenB, now);
    assert s2.rotations[k] == s1.rotations[k];
    PushedVerifies(s2, k, actor, now);
    var s3 := Pushed(s2, k, actor, now);
    PushedVerifies(s3, k + 1, actor, now);
    t := Pushed(s3, k + 1, actor, now);
  }

  /** Once active, a rotation cannot be rolled back, within its rollback window or after. */
  lemma ActiveIsFinal(s: System, i: nat, call: Option<Call>)
    requires StageOf(s, i) == Active && i < |s.rotations|
    ensures Next(s, Rollback(i, call)) == s
  {
    assert forall target :: Transition(Active, target) == None;
  }

  /* ---- one-time packages ---- */

  /** Tokens are unique, and each package carries the new secret of its rotation. */
  predicate PackagesFit(s: System) {
    && (forall j, k | 0 <= j < k < |s.packages| :: s.packages[j].token != s.packages[k].token)
    && (forall k | 0 <= k < |s.packages| ::
          s.packages[k].rotation < |s.rotations|
            && s.packages[k].secret == s.rotations[s.packages[k].rotation].newSecret)
  }

  predicate Spent(s: System, k: nat, i: nat, token: string) {
    k < |s.packages| && s.packages[k].rotation == i && s.packages[k].token == token && s.packages[k].accessed.Some?
  }

  /** Steps on a rotation keep its new secret and touch no package. */
  lemma RotationStepFrame(s: System, step: Step)
    requires !step.Start? && !step.RevealSecret?
    ensures var t := Next(s, step);
      && t.packages == s.packages && |t.rotations| == |s.rotations|
      && forall i | 0 <= i < |s.rotations| :: t.rotations[i].newSecret == s.rotations[i].newSecret
  {}

  lemma StepKeepsPackages(s: System, step: Step)
    requires PackagesFit(s)
    ensures PackagesFit(Next(s, step))
    ensures forall k, i, token :: Spent(s, k, i, token) ==> Spent(Next(s, step), k, i, token)
  {
    if !step.Start? && !step.RevealSecret? {
      RotationStepFrame(s, step);
    }
  }

  lemma {:induction false} RunKeepsPackages(s: System, steps: seq<Step>)
    requires PackagesFit(s)
    ensures PackagesFit(RunFrom(s, steps))
    ensures forall k, i, token :: Spent(s, k, i, token) ==> Spent(RunFrom(s, steps), k, i, token)
  {
    if steps != [] {
      RunKeepsPackages(s, steps[..|steps| - 1]);
      StepKeepsPackages(RunFrom(s, steps[..|steps| - 1]), steps[|steps| - 1]);
    }
  }

  /** A token reveals the new secret of its rotation, and only once, whatever happens in between. */
  lemma RevealedOnce(s: System, i: nat, token: string, now: int, steps: seq<Step>, later: int)
    requires PackagesFit(s) && Revealable(s, i, token, now)
    ensures s.packages[FindPackage(s.packages, i, token)].secret == s.rotations[i].newSecret
    ensures !Revealable(RunFrom(AfterReveal(s, i, token, now), steps), i, token, later)
  {
    var k := FindPackage(s.packages, i, token);
    var t := AfterReveal(s, i, token, now);
    StepKeepsPackages(s, RevealSecret(i, token, now));
    RunKeepsPackages(t, steps);
    assert Spent(t, k, i, token);
    var u := RunFrom(t, steps);
    assert Spent(u, k, i, token);
    assert FindPackage(u.packages, i, token) == k;
  }

  /* ---- the service ---- */

  class RotationService {
    const server: string
    var assignment: Assignment
    var rotations: seq<Rotation>
    var packages: seq<Package>
    var router: seq<Entry>

    constructor (server: string, assignment: Assignment, router: seq<Entry>)
      ensures View() == System(server, assignment, [], [], router)
    {
      this.server, this.assignment, this.router := server, assignment, router;
      rotations, packages := [], [];
    }

    function View(): System
      reads this
    {
      System(server, assignment, rotations, packages, router)
    }

    /** `update_radius_entry` with a secret: whether the caller sees it succeed. */
    method UpdateSecret(id: string, secret: string, call: Call) returns (answered: bool)
      requires Locate(View()) == Some(id)
      modifies this`router
      ensures View() == Written(old(View()), secret, call)
      ensures answered == Answered(old(View()), call)
    {
      SetSecretAbsent(router, id, secret);
      if call == Unreached {
        return false;
      }
      answered := SecretOf(router, id).Some? && call == Replies;
      router := SetSecret(router, id, secret);
    }

    method StartRotation(secret: string, oldNonce: nat, newNonce: nat, token: string, now: int) returns (started: bool)
      modifies this
      ensures View() == Next(old(View()), Start(secret, oldNonce, newNonce, token, now))
      ensures started == !TokenTaken(old(packages), token)
    {
      var r := Rotation(Draft, Some(Encrypt(Decrypt(assignment.secret), oldNonce)), Some(assignment.version),
                        Encrypt(secret, newNonce), assignment.version + 1, map[], None, None);
      r := r.(stage := Transition(r.stage, NewSecretGenerated).value);
      r := r.(stage := Transition(r.stage, AwaitingFreeRadius).value);
      if TokenTaken(packages, token) {
        return false;
      }
      packages := packages + [Package(|rotations|, token, r.newSecret, now + REVEAL_TTL_SECONDS, None)];
      rotations := rotations + [r];
      return true;
    }

    method RevealRotationSecret(i: nat, token: string, now: int) returns (secret: Option<string>)
      requires i < |rotations| && PackagesFit(View())
      modifies this
      ensures View() == Next(old(View()), RevealSecret(i, token, now)) && PackagesFit(View())
      ensures secret == RevealAnswer(old(View()), i, token, now)
    {
      StepKeepsPackages(View(), RevealSecret(i, token, now));
      var k := FindPackage(packages, i, token);
      if k == |packages| || packages[k].accessed.Some? || packages[k].expires < now {
        return None;
      }
      secret := Some(Decrypt(packages[k].secret));
      packages := packages[k := packages[k].(accessed := Some(now))];
    }

    method ConfirmFreeRadiusUpdate(i: nat, actor: string, now: int) returns (ok: bool)
      requires i < |rotations|
      modifies this
      ensures View() == Next(old(View()), Confirm(i, actor, now))
      ensures ok <==> old(rotations)[i].stage == AwaitingFreeRadius
    {
      var next := Transition(rotations[i].stage, FreeRadiusConfirmed);
      if next.None? {
        return false;
      }
      rotations := rotations[i := rotations[i].(stage := next.value)];
      rotations := rotations[i := rotations[i].(confirmations := rotations[i].confirmations[actor := now])];
      return true;
    }

    /** The stage moves in the session first; what the caller commits depends on how the router call ends. */
    method ApplySecretToRouter(i: nat, call: Call) returns (ok: bool)
      requires i < |rotations|
      modifies this
      ensures View() == Next(old(View()), Apply(i, call))
      ensures ok <==> old(rotations)[i].stage == FreeRadiusConfirmed && Answered(old(View()), call)
    {
      var committed := rotations;
      var next := Transition(rotations[i].stage, RouterUpdatePending);
      if next.None? {
        return false;
      }
      var id := Locate(View());
      if id.None? {
        return false;
      }
      rotations := rotations[i := rotations[i].(stage := next.value)];
      ok := UpdateSecret(id.value, Decrypt(rotations[i].newSecret), call);
      if ok {
        rotations := rotations[i := rotations[i].(stage := Transition(rotations[i].stage, RouterUpdated).value)];
        rotations := rotations[i := rotations[i].(stage := Transition(rotations[i].stage, Verifying).value)];
      } else if call == Crash {
        rotations := committed;
      }
    }

    method VerifyRotation(i: nat, now: int) returns (ok: bool)
      requires i < |rotations|
      modifies this
      ensures View() == Next(old(View()), Verify(i, now))
      ensures ok <==> old(rotations)[i].stage == Verifying
    {
      var next := Transition(rotations[i].stage, Active);
      if next.None? {
        return false;
      }
      rotations := rotations[i := rotations[i].(stage := next.value)];
      assignment := assignment.(secret := rotations[i].newSecret, version := rotations[i].newVersion, applied := true);
      rotations :=
        rotations[i := rotations[i].(completedAt := Some(now), rollbackUntil := Some(now + ROLLBACK_WINDOW_SECONDS))];
      return true;
    }

    /** Everything but the router goes back to what was committed unless the call succeeds. */
    method RollbackSecret(i: nat, adapter: Option<Call>) returns (ok: bool)
      requires i < |rotations|
      modifies this
      ensures View() == Next(old(View()), Rollback(i, adapter))
      ensures ok <==>
        && old(rotations)[i].stage in {FreeRadiusConfirmed, RouterUpdatePending, RouterUpdated, Verifying}
        && (adapter.Some? ==> old(rotations)[i].oldSecret.Some? && Answered(old(View()), adapter.value))
    {
      var next := Transition(rotations[i].stage, RollbackPending);
      if next.None? {
        return false;
      }
      if adapter.Some? {
        var id := Locate(View());
        if id.None? || rotations[i].oldSecret.None? {
          return false;
        }
        ok := UpdateSecret(id.value, Decrypt(rotations[i].oldSecret.value), adapter.value);
        if !ok {
          return false;
        }
      }
      rotations := rotations[i := rotations[i].(stage := next.value)];
      if rotations[i].oldSecret.Some? {
        var version := VersionOrOne(rotations[i].oldVersion);
        assignment := assignment.(secret := rotations[i].oldSecret.value, version := version);
      }
      rotations := rotations[i := rotations[i].(stage := Transition(rotations[i].stage, RolledBack).value)];
      return true;
    }

    method ExpireOldSecret(i: nat) returns (ok: bool)
      requires i < |rotations|
      modifies this
      ensures View() == Next(old(View()), Expire(i))
      ensures ok <==> old(rotations)[i].stage == Active
      ensures ok ==> rotations[i] == old(rotations)[i].(oldSecret := None, oldVersion := None)
      ensures !ok ==> rotations == old(rotations)
    {
      if rotations[i].stage != Active {
        return false;
      }
      rotations := rotations[i := rotations[i].(oldSecret := None, oldVersion := None)];
      return true;
    }
  }

  lemma {:induction false} SetSecretAbsent(router: seq<Entry>, id: string, secret: string)
    ensures SecretOf(router, id).None? ==> SetSecret(router, id, secret) == router
  {
    if router != [] && router[0].remoteId != id {
      SetSecretAbsent(router[1..], id, secret);
    }
  }

  /* ---- the steps in plain terms ---- */

  /** The life of a one-time package: however the system goes on, as long as the token is not used, it reveals the
      secret the rotation was started with up to 600 seconds after the start, and nothing later. */
  lemma {:induction false} TokenLife(
    s: System, secret: string, oldNonce: nat, newNonce: nat, token: string, start: int, steps: seq<Step>, now: int)
    requires PackagesFit(s) && !TokenTaken(s.packages, token)
    requires forall n | 0 <= n < |steps| && steps[n].RevealSecret? ::
      steps[n].i != |s.rotations| || steps[n].token != token
    ensures var t := RunFrom(Next(s, Start(secret, oldNonce, newNonce, token, start)), steps);
      RevealAnswer(t, |s.rotations|, token, now) == if now <= start + 600 then Some(secret) else None
  {
    var i, k := |s.rotations|, |s.packages|;
    var s1 := Next(s, Start(secret, oldNonce, newNonce, token, start));
    StepKeepsPackages(s, Start(secret, oldNonce, newNonce, token, start));
    var package := Package(i, token, Encrypt(secret, newNonce), start + 600, None);
    assert s1.packages[k] == package;
    RunKeepsPackages(s1, steps);
    UnusedStays(s1, steps, k);
    var t := RunFrom(s1, steps);
    assert FindPackage(t.packages, i, token) == k;
  }

  lemma UnusedStep(s: System, step: Step, k: nat)
    requires PackagesFit(s) && k < |s.packages|
    requires step.RevealSecret? ==> step.i != s.packages[k].rotation || step.token != s.packages[k].token
    ensures k < |Next(s, step).packages| && Next(s, step).packages[k] == s.packages[k]
  {
    if !step.Start? && !step.RevealSecret? {
      RotationStepFrame(s, step);
    }
  }

  lemma {:induction false} UnusedStays(s: System, steps: seq<Step>, k: nat)
    requires PackagesFit(s) && k < |s.packages|
    requires forall n | 0 <= n < |steps| && steps[n].RevealSecret? ::
      steps[n].i != s.packages[k].rotation || steps[n].token != s.packages[k].token
    ensures k < |RunFrom(s, steps).packages| && RunFrom(s, steps).packages[k] == s.packages[k]
  {
    if steps != [] {
      var front := steps[..|steps| - 1];
      UnusedStays(s, front, k);
      RunKeepsPackages(s, front);
      UnusedStep(RunFrom(s, front), steps[|steps| - 1], k);
    }
  }

  /** A token that was not issued for the rotation reveals nothing and changes nothing. */
  lemma StrangeTokenRevealsNothing(s: System, i: nat, token: string, now: int)
    requires forall k | 0 <= k < |s.packages| :: s.packages[k].rotation != i || s.packages[k].token != token
    ensures RevealAnswer(s, i, token, now).None? && Next(s, RevealSecret(i, token, now)) == s
  {}

  /** A reveal marks its package with the time and nothing else. */
  lemma RevealMarks(s: System, i: nat, token: string, now: int)
    requires RevealAnswer(s, i, token, now).Some?
    ensures var t := Next(s, RevealSecret(i, token, now));
      && t == s.(packages := t.packages) && |t.packages| == |s.packages|
      && exists k | 0 <= k < |s.packages| ::
           && s.packages[k].rotation == i && s.packages[k].token == token && s.packages[k].accessed.None?
           && t.packages == s.packages[k := s.packages[k].(accessed := Some(now))]
  {
    var k := FindPackage(s.packages, i, token);
    assert k < |s.packages| && s.packages[k].accessed.None?;
  }

  /** A rotation starts awaiting FreeRADIUS with the record's secret and version as the old ones. */
  lemma StartMeans(s: System, secret: string, oldNonce: nat, newNonce: nat, token: string, now: int)
    ensures var t := Next(s, Start(secret, oldNonce, newNonce, token, now)); var k := |s.rotations|;
      if exists p | p in s.packages :: p.token == token then t == s
      else && t == s.(rotations := t.rotations, packages := t.packages) && |t.rotations| == k + 1
           && t.rotations[..k] == s.rotations
           && t.packages == s.packages + [Package(k, token, t.rotations[k].newSecret, now + 600, None)]
           && var r := t.rotations[k];
              && r.stage == AwaitingFreeRadius && r.confirmations == map[] && r.completedAt.None?
                 && r.rollbackUntil.None?
              && r.oldSecret.Some? && Decrypt(r.oldSecret.value) == Decrypt(s.assignment.secret)
              && r.oldVersion == Some(s.assignment.version)
              && Decrypt(r.newSecret) == secret && r.newVersion == s.assignment.version + 1
  {
    assert TokenTaken(s.packages, token) <==> exists p | p in s.packages :: p.token == token by {
      if p :| p in s.packages && p.token == token {
        var k :| 0 <= k < |s.packages| && s.packages[k] == p;
      }
    }
  }

  /** What each step does to its rotation and the record, by the stage it finds. The router is another matter. */
  lemma StepMeans(s: System, i: nat, actor: string, now: int, call: Call)
    requires i < |s.rotations|
    ensures var r := s.rotations[i];
      && Next(s, Confirm(i, actor, now)) ==
         (if r.stage == AwaitingFreeRadius
          then s.(rotations := s.rotations[i := r.(stage := FreeRadiusConfirmed,
                                                   confirmations := r.confirmations[actor := now])])
          else s)
      && Next(s, Verify(i, now)) ==
         (if r.stage == Verifying
          then s.(rotations := s.rotations[i := r.(stage := Active, completedAt := Some(now),
                                                   rollbackUntil := Some(now + 3600))],
                  assignment := s.assignment.(secret := r.newSecret, version := r.newVersion, applied := true))
          else s)
      && Next(s, Expire(i)) ==
         (if r.stage == Active then s.(rotations := s.rotations[i := r.(oldSecret := None, oldVersion := None)]) else s)
      && var t := Next(s, Apply(i, call));
         && t.assignment == s.assignment && t.packages == s.packages && |t.rotations| == |s.rotations|
         && t.rotations == s.rotations[i := r.(stage :=
              if r.stage != FreeRadiusConfirmed || Locate(s).None? || call == Crash then r.stage
              else if RouterSecret(s).Some? && call == Replies then Verifying else RouterUpdatePending)]
  {
    assert s.rotations[i := s.rotations[i]] == s.rotations;
  }

  /** A rollback that completes, from one of four stages, sets record and rotation back; any other commits nothing. */
  lemma RollbackMeans(s: System, i: nat, adapter: Option<Call>)
    requires i < |s.rotations|
    ensures var r, t := s.rotations[i], Next(s, Rollback(i, adapter));
      var completes :=
        && r.stage in {FreeRadiusConfirmed, RouterUpdatePending, RouterUpdated, Verifying}
        && (adapter.Some? ==> r.oldSecret.Some? && RouterSecret(s).Some? && adapter == Some(Replies));
      && t.packages == s.packages
      && t.rotations == (if completes then s.rotations[i := r.(stage := RolledBack)] else s.rotations)
      && t.assignment ==
         if completes && r.oldSecret.Some?
         then s.assignment.(secret := r.oldSecret.value,
                            version := if r.oldVersion.None? || r.oldVersion.value == 0 then 1 else r.oldVersion.value)
         else s.assignment
  {
    var r := s.rotations[i];
    assert Transition(r.stage, RollbackPending).Some?
      <==> r.stage in {FreeRadiusConfirmed, RouterUpdatePending, RouterUpdated, Verifying};
    assert RouterSecret(s).Some? ==> Locate(s).Some?;
  }

  /** The entry a rotation writes: the first with the remote id on record or, without one on record, the first with the
      remote id of the first entry that has the server's address. */
  ghost predicate Manages(s: System, k: nat)
    requires k < |s.router|
  {
    && (forall j | 0 <= j < k :: s.router[j].remoteId != s.router[k].remoteId)
    && if s.assignment.remoteId != "" then s.router[k].remoteId == s.assignment.remoteId
       else exists m | 0 <= m < |s.router| :: IsFirstAt(s.router, s.server, m)
              && s.router[m].remoteId == s.router[k].remoteId
  }

  predicate IsFirstAt(router: seq<Entry>, address: string, m: nat)
    requires m < |router|
  {
    router[m].address == address && forall j | 0 <= j < m :: router[j].address != address
  }

  lemma {:induction false} IdOfFirst(router: seq<Entry>, address: string)
    ensures if IdOf(router, address).None? then forall j | 0 <= j < |router| :: router[j].address != address
      else exists m | 0 <= m < |router| ::
        IsFirstAt(router, address, m) && IdOf(router, address) == Some(router[m].remoteId)
  {
    if router != [] {
      if router[0].address == address {
        assert IsFirstAt(router, address, 0);
      } else {
        IdOfFirst(router[1..], address);
        if IdOf(router, address).Some? {
          var m :| 0 <= m < |router[1..]| && IsFirstAt(router[1..], address, m)
            && IdOf(router, address) == Some(router[1..][m].remoteId);
          assert forall j | 1 <= j < m + 1 :: router[j] == router[1..][j - 1];
          assert IsFirstAt(router, address, m + 1);
        }
      }
    }
  }

  lemma {:induction false} SecretOfSome(router: seq<Entry>, id: string, k: nat)
    requires k < |router| && router[k].remoteId == id
    ensures SecretOf(router, id).Some?
  {
    if router[0].remoteId != id {
      SecretOfSome(router[1..], id, k - 1);
    }
  }

  predicate IsFirstWith(router: seq<Entry>, id: string, k: nat)
    requires k < |router|
  {
    router[k].remoteId == id && forall j | 0 <= j < k :: router[j].remoteId != id
  }

  lemma {:induction false} SetSecretAt(router: seq<Entry>, id: string, secret: string, k: nat)
    requires k < |router|
    ensures |SetSecret(router, id, secret)| == |router|
    ensures SetSecret(router, id, secret)[k] ==
      if IsFirstWith(router, id, k) then router[k].(secret := secret) else router[k]
  {
    if router[0].remoteId != id {
      if |router| > 1 {
        SetSecretAt(router[1..], id, secret, if k == 0 then 0 else k - 1);
      }
      if k > 0 {
        assert forall j | 1 <= j <= k :: router[j] == router[1..][j - 1];
        assert IsFirstWith(router, id, k) <==> IsFirstWith(router[1..], id, k - 1) by {
          assert forall j | 0 <= j < k - 1 :: router[1..][j] == router[j + 1];
        }
      }
    }
  }

  /** A write that reaches the router gives the managed entry the secret and leaves every other entry. */
  lemma WriteMeans(s: System, secret: string, call: Call, k: nat)
    requires k < |s.router|
    ensures |Written(s, secret, call).router| == |s.router|
    ensures Written(s, secret, call).router[k] ==
      if call != Unreached && Manages(s, k) then s.router[k].(secret := secret) else s.router[k]
  {
    IdOfFirst(s.router, s.server);
    if Locate(s).Some? {
      SetSecretAt(s.router, Locate(s).value, secret, k);
      if s.router[k].remoteId == Locate(s).value {
        SecretOfSome(s.router, Locate(s).value, k);
      }
    }
  }

  lemma NoneManaged(s: System, k: nat)
    requires k < |s.router|
    ensures Locate(s).None? ==> !Manages(s, k)
  {
    IdOfFirst(s.router, s.server);
  }

  /** What an application leaves on the router, entry by entry. */
  lemma AppliedRouterMeans(s: System, i: nat, call: Call, k: nat)
    requires i < |s.rotations| && k < |s.router|
    ensures var r, e, t := s.rotations[i], s.router[k], Next(s, Apply(i, call));
      && |t.router| == |s.router|
      && t.router[k] ==
         if r.stage == FreeRadiusConfirmed && call != Unreached && Manages(s, k)
         then e.(secret := Decrypt(r.newSecret)) else e
  {
    WriteMeans(s, Decrypt(s.rotations[i].newSecret), call, k);
    NoneManaged(s, k);
  }

  /** What a rollback leaves on the router, entry by entry. */
  lemma RolledBackRouterMeans(s: System, i: nat, call: Call, k: nat)
    requires i < |s.rotations| && k < |s.router|
    ensures var r, e, t := s.rotations[i], s.router[k], Next(s, Rollback(i, Some(call)));
      && |t.router| == |s.router|
      && t.router[k] ==
         if && r.stage in {FreeRadiusConfirmed, RouterUpdatePending, RouterUpdated, Verifying}
            && r.oldSecret.Some? && call != Unreached && Manages(s, k)
         then e.(secret := Decrypt(r.oldSecret.value)) else e
  {
    if s.rotations[i].oldSecret.Some? {
      WriteMeans(s, Decrypt(s.rotations[i].oldSecret.value), call, k);
    }
    NoneManaged(s, k);
  }

  /** Applications and rollbacks with an adapter alone touch the router. */
  lemma OnlyWritesTouchRouter(s: System, step: Step)
    requires !step.Apply? && (step.Rollback? ==> step.adapter.None?)
    ensures Next(s, step).router == s.router && Next(s, step).server == s.server
    ensures Next(s, step).assignment.remoteId == s.assignment.remoteId
  {}
}
