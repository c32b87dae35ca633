/** The per-NAS lease lock: services/aaa-service/app/locks.py. */
module Locks {
  import opened Common

  datatype Store = Redis | Database

  datatype Lock = Lock(owner: string, expires: int)

  /** Redis drops a key when its time has come; the database row may be taken over strictly after it. */
  predicate Expired(store: Store, expires: int, now: int) {
    match store
    case Redis => expires <= now
    case Database => expires < now
  }

  /** A row and whether the writer owns it now. */
  datatype Attempt = Attempt(row: Option<Lock>, acquired: bool)

  /** `SET NX EX`, with the refresh of an owner's own key. */
  function SetNx(row: Option<Lock>, owner: string, now: int, ttl: int): Attempt {
    if row.None? || Expired(Redis, row.value.expires, now) || row.value.owner == owner
    then Attempt(Some(Lock(owner, now + ttl)), true)
    else Attempt(row, false)
  }

  /** The write of `_db_acquire`, decided on the row `seen` earlier and applied to the row stored now. */
  function DbWrite(row: Option<Lock>, seen: Option<Lock>, owner: string, at: int, ttl: int): Attempt {
    if seen.None? then
      if row.None? then Attempt(Some(Lock(owner, at + ttl)), true) else Attempt(row, false)
    else if seen.value.owner == owner then
      if row.Some? then Attempt(Some(row.value.(expires := at + ttl)), true) else Attempt(row, false)
    else if Expired(Database, seen.value.expires, at) then
      if row.Some? && Expired(Database, row.value.expires, at) then Attempt(Some(Lock(owner, at + ttl)), true)
      else Attempt(row, false)
    else Attempt(row, false)
  }

  /** One call of the service, not interleaved with others. */
  class LockStore {
    var redisAvailable: bool
    var redisKey: Option<Lock>
    var dbRow: Option<Lock>

    constructor (available: bool)
      ensures redisAvailable == available && redisKey.None? && dbRow.None?
    {
      redisAvailable, redisKey, dbRow := available, None, None;
    }

    /** None only when Redis is unavailable. */
    method RedisAcquire(owner: string, now: int, ttl: int) returns (r: Option<bool>)
      modifies this`redisKey
      ensures !redisAvailable ==> r.None? && redisKey == old(redisKey)
      ensures redisAvailable ==> r.Some? && Attempt(redisKey, r.value) == SetNx(old(redisKey), owner, now, ttl)
    {
      if !redisAvailable {
        return None;
      }
      if redisKey.None? || redisKey.value.expires <= now {
        redisKey := Some(Lock(owner, now + ttl));
        return Some(true);
      }
      if redisKey.value.owner == owner {
        redisKey := Some(redisKey.value.(expires := now + ttl));
        return Some(true);
      }
      r := Some(false);
    }

    method DbAcquire(owner: string, now: int, ttl: int) returns (acquired: bool)
      modifies this`dbRow
      ensures Attempt(dbRow, acquired) == DbWrite(old(dbRow), old(dbRow), owner, now, ttl)
    {
      var expires := now + ttl;
      var lock := dbRow;
      if lock.None? {
        dbRow := Some(Lock(owner, expires));
        return true;
      }
      if lock.value.owner == owner {
        dbRow := Some(lock.value.(expires := expires));
        return true;
      }
      if lock.value.expires < now {
        dbRow := Some(Lock(owner, expires));
        return true;
      }
      acquired := false;
    }

    /** The store in use decides: a refusal by Redis does not fall through to the database. */
    method AcquireNasLock(owner: string, now: int, ttl: int) returns (acquired: bool)
      modifies this`redisKey, this`dbRow
      ensures redisAvailable ==>
        dbRow == old(dbRow) && Attempt(redisKey, acquired) == SetNx(old(redisKey), owner, now, ttl)
      ensures !redisAvailable ==> redisKey == old(redisKey)
                                  && Attempt(dbRow, acquired) == DbWrite(old(dbRow), old(dbRow), owner, now, ttl)
      ensures (if redisAvailable then redisKey else dbRow) ==
        if acquired then Some(Lock(owner, now + ttl)) else if redisAvailable then old(redisKey) else old(dbRow)
      ensures acquired <==>
        var row := if redisAvailable then old(redisKey) else old(dbRow);
        row.None? || row.value.owner == owner
          || (if redisAvailable then row.value.expires <= now else row.value.expires < now)
    {
      var r := RedisAcquire(owner, now, ttl);
      if r.Some? {
        return r.value;
      }
      acquired := DbAcquire(owner, now, ttl);
    }

    /** Only the owner's own lock is removed. */
    method ReleaseNasLock(owner: string)
      modifies this`redisKey, this`dbRow
      ensures redisKey ==
        if redisAvailable && old(redisKey).Some? && old(redisKey).value.owner == owner then None else old(redisKey)
      ensures dbRow == if old(dbRow).Some? && old(dbRow).value.owner == owner then None else old(dbRow)
    {
      if redisAvailable && redisKey.Some? && redisKey.value.owner == owner {
        redisKey := None;
      }
      if dbRow.Some? && dbRow.value.owner == owner {
        dbRow := None;
      }
    }
  }

  /* ---- interleaved workers ---- */

  /** Where one acquisition (one fresh owner id) stands. */
  datatype Phase =
    | Idle
    | Begun(at: int)
    | Read(at: int, seen: Option<Lock>)
    | Holding(expires: int)
    | Releasing(expires: int)
    | Finished

  datatype State = State(row: Option<Lock>, now: int, phases: map<string, Phase>)

  const INITIAL := State(None, 0, map[])

  function PhaseOf(s: State, w: string): Phase {
    if w in s.phases then s.phases[w] else Idle
  }

  /** The steps workers and the clock can take. In a database release the row is read and then deleted by
      its primary key; `Release` does both at once, `ReleaseRead` and `ReleaseDelete` in two steps. */
  datatype Step =
    | Tick(seconds: nat)
    | TrySetNx(w: string)
    | Begin(w: string)
    | ReadRow(w: string)
    | WriteRow(w: string)
    | Release(w: string)
    | ReleaseRead(w: string)
    | ReleaseDelete(w: string)

  function Move(s: State, w: string, row: Option<Lock>, phase: Phase): State {
    s.(row := row, phases := s.phases[w := phase])
  }

  function Acquired(s: State, w: string, a: Attempt, expires: int): State {
    Move(s, w, a.row, if a.acquired then Holding(expires) else Finished)
  }

  /** One step; a step that is not possible changes nothing. */
  function Next(store: Store, ttl: int, s: State, step: Step): State {
    match step
    case Tick(seconds) => s.(now := s.now + seconds)
    case TrySetNx(w) =>
      if store == Redis && PhaseOf(s, w) == Idle then Acquired(s, w, SetNx(s.row, w, s.now, ttl), s.now + ttl) else s
    case Begin(w) =>
      if store == Database && PhaseOf(s, w) == Idle then Move(s, w, s.row, Begun(s.now)) else s
    case ReadRow(w) =>
      (match PhaseOf(s, w) case Begun(at) => Move(s, w, s.row, Read(at, s.row)) case _ => s)
    case WriteRow(w) =>
      (match PhaseOf(s, w)
       case Read(at, seen) => Acquired(s, w, DbWrite(s.row, seen, w, at, ttl), at + ttl)
       case _ => s)
    case Release(w) =>
      if PhaseOf(s, w).Holding? then Move(s, w, if Owns(s.row, w) then None else s.row, Finished) else s
    case ReleaseRead(w) =>
      (match PhaseOf(s, w)
       case Holding(e) => Move(s, w, s.row, if Owns(s.row, w) then Releasing(e) else Finished)
       case _ => s)
    case ReleaseDelete(w) =>
      if PhaseOf(s, w).Releasing? then Move(s, w, None, Finished) else s
  }

  predicate Owns(row: Option<Lock>, w: string) {
    row.Some? && row.value.owner == w
  }

  function Run(store: Store, ttl: int, steps: seq<Step>): State {
    if steps == [] then INITIAL else Next(store, ttl, Run(store, ttl, steps[..|steps| - 1]), steps[|steps| - 1])
  }

  /** A worker holds an unexpired lease. */
  predicate Holds(store: Store, s: State, w: string) {
    PhaseOf(s, w).Holding? && !Expired(store, PhaseOf(s, w).expires, s.now)
  }

  ghost predicate MutualExclusion(store: Store, s: State) {
    forall v, w | Holds(store, s, v) && Holds(store, s, w) :: v == w
  }

  /** The second half of a release would delete another worker's unexpired lease. */
  predicate Steals(store: Store, s: State, w: string) {
    s.row.Some? && s.row.value.owner != w && Holds(store, s, s.row.value.owner)
  }

  /** The guard a conditional deletion would check. */
  predicate SafeStep(store: Store, s: State, step: Step) {
    step.ReleaseDelete? && PhaseOf(s, step.w).Releasing? ==> !Steals(store, s, step.w)
  }

  ghost predicate SafeRun(store: Store, ttl: int, steps: seq<Step>) {
    forall n | 0 <= n < |steps| :: SafeStep(store, Run(store, ttl, steps[..n]), steps[n])
  }

  predicate HasAcquired(p: Phase) {
    p.Holding? || p.Releasing? || p.Finished?
  }

  /** The row belongs to whoever holds an unexpired lease, and to nobody who has not acquired. */
  ghost predicate Inv(store: Store, s: State) {
    && (forall w :: var p := PhaseOf(s, w);
         p.Holding? && !Expired(store, p.expires, s.now) ==> s.row == Some(Lock(w, p.expires)))
    && (s.row.Some? ==> HasAcquired(PhaseOf(s, s.row.value.owner)))
    && (forall w :: var p := PhaseOf(s, w);
         && (p.Begun? || p.Read? ==> p.at <= s.now && store == Database)
         && (p.Read? && p.seen.Some? ==> p.seen.value.owner != w))
  }

  /** A move of one worker keeps the invariant when its new phase fits the new row and no other unexpired lease
      loses its row. */
  lemma MoveKeepsInv(store: Store, s: State, w: string, row: Option<Lock>, phase: Phase)
    requires Inv(store, s)
    requires phase.Holding? && !Expired(store, phase.expires, s.now) ==> row == Some(Lock(w, phase.expires))
    requires row != s.row ==> forall v | v != w && PhaseOf(s, v).Holding? ::
               Expired(store, PhaseOf(s, v).expires, s.now)
    requires row.Some? ==> if row.value.owner == w then HasAcquired(phase) else row == s.row
    requires phase.Begun? || phase.Read? ==> phase.at <= s.now && store == Database
    requires phase.Read? && phase.seen.Some? ==> phase.seen.value.owner != w
    ensures Inv(store, Move(s, w, row, phase))
  {
    var s' := Move(s, w, row, phase);
    forall v
      ensures PhaseOf(s', v) == if v == w then phase else PhaseOf(s, v)
    {}
  }

  /** While the row is expired, or its owner does not hold it, or it belongs to `w`, or is absent, no other worker has
      an unexpired lease. */
  lemma OthersExpired(store: Store, s: State, w: string)
    requires Inv(store, s)
    requires s.row.None? || s.row.value.owner == w || Expired(store, s.row.value.expires, s.now)
             || !Holds(store, s, s.row.value.owner)
    ensures forall v | v != w && PhaseOf(s, v).Holding? ::
              Expired(store, PhaseOf(s, v).expires, s.now)
  {}

  lemma StepKeepsInv(store: Store, ttl: int, s: State, step: Step)
    requires Inv(store, s) && SafeStep(store, s, step)
    ensures Inv(store, Next(store, ttl, s, step))
  {
    var s' := Next(store, ttl, s, step);
    if step.Tick? {
      assert forall v :: PhaseOf(s', v) == PhaseOf(s, v);
    } else {
      var p, p' := PhaseOf(s, step.w), PhaseOf(s', step.w);
      if s' != s {
        if s'.row != s.row {
          OthersExpired(store, s, step.w);
        }
        MoveKeepsInv(store, s, step.w, s'.row, p');
      }
    }
  }

  lemma {:induction false} RunKeepsInv(store: Store, ttl: int, steps: seq<Step>)
    requires SafeRun(store, ttl, steps)
    ensures Inv(store, Run(store, ttl, steps))
  {
    if steps != [] {
      var n := |steps| - 1;
      forall k | 0 <= k < n
        ensures SafeStep(store, Run(store, ttl, steps[..n][..k]), steps[..n][k])
      {
        assert steps[..n][..k] == steps[..k];
        assert SafeStep(store, Run(store, ttl, steps[..k]), steps[k]);
      }
      RunKeepsInv(store, ttl, steps[..n]);
      assert SafeStep(store, Run(store, ttl, steps[..n]), steps[n]);
      StepKeepsInv(store, ttl, Run(store, ttl, steps[..n]), steps[n]);
    }
  }

  /** At most one worker holds an unexpired lease, in every run in which no deletion takes away another worker's. */
  lemma {:induction false} NoTwoHolders(store: Store, ttl: int, steps: seq<Step>)
    requires SafeRun(store, ttl, steps)
    ensures MutualExclusion(store, Run(store, ttl, steps))
  {
    RunKeepsInv(store, ttl, steps);
  }

  /** Runs in which every release is one step are covered. */
  lemma AtomicReleasesExclude(store: Store, ttl: int, steps: seq<Step>)
    requires forall n | 0 <= n < |steps| :: !steps[n].ReleaseDelete?
    ensures MutualExclusion(store, Run(store, ttl, steps))
  {
    NoTwoHolders(store, ttl, steps);
  }

  /** A lock passes from one owner to another only after it expired. */
  lemma {:induction false} TakeoverOnlyAfterExpiry(store: Store, ttl: int, steps: seq<Step>, step: Step)
    requires SafeRun(store, ttl, steps)
    ensures var s := Run(store, ttl, steps); var s' := Next(store, ttl, s, step);
      s.row.Some? && s'.row.Some? && s.row.value.owner != s'.row.value.owner ==>
        Expired(store, s.row.value.expires, s.now)
  {
    RunKeepsInv(store, ttl, steps);
  }

  /* ---- the condition is exact ---- */

  /** An idle worker acquires the lock, undisturbed. */
  function Enter(store: Store, ttl: int, s: State, x: string): State {
    match store
    case Redis => Next(store, ttl, s, TrySetNx(x))
    case Database => Next(store, ttl, Next(store, ttl, Next(store, ttl, s, Begin(x)), ReadRow(x)), WriteRow(x))
  }

  /** An absent row is there for the taking. */
  lemma EnterFree(store: Store, ttl: int, s: State, x: string)
    requires s.row.None? && PhaseOf(s, x).Idle?
    ensures Enter(store, ttl, s, x).phases == s.phases[x := Holding(s.now + ttl)]
            && Enter(store, ttl, s, x).now == s.now
  {
    if store == Database {
      var s1 := Next(store, ttl, s, Begin(x));
      assert PhaseOf(s1, x) == Begun(s.now) && s1.row.None?;
      var s2 := Next(store, ttl, s1, ReadRow(x));
      assert PhaseOf(s2, x) == Read(s.now, None) && s2.row.None?;
      assert Next(store, ttl, s2, WriteRow(x)).phases == s.phases[x := Holding(s.now + ttl)];
    }
  }

  lemma EnterKeepsInv(store: Store, ttl: int, s: State, x: string)
    requires Inv(store, s)
    ensures Inv(store, Enter(store, ttl, s, x))
  {
    match store
    case Redis => StepKeepsInv(store, ttl, s, TrySetNx(x));
    case Database =>
      StepKeepsInv(store, ttl, s, Begin(x));
      var s1 := Next(store, ttl, s, Begin(x));
      StepKeepsInv(store, ttl, s1, ReadRow(x));
      StepKeepsInv(store, ttl, Next(store, ttl, s1, ReadRow(x)), WriteRow(x));
  }

  /** In every state of a safe run: a deletion, and a worker that then comes in, leave two holders exactly when the
      deletion takes away another worker's unexpired lease. */
  lemma DeletionSafeIff(store: Store, ttl: int, s: State, w: string, x: string)
    requires Inv(store, s) && PhaseOf(s, w).Releasing? && PhaseOf(s, x).Idle?
    requires !Expired(store, s.now + ttl, s.now)
    ensures MutualExclusion(store, Enter(store, ttl, Next(store, ttl, s, ReleaseDelete(w)), x))
      <==> !Steals(store, s, w)
  {
    var t := Next(store, ttl, s, ReleaseDelete(w));
    var u := Enter(store, ttl, t, x);
    if Steals(store, s, w) {
      var v := s.row.value.owner;
      EnterFree(store, ttl, t, x);
      assert PhaseOf(u, v) == PhaseOf(s, v) && PhaseOf(u, x) == Holding(s.now + ttl);
      assert Holds(store, u, v) && Holds(store, u, x);
    } else {
      StepKeepsInv(store, ttl, s, ReleaseDelete(w));
      EnterKeepsInv(store, ttl, t, x);
    }
  }

  /** A worker that is not disturbed gets the lock exactly when there is none, it has its own, or the one there is over:
      in Redis from the second it expires, in the database after it. Otherwise the row stays as it is. */
  lemma EnterIff(store: Store, ttl: int, s: State, x: string)
    requires PhaseOf(s, x).Idle?
    ensures var t := Enter(store, ttl, s, x);
      if s.row.None? || s.row.value.owner == x
          || (if store == Redis then s.row.value.expires <= s.now else s.row.value.expires < s.now)
      then t == State(Some(Lock(x, s.now + ttl)), s.now, s.phases[x := Holding(s.now + ttl)])
      else t == s.(phases := s.phases[x := Finished])
  {
    if store == Database {
      var s1 := Next(store, ttl, s, Begin(x));
      assert PhaseOf(s1, x) == Begun(s.now) && s1.row == s.row;
      var s2 := Next(store, ttl, s1, ReadRow(x));
      assert PhaseOf(s2, x) == Read(s.now, s.row) && s2.row == s.row;
      var a := DbWrite(s.row, s.row, x, s.now, ttl);
      var p := if a.acquired then Holding(s.now + ttl) else Finished;
      assert s2.phases[x := p] == s.phases[x := p];
    }
  }

  /** A holder that releases takes its own row away and no other; done in two steps with nothing between, a release has
      the same effect. */
  lemma ReleaseMeans(store: Store, ttl: int, s: State, w: string)
    requires PhaseOf(s, w).Holding?
    ensures var t := Next(store, ttl, s, Release(w));
      && t.phases == s.phases[w := Finished] && t.now == s.now
      && t.row == (if s.row.Some? && s.row.value.owner == w then None else s.row)
      && Next(store, ttl, Next(store, ttl, s, ReleaseRead(w)), ReleaseDelete(w)) == t
  {
    var s1 := Next(store, ttl, s, ReleaseRead(w));
    assert s1.phases[w := Finished] == s.phases[w := Finished];
  }

  /** A deletion that comes late removes the next owner's row, and a third worker gets in. */
  function LateDeletion(ttl: nat): seq<Step> {
    [Begin("a"), ReadRow("a"), WriteRow("a"), ReleaseRead("a"), Tick(ttl + 1),
     Begin("b"), ReadRow("b"), WriteRow("b"), ReleaseDelete("a"), Begin("c"), ReadRow("c"), WriteRow("c")]
  }

  lemma RunAppend(store: Store, ttl: int, steps: seq<Step>, step: Step)
    ensures Run(store, ttl, steps + [step]) == Next(store, ttl, Run(store, ttl, steps), step)
  {
    assert (steps + [step])[..|steps + [step]| - 1] == steps;
  }

  lemma RunTwo(store: Store, ttl: int, steps: seq<Step>, a: Step, b: Step)
    ensures Run(store, ttl, steps + [a, b]) == Next(store, ttl, Next(store, ttl, Run(store, ttl, steps), a), b)
  {
    assert steps + [a, b] == (steps + [a]) + [b];
    RunAppend(store, ttl, steps + [a], b);
    var middle := Run(store, ttl, steps + [a]);
    assert middle == Next(store, ttl, Run(store, ttl, steps), a) by {
      RunAppend(store, ttl, steps, a);
    }
  }

  lemma LateDeletionStart(ttl: nat)
    ensures Run(Database, ttl, LateDeletion(ttl)[..4]) == State(Some(Lock("a", ttl)), 0, map["a" := Releasing(ttl)])
  {
    var steps := LateDeletion(ttl);
    assert steps[..0] == [];
    RunTwo(Database, ttl, steps[..0], steps[0], steps[1]);
    assert steps[..2] == steps[..0] + [steps[0], steps[1]];
    RunTwo(Database, ttl, steps[..2], steps[2], steps[3]);
    assert steps[..4] == steps[..2] + [steps[2], steps[3]];
  }

  lemma LateDeletionWait(ttl: nat)
    ensures Run(Database, ttl, LateDeletion(ttl)[..6])
            == State(Some(Lock("a", ttl)), ttl + 1, map["a" := Releasing(ttl), "b" := Begun(ttl + 1)])
  {
    var steps := LateDeletion(ttl);
    LateDeletionStart(ttl);
    RunTwo(Database, ttl, steps[..4], steps[4], steps[5]);
    assert steps[..6] == steps[..4] + [steps[4], steps[5]];
  }

  lemma LateDeletionMiddle(ttl: nat)
    ensures Run(Database, ttl, LateDeletion(ttl)[..8])
            == State(Some(Lock("b", 2 * ttl + 1)), ttl + 1, map["a" := Releasing(ttl), "b" := Holding(2 * ttl + 1)])
  {
    var steps := LateDeletion(ttl);
    LateDeletionWait(ttl);
    RunTwo(Database, ttl, steps[..6], steps[6], steps[7]);
    assert steps[..8] == steps[..6] + [steps[6], steps[7]];
  }

  /** With any time to live there is a late deletion that breaks mutual exclusion. */
  lemma LateDeletionBreaksExclusion(ttl: nat)
    ensures !SafeRun(Database, ttl, LateDeletion(ttl))
            && !MutualExclusion(Database, Run(Database, ttl, LateDeletion(ttl)))
  {
    var steps := LateDeletion(ttl);
    LateDeletionMiddle(ttl);
    assert !SafeStep(Database, Run(Database, ttl, steps[..8]), steps[8]);
    RunTwo(Database, ttl, steps[..8], steps[8], steps[9]);
    assert steps[..10] == steps[..8] + [steps[8], steps[9]];
    RunTwo(Database, ttl, steps[..10], steps[10], steps[11]);
    assert steps == steps[..10] + [steps[10], steps[11]];
    var s := Run(Database, ttl, steps);
    assert Holds(Database, s, "b") && Holds(Database, s, "c");
  }
}
