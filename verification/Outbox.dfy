/** The transactional outbox and the deduplicating inbox: services/aaa-service/app/events.py. */
module Outbox {
  type EventId = string

  datatype Row = Row(published: bool, attempts: nat)

  /** An event as one consumer sees it; the primary key of the inbox. */
  datatype Receipt = Receipt(event: EventId, consumer: string)

  /** Rows of a batch after a confirmed publication. The counter written is the one loaded with the batch, plus one. */
  function Confirmed(events: map<EventId, Row>, batch: seq<EventId>, loaded: map<EventId, Row>): map<EventId, Row> {
    map e | e in events :: if e in batch && e in loaded then Row(true, loaded[e].attempts + 1) else events[e]
  }

  /** Rows of a batch after a failed publication. */
  function Attempted(events: map<EventId, Row>, batch: seq<EventId>, loaded: map<EventId, Row>): map<EventId, Row> {
    map e | e in events ::
      if e in batch && e in loaded then events[e].(attempts := loaded[e].attempts + 1) else events[e]
  }

  predicate Pending(events: map<EventId, Row>, e: EventId) {
    e in events && !events[e].published
  }

  function ToSet(xs: seq<EventId>): set<EventId> {
    set x | x in xs
  }

  /** The pending events, in the given order. */
  function PendingIn(order: seq<EventId>, events: map<EventId, Row>): seq<EventId> {
    if order == [] then []
    else
      var e := order[|order| - 1];
      PendingIn(order[..|order| - 1], events) + if Pending(events, e) then [e] else []
  }

  /** The selection: at most `limit` pending events, the oldest ones, oldest first. */
  function FirstPending(order: seq<EventId>, events: map<EventId, Row>, limit: nat): seq<EventId> {
    var all := PendingIn(order, events);
    if |all| <= limit then all else all[..limit]
  }

  lemma {:induction false} PendingPrefix(order: seq<EventId>, events: map<EventId, Row>, n: nat)
    requires n <= |order|
    ensures PendingIn(order[..n], events) <= PendingIn(order, events)
  {
    if n < |order| {
      assert order[..|order| - 1][..n] == order[..n];
      PendingPrefix(order[..|order| - 1], events, n);
    } else {
      assert order[..n] == order;
    }
  }

  lemma {:induction false} InPendingIn(order: seq<EventId>, events: map<EventId, Row>)
    ensures forall e :: e in PendingIn(order, events) <==> e in order && Pending(events, e)
    ensures NoRepeats(order) ==> NoRepeats(PendingIn(order, events))
  {
    if order != [] {
      var n := |order| - 1;
      InPendingIn(order[..n], events);
      assert order == order[..n] + [order[n]];
      if NoRepeats(order) {
        assert forall i | 0 <= i < n :: order[..n][i] == order[i] != order[n];
      }
    }
  }

  ghost predicate NoRepeats(xs: seq<EventId>) {
    forall i, j | 0 <= i < j < |xs| :: xs[i] != xs[j]
  }

  /** The selection is that of some prefix of the order. */
  lemma {:induction false} SelectsPrefix(order: seq<EventId>, events: map<EventId, Row>, limit: nat) returns (n: nat)
    ensures n <= |order| && FirstPending(order, events, limit) == PendingIn(order[..n], events)
  {
    if |PendingIn(order, events)| <= limit {
      n := |order|;
      assert order[..n] == order;
    } else {
      var m := |order| - 1;
      n := SelectsPrefix(order[..m], events, limit);
      assert order[..m][..n] == order[..n];
      PendingPrefix(order, events, m);
    }
  }

  /** A selection holds pending events only, none twice, at most `limit` of them; all of them when it is shorter; and
      with an event every pending one before it. */
  lemma SelectionIsOldest(order: seq<EventId>, events: map<EventId, Row>, limit: nat)
    requires NoRepeats(order)
    ensures var batch := FirstPending(order, events, limit);
      && |batch| <= limit && NoRepeats(batch)
      && (forall e | e in batch :: e in order && Pending(events, e))
      && (|batch| < limit ==> forall e | e in order && Pending(events, e) :: e in batch)
      && (forall i, j | 0 <= i < j < |order| && order[j] in batch && Pending(events, order[i]) :: order[i] in batch)
  {
    InPendingIn(order, events);
    var n := SelectsPrefix(order, events, limit);
    InPendingIn(order[..n], events);
    var batch := FirstPending(order, events, limit);
    forall i, j | 0 <= i < j < |order| && order[j] in batch && Pending(events, order[i])
      ensures order[i] in batch
    {
      var k :| 0 <= k < n && order[..n][k] == order[j];
      assert k == j;
      assert order[..n][i] == order[i];
    }
  }

  /* ---- one call at a time ---- */

  class EventService {
    var events: map<EventId, Row>
    var order: seq<EventId>
    var broker: set<EventId>
    var inbox: set<Receipt>
    var processed: multiset<Receipt>

    /** `order` lists the events by time of occurrence. */
    ghost predicate Valid()
      reads this
    {
      && (forall e :: e in order <==> e in events)
      && NoRepeats(order)
    }

    constructor ()
      ensures Valid() && events == map[] && broker == {} && inbox == {} && processed == multiset{}
    {
      events, order, broker, inbox, processed := map[], [], {}, {}, multiset{};
    }

    method Commit(e: EventId)
      requires Valid() && e !in events
      modifies this`events, this`order
      ensures Valid() && events == old(events)[e := Row(false, 0)]
    {
      order := order + [e];
      events := events[e := Row(false, 0)];
    }

    /** The oldest pending events, at most `limit` of them, oldest first. */
    method SelectPending(limit: nat) returns (batch: seq<EventId>)
      requires Valid()
      ensures batch == FirstPending(order, events, limit)
    {
      batch := [];
      var n := 0;
      while n < |order| && |batch| < limit
        invariant n <= |order| && |batch| <= limit
        invariant batch == PendingIn(order[..n], events)
      {
        assert order[..n + 1][..n] == order[..n];
        if !events[order[n]].published {
          batch := batch + [order[n]];
        }
        n := n + 1;
      }
      PendingPrefix(order, events, n);
      assert n == |order| ==> order[..n] == order;
    }

    /** Publish a batch; the broker refuses after `sent` messages when that is less than the batch. */
    method PublishOutbox(limit: nat, sent: nat) returns (batch: seq<EventId>, count: nat)
      requires Valid()
      modifies this`events, this`broker
      ensures Valid() && order == old(order)
      ensures batch == FirstPending(order, old(events), limit)
      ensures |batch| <= limit && forall e | e in batch :: Pending(old(events), e)
      ensures |batch| < limit ==> forall e | Pending(old(events), e) :: e in batch
      ensures forall i, j | 0 <= i < j < |order| && order[j] in batch && Pending(old(events), order[i]) ::
        order[i] in batch
      ensures count == if sent < |batch| then 0 else |batch|
      ensures events.Keys == old(events).Keys
      ensures forall e | e in old(events) ::
        && events[e].published == (old(events)[e].published || (e in batch && sent >= |batch|))
        && events[e].attempts == old(events)[e].attempts + if e in batch then 1 else 0
      ensures broker == old(broker) + ToSet(batch[..if sent < |batch| then sent else |batch|])
      ensures events ==
        if sent < |batch| then Attempted(old(events), batch, old(events))
        else Confirmed(old(events), batch, old(events))
    {
      SelectionIsOldest(order, events, limit);
      batch := SelectPending(limit);
      if batch == [] {
        return batch, 0;
      }
      var n := 0;
      while n < |batch| && n < sent
        invariant n <= |batch| && n <= sent && events == old(events)
        invariant broker == old(broker) + ToSet(batch[..n])
      {
        assert batch[..n + 1] == batch[..n] + [batch[n]];
        broker := broker + {batch[n]};
        n := n + 1;
      }
      if n < |batch| {
        MarkBatch(batch, false);
        return batch, 0;
      }
      MarkBatch(batch, true);
      count := |batch|;
    }

    method MarkBatch(batch: seq<EventId>, confirmed: bool)
      requires forall e | e in batch :: e in events
      requires NoRepeats(batch)
      modifies this`events
      ensures events ==
        if confirmed then Confirmed(old(events), batch, old(events))
        else Attempted(old(events), batch, old(events))
    {
      ghost var before := events;
      for n := 0 to |batch|
        invariant events.Keys == before.Keys
        invariant forall e | e in before ::
          events[e] ==
          if e in batch[..n] then Row(confirmed || before[e].published, before[e].attempts + 1) else before[e]
      {
        assert batch[..n + 1] == batch[..n] + [batch[n]];
        assert batch[n] !in batch[..n];
        var row := events[batch[n]].(attempts := events[batch[n]].attempts + 1);
        if confirmed {
          row := row.(published := true);
        }
        events := events[batch[n] := row];
      }
      assert batch[..|batch|] == batch;
    }

    /** Consume one delivery: the receipt is stored before the processor runs. */
    method ConsumeOnce(r: Receipt) returns (duplicate: bool)
      modifies this`inbox, this`processed
      ensures duplicate <==> r in old(inbox)
      ensures inbox == old(inbox) + {r}
      ensures processed == if duplicate then old(processed) else old(processed) + multiset{r}
    {
      if r in inbox {
        return true;
      }
      inbox := inbox + {r};
      processed := processed + multiset{r};
      duplicate := false;
    }
  }

  /* ---- interleaved publishers and consumers ---- */

  /** `loaded` are the rows a publisher has read with its batch. */
  datatype Publisher = Off | Sending(batch: seq<EventId>, sent: nat, loaded: map<EventId, Row>)

  datatype Worker = Idle | Got(receipt: Receipt) | Checked(receipt: Receipt) | Recorded(receipt: Receipt)

  datatype State = State(
    events: map<EventId, Row>, broker: set<EventId>, inbox: set<Receipt>, processed: multiset<Receipt>,
    publishers: map<string, Publisher>, workers: map<string, Worker>)

  const INITIAL := State(map[], {}, {}, multiset{}, map[], map[])

  function PublisherOf(s: State, p: string): Publisher {
    if p in s.publishers then s.publishers[p] else Off
  }

  function WorkerOf(s: State, w: string): Worker {
    if w in s.workers then s.workers[w] else Idle
  }

  /** Publishers and consumers move in small steps and may crash between any two of them. */
  datatype Step =
    | Commit(e: EventId)
    | Select(p: string, batch: seq<EventId>)
    | Send(p: string)
    | Fail(p: string)
    | Confirm(p: string)
    | CrashPublisher(p: string)
    | Deliver(w: string, receipt: Receipt)
    | CheckInbox(w: string)
    | InsertInbox(w: string)
    | Process(w: string)
    | CrashWorker(w: string)

  function SetPublisher(s: State, p: string, phase: Publisher): State {
    s.(publishers := s.publishers[p := phase])
  }

  function SetWorker(s: State, w: string, phase: Worker): State {
    s.(workers := s.workers[w := phase])
  }

  /** One step; a step that is not possible changes nothing. */
  function Next(s: State, step: Step): State {
    match step
    case Commit(e) => if e in s.events then s else s.(events := s.events[e := Row(false, 0)])
    case Select(p, batch) =>
      if PublisherOf(s, p) == Off && forall i | 0 <= i < |batch| :: Pending(s.events, batch[i])
      then SetPublisher(s, p, Sending(batch, 0, s.events)) else s
    case Send(p) =>
      (match PublisherOf(s, p)
       case Sending(batch, sent, loaded) =>
         if sent >= |batch| then s
         else SetPublisher(s.(broker := s.broker + {batch[sent]}), p, Sending(batch, sent + 1, loaded))
       case Off => s)
    case Fail(p) =>
      (match PublisherOf(s, p)
       case Sending(batch, _, loaded) => SetPublisher(s.(events := Attempted(s.events, batch, loaded)), p, Off)
       case Off => s)
    case Confirm(p) =>
      (match PublisherOf(s, p)
       case Sending(batch, sent, loaded) =>
         if sent == |batch| then SetPublisher(s.(events := Confirmed(s.events, batch, loaded)), p, Off) else s
       case Off => s)
    case CrashPublisher(p) => SetPublisher(s, p, Off)
    case Deliver(w, receipt) =>
      if WorkerOf(s, w) == Idle && receipt.event in s.broker then SetWorker(s, w, Got(receipt)) else s
    case CheckInbox(w) =>
      (match WorkerOf(s, w)
       case Got(r) => SetWorker(s, w, if r in s.inbox then Idle else Checked(r))
       case _ => s)
    case InsertInbox(w) =>
      (match WorkerOf(s, w)
       case Checked(r) =>
         if r in s.inbox then SetWorker(s, w, Idle) else SetWorker(s.(inbox := s.inbox + {r}), w, Recorded(r))
       case _ => s)
    case Process(w) =>
      (match WorkerOf(s, w)
       case Recorded(r) => SetWorker(s.(processed := s.processed + multiset{r}), w, Idle)
       case _ => s)
    case CrashWorker(w) => SetWorker(s, w, Idle)
  }

  function Run(steps: seq<Step>): State {
    if steps == [] then INITIAL else Next(Run(steps[..|steps| - 1]), steps[|steps| - 1])
  }

  /** A phase a publisher can be in, given the events and the broker. */
  ghost predicate PublisherFits(phase: Publisher, events: map<EventId, Row>, broker: set<EventId>) {
    phase.Sending? ==>
      && phase.sent <= |phase.batch|
      && (forall i | 0 <= i < |phase.batch| :: phase.batch[i] in events && phase.batch[i] in phase.loaded)
      && (forall i | 0 <= i < phase.sent :: phase.batch[i] in broker)
  }

  /** Published events and sent prefixes are at the broker, and nothing is there that was not committed. */
  ghost predicate PublisherInv(s: State) {
    && s.broker <= s.events.Keys
    && (forall e | e in s.events && s.events[e].published :: e in s.broker)
    && (forall p :: PublisherFits(PublisherOf(s, p), s.events, s.broker))
  }

  /** A receipt is processed at most once: by the one worker that recorded it, which has not processed it yet. */
  ghost predicate WorkerInv(s: State) {
    && (forall r :: s.processed[r] <= 1)
    && (forall r | r in s.processed :: r in s.inbox)
    && (forall r | r in s.inbox :: r.event in s.broker)
    && (forall w | !WorkerOf(s, w).Idle? :: WorkerOf(s, w).receipt.event in s.broker)
    && (forall w | WorkerOf(s, w).Recorded? ::
        WorkerOf(s, w).receipt in s.inbox && WorkerOf(s, w).receipt !in s.processed)
    && (forall v, w | WorkerOf(s, v).Recorded? && WorkerOf(s, w) == WorkerOf(s, v) :: v == w)
  }

  lemma WorkersAfter(s: State, w: string, phase: Worker)
    ensures forall v :: WorkerOf(SetWorker(s, w, phase), v) == if v == w then phase else WorkerOf(s, v)
  {}

  predicate PublisherSide(step: Step) {
    step.Commit? || step.Select? || step.Send? || step.Fail? || step.Confirm? || step.CrashPublisher?
  }

  lemma PublisherSideKeepsWorkers(s: State, step: Step)
    requires PublisherSide(step)
    ensures var s' := Next(s, step);
      s'.workers == s.workers && s'.inbox == s.inbox && s'.processed == s.processed && s.broker <= s'.broker
  {}

  lemma ConsumerSideKeepsPublishers(s: State, step: Step)
    requires !PublisherSide(step)
    ensures var s' := Next(s, step); s'.publishers == s.publishers && s'.events == s.events && s'.broker == s.broker
  {}

  lemma PublisherMove(s: State, p: string, phase: Publisher, events: map<EventId, Row>, broker: set<EventId>)
    requires PublisherInv(s)
    requires s.events.Keys == events.Keys && s.broker <= broker <= events.Keys
    requires forall e | e in events && events[e].published :: e in broker
    requires PublisherFits(phase, events, broker)
    ensures PublisherInv(SetPublisher(s.(events := events, broker := broker), p, phase))
  {
    var s' := SetPublisher(s.(events := events, broker := broker), p, phase);
    forall q
      ensures PublisherFits(PublisherOf(s', q), events, broker)
    {
      assert PublisherOf(s', q) == if q == p then phase else PublisherOf(s, q);
    }
  }

  lemma ConfirmKeepsInv(s: State, p: string, batch: seq<EventId>, loaded: map<EventId, Row>)
    requires PublisherInv(s) && PublisherOf(s, p) == Sending(batch, |batch|, loaded)
    ensures PublisherInv(SetPublisher(s.(events := Confirmed(s.events, batch, loaded)), p, Off))
  {
    assert PublisherFits(PublisherOf(s, p), s.events, s.broker);
    forall e | e in batch
      ensures e in s.broker
    {
      var i :| 0 <= i < |batch| && batch[i] == e;
    }
    PublisherMove(s, p, Off, Confirmed(s.events, batch, loaded), s.broker);
  }

  lemma StepKeepsPublisherInv(s: State, step: Step)
    requires PublisherInv(s)
    ensures PublisherInv(Next(s, step))
  {
    var s' := Next(s, step);
    if !PublisherSide(step) {
      ConsumerSideKeepsPublishers(s, step);
      assert forall q :: PublisherOf(s', q) == PublisherOf(s, q);
    } else if step.Commit? {
      assert forall q :: PublisherOf(s', q) == PublisherOf(s, q);
      assert forall q :: PublisherFits(PublisherOf(s, q), s.events, s.broker);
    } else if s' != s {
      var phase := PublisherOf(s, step.p);
      assert PublisherFits(phase, s.events, s.broker);
      if step.Confirm? {
        ConfirmKeepsInv(s, step.p, phase.batch, phase.loaded);
      } else {
        PublisherMove(s, step.p, PublisherOf(s', step.p), s'.events, s'.broker);
      }
    }
  }

  lemma WorkerMove(s: State, w: string, phase: Worker)
    requires WorkerInv(s)
    requires !phase.Recorded?
    requires !phase.Idle? ==> phase.receipt.event in s.broker
    ensures WorkerInv(SetWorker(s, w, phase))
  {
    WorkersAfter(s, w, phase);
  }

  lemma InsertKeepsInv(s: State, w: string, r: Receipt)
    requires WorkerInv(s) && WorkerOf(s, w) == Checked(r) && r !in s.inbox
    ensures WorkerInv(SetWorker(s.(inbox := s.inbox + {r}), w, Recorded(r)))
  {
    WorkersAfter(s.(inbox := s.inbox + {r}), w, Recorded(r));
    assert forall v :: WorkerOf(s.(inbox := s.inbox + {r}), v) == WorkerOf(s, v);
  }

  lemma ProcessKeepsInv(s: State, w: string, r: Receipt)
    requires WorkerInv(s) && WorkerOf(s, w) == Recorded(r)
    ensures WorkerInv(SetWorker(s.(processed := s.processed + multiset{r}), w, Idle))
  {
    var t := s.(processed := s.processed + multiset{r});
    WorkersAfter(t, w, Idle);
    assert forall v :: WorkerOf(t, v) == WorkerOf(s, v);
    forall x
      ensures t.processed[x] <= 1
    {
      assert s.processed[x] <= 1;
    }
  }

  /** The steps of a consumer up to the inbox query, and its crash. */
  lemma ReadingKeepsInv(s: State, step: Step)
    requires WorkerInv(s) && (step.Deliver? || step.CheckInbox? || step.CrashWorker?)
    ensures WorkerInv(Next(s, step))
  {
    var s' := Next(s, step);
    if s' != s {
      WorkerMove(s, step.w, WorkerOf(s', step.w));
    }
  }

  lemma WritingKeepsInv(s: State, step: Step)
    requires WorkerInv(s) && (step.InsertInbox? || step.Process?)
    ensures WorkerInv(Next(s, step))
  {
    var phase := WorkerOf(s, step.w);
    if step.Process? && phase.Recorded? {
      ProcessKeepsInv(s, step.w, phase.receipt);
    } else if step.InsertInbox? && phase.Checked? && phase.receipt !in s.inbox {
      InsertKeepsInv(s, step.w, phase.receipt);
    } else if step.InsertInbox? && phase.Checked? {
      WorkerMove(s, step.w, Idle);
    }
  }

  lemma PublishingKeepsWorkerInv(s: State, step: Step)
    requires WorkerInv(s) && PublisherSide(step)
    ensures WorkerInv(Next(s, step))
  {
    PublisherSideKeepsWorkers(s, step);
    assert forall v :: WorkerOf(Next(s, step), v) == WorkerOf(s, v);
  }

  lemma StepKeepsWorkerInv(s: State, step: Step)
    requires WorkerInv(s)
    ensures WorkerInv(Next(s, step))
  {
    if PublisherSide(step) {
      PublishingKeepsWorkerInv(s, step);
    } else if step.InsertInbox? || step.Process? {
      WritingKeepsInv(s, step);
    } else {
      ReadingKeepsInv(s, step);
    }
  }

  lemma {:induction false} RunKeepsInv(steps: seq<Step>)
    ensures PublisherInv(Run(steps)) && WorkerInv(Run(steps))
  {
    if steps != [] {
      var before := steps[..|steps| - 1];
      RunKeepsInv(before);
      StepKeepsPublisherInv(Run(before), steps[|steps| - 1]);
      StepKeepsWorkerInv(Run(before), steps[|steps| - 1]);
    }
  }

  /** In every run: a published event is at the broker, and what is at the broker was committed. */
  lemma {:induction false} PublishedIsAtBroker(steps: seq<Step>, e: EventId)
    ensures var s := Run(steps);
      && (e in s.events && s.events[e].published ==> e in s.broker)
      && (e in s.broker ==> e in s.events)
  {
    RunKeepsInv(steps);
  }

  /** In every run and for every next step: a committed event stays, it leaves the pending set only when it is
      at the broker, and it never becomes pending again. */
  lemma CommittedIsNeverLost(steps: seq<Step>, step: Step, e: EventId)
    requires e in Run(steps).events
    ensures var s := Run(steps); var s' := Next(s, step);
      && e in s'.events
      && (Pending(s.events, e) && !Pending(s'.events, e) ==> e in s.broker)
      && (s.events[e].published ==> s'.events[e].published)
  {
    RunKeepsInv(steps);
    StepLosesNothing(Run(steps), step, e);
  }

  lemma StepLosesNothing(s: State, step: Step, e: EventId)
    requires PublisherInv(s) && e in s.events
    ensures var s' := Next(s, step);
      && e in s'.events
      && (Pending(s.events, e) && !Pending(s'.events, e) ==> e in s.broker)
      && (s.events[e].published ==> s'.events[e].published)
  {
    var s' := Next(s, step);
    if Pending(s.events, e) && !Pending(s'.events, e) {
      assert step.Confirm?;
      var phase := PublisherOf(s, step.p);
      assert PublisherFits(phase, s.events, s.broker);
      var i :| 0 <= i < |phase.batch| && phase.batch[i] == e;
      assert phase.batch[i] in s.broker;
    }
  }

  /** The counter of attempts may fall. It does so exactly when a publisher ends its batch although two or more others
      have counted since it loaded its rows. */
  lemma AttemptsFallIff(s: State, step: Step, e: EventId)
    requires PublisherInv(s) && e in s.events
    ensures Next(s, step).events[e].attempts < s.events[e].attempts
       <==> && (step.Fail? || step.Confirm?)
            && var phase := PublisherOf(s, step.p);
               && phase.Sending? && e in phase.batch && e in phase.loaded
               && (step.Confirm? ==> phase.sent == |phase.batch|)
               && phase.loaded[e].attempts + 1 < s.events[e].attempts
  {}

  /** A failed publication of the one pending event. */
  function FailedOnce(s: State, p: string, e: EventId): State {
    Next(Next(s, Select(p, [e])), Fail(p))
  }

  lemma FailedOnceCounts(s: State, p: string, e: EventId)
    requires Pending(s.events, e) && PublisherOf(s, p) == Off
    ensures var t := FailedOnce(s, p, e);
      && t.events == s.events[e := Row(false, s.events[e].attempts + 1)]
      && forall q :: PublisherOf(t, q) == PublisherOf(s, q)
  {
    var s1 := Next(s, Select(p, [e]));
    assert PublisherOf(s1, p) == Sending([e], 0, s.events);
  }

  /** An instance: while one publisher is at work another fails twice; the first one's failure then takes one attempt
      back. */
  lemma AttemptLost(s: State, p: string, q: string, e: EventId)
    requires Pending(s.events, e) && p != q && PublisherOf(s, p) == Off && PublisherOf(s, q) == Off
    ensures var t := FailedOnce(FailedOnce(Next(s, Select(p, [e])), q, e), q, e);
      && t.events[e] == Row(false, s.events[e].attempts + 2)
      && Next(t, Fail(p)).events[e] == Row(false, s.events[e].attempts + 1)
  {
    var s1 := Next(s, Select(p, [e]));
    assert PublisherOf(s1, p) == Sending([e], 0, s.events) && PublisherOf(s1, q) == Off;
    FailedOnceCounts(s1, q, e);
    FailedOnceCounts(FailedOnce(s1, q, e), q, e);
    var t := FailedOnce(FailedOnce(s1, q, e), q, e);
    assert PublisherOf(t, p) == Sending([e], 0, s.events);
  }

  /** In every run the processor runs at most once per event and consumer, and only for committed events. */
  lemma {:induction false} ProcessedAtMostOnce(steps: seq<Step>, r: Receipt)
    ensures Run(steps).processed[r] <= 1
    ensures r in Run(steps).processed ==> r in Run(steps).inbox && r.event in Run(steps).events
  {
    RunKeepsInv(steps);
  }

  /* ---- progress ---- */

  /** The end of a publication: everything sent, every event of the batch becomes published and no other changes; short
      of that, nothing becomes published. */
  lemma EndOfBatch(s: State, p: string, e: EventId)
    requires PublisherInv(s) && PublisherOf(s, p).Sending? && e in s.events
    ensures var phase := PublisherOf(s, p); var confirmed, failed := Next(s, Confirm(p)), Next(s, Fail(p));
      && e in confirmed.events && e in failed.events
      && (phase.sent == |phase.batch| && e in phase.batch ==>
          confirmed.events[e].published && !Pending(confirmed.events, e))
      && (phase.sent < |phase.batch| || e !in phase.batch ==> confirmed.events[e] == s.events[e])
      && failed.events[e].published == s.events[e].published
      && (e !in phase.batch ==> failed.events[e] == s.events[e])
  {
    assert PublisherFits(PublisherOf(s, p), s.events, s.broker);
  }

  /** A selection takes pending events only, so no later one contains a published event. */
  lemma SelectionsSkipPublished(steps: seq<Step>, more: seq<Step>, q: string, batch: seq<EventId>, e: EventId)
    requires e in Run(steps).events && Run(steps).events[e].published && e in batch
    ensures e in Run(steps + more).events && Run(steps + more).events[e].published
    ensures Next(Run(steps + more), Select(q, batch)) == Run(steps + more)
  {
    PublishedStays(steps, more, e);
    var k :| 0 <= k < |batch| && batch[k] == e;
    assert !Pending(Run(steps + more).events, batch[k]);
  }

  lemma {:induction false} PublishedStays(steps: seq<Step>, more: seq<Step>, e: EventId)
    requires e in Run(steps).events && Run(steps).events[e].published
    ensures e in Run(steps + more).events && Run(steps + more).events[e].published
  {
    if more == [] {
      assert steps + more == steps;
    } else {
      var front, step := more[..|more| - 1], more[|more| - 1];
      PublishedStays(steps, front, e);
      assert (steps + more)[..|steps + more| - 1] == steps + front && (steps + more)[|steps + more| - 1] == step;
      RunKeepsInv(steps + front);
      StepLosesNothing(Run(steps + front), step, e);
    }
  }

  /** A whole undisturbed publication of pending events: all at the broker, all published. */
  lemma {:induction false} SendAll(s: State, p: string, n: nat) returns (t: State)
    requires PublisherOf(s, p).Sending? && PublisherOf(s, p).sent == 0 && n <= |PublisherOf(s, p).batch|
    ensures PublisherOf(t, p) == PublisherOf(s, p).(sent := n) && t.events == s.events
    ensures forall k | 0 <= k < n :: PublisherOf(s, p).batch[k] in t.broker
  {
    if n == 0 {
      t := s;
    } else {
      var before := SendAll(s, p, n - 1);
      t := Next(before, Send(p));
    }
  }

  /** A delivery nobody disturbs of an event that is new to the consumer is processed, once more than before, and its
      receipt kept; one that is in the inbox is not. */
  lemma DeliveryProcesses(s: State, w: string, r: Receipt)
    requires WorkerOf(s, w) == Idle && r.event in s.broker
    ensures var t := Next(Next(Next(Next(s, Deliver(w, r)), CheckInbox(w)), InsertInbox(w)), Process(w));
      && t.inbox == s.inbox + {r} && WorkerOf(t, w) == Idle
      && t.processed == if r in s.inbox then s.processed else s.processed + multiset{r}
  {
    var s1 := Next(s, Deliver(w, r));
    assert WorkerOf(s1, w) == Got(r) && s1.inbox == s.inbox;
    var s2 := Next(s1, CheckInbox(w));
    assert WorkerOf(s2, w) == if r in s.inbox then Idle else Checked(r);
    var s3 := Next(s2, InsertInbox(w));
    assert WorkerOf(s3, w) == if r in s.inbox then Idle else Recorded(r);
    assert s3.inbox == s.inbox + {r} && s3.processed == s.processed;
  }
}
