/** The accounting ledger of one tenant: `accounting` in services/aaa-service/app/services.py,
    `traffic_counter` in services/aaa-service/app/radius.py and `reset_subscriber_usage` in
    services/aaa-service/app/main.py. */
module Accounting {
  import opened Common

  const GIGAWORD := 0x1_0000_0000

  /** A 64-bit counter from its gigawords and octets attributes. */
  function TrafficCounter(gigawords: nat, octets: nat): nat {
    gigawords * GIGAWORD + octets
  }

  /** RFC 2869 sections 5.1 and 5.2: octets hold the total modulo 2^32, gigawords how often it wrapped. */
  lemma SplitCounter(total: nat)
    ensures total % GIGAWORD < GIGAWORD
    ensures TrafficCounter(total / GIGAWORD, total % GIGAWORD) == total
    ensures total < GIGAWORD * GIGAWORD ==> total / GIGAWORD < GIGAWORD
  {}

  datatype Direction = In | Out

  datatype AcctStatus = Start | Interim | Stop | AccountingOn | AccountingOff | UnknownStatus

  datatype Packet = Packet(
    nas: Option<string>, status: AcctStatus, session: string, timestamp: string, subscriber: Option<string>,
    inGigawords: nat, inOctets: nat, outGigawords: nat, outOctets: nat, suppliedKey: Option<string>, period: string)
  {
    function Total(d: Direction): nat {
      match d
      case In => TrafficCounter(inGigawords, inOctets)
      case Out => TrafficCounter(outGigawords, outOctets)
    }

    /** Start, interim and stop packets carry a session. */
    predicate Traffic() {
      status == Start || status == Interim || status == Stop
    }
  }

  /** The digest of the fields is taken to be injective. */
  datatype EventKey =
    | Supplied(text: string)
    | Derived(nas: string, session: string, status: AcctStatus, timestamp: string, inTotal: nat, outTotal: nat)

  datatype SessionStatus = Starting | Active | Stopped | Stale | DisconnectRequested | DisconnectSent

  datatype SessionRow = SessionRow(id: string, nas: string, subscriber: Option<string>, inTotal: nat, outTotal: nat,
                                   status: SessionStatus)
  {
    function Total(d: Direction): nat {
      match d case In => inTotal case Out => outTotal
    }
  }

  datatype UsageRow = UsageRow(subscriber: string, period: string, inTotal: nat, outTotal: nat, fupActive: bool)
  {
    function Total(d: Direction): nat {
      match d case In => inTotal case Out => outTotal
    }
  }

  datatype CommandKey = FupKey(period: string, session: string) | ResetKey(request: string, session: string)

  datatype Notice =
    | FupActivated(subscriber: string, period: string)
    | FupCleared(subscriber: string, period: string)
    | CoaRequested(command: CommandKey)
    | SessionStale(session: string)
    | AccountingReceived(key: EventKey)

  datatype Ledger = Ledger(
    sessions: seq<SessionRow>, usage: seq<UsageRow>, keys: set<EventKey>, commands: seq<CommandKey>,
      outbox: seq<Notice>)

  const EMPTY := Ledger([], [], {}, [], [])

  /* ---- rows ---- */

  function SessionIndex(rows: seq<SessionRow>, id: string): (i: nat)
    ensures i <= |rows|
    ensures i < |rows| ==> rows[i].id == id
    ensures forall k | 0 <= k < i :: rows[k].id != id
  {
    if rows == [] || rows[0].id == id then 0 else 1 + SessionIndex(rows[1..], id)
  }

  function UsageIndex(rows: seq<UsageRow>, subscriber: string, period: string): (i: nat)
    ensures i <= |rows|
    ensures i < |rows| ==> rows[i].subscriber == subscriber && rows[i].period == period
    ensures forall k | 0 <= k < i :: rows[k].subscriber != subscriber || rows[k].period != period
  {
    if rows == [] || (rows[0].subscriber == subscriber && rows[0].period == period) then 0
    else 1 + UsageIndex(rows[1..], subscriber, period)
  }

  /** Overwrite row `i`, or append when `i` is the length of the table. */
  function Put<T>(rows: seq<T>, i: nat, row: T): (r: seq<T>)
    requires i <= |rows|
    ensures |r| == if i < |rows| then |rows| else |rows| + 1
    ensures r[i] == row
    ensures forall k | 0 <= k < |rows| && k != i :: r[k] == rows[k]
  {
    if i < |rows| then rows[i := row] else rows + [row]
  }

  /* ---- one accounting packet ---- */

  function KeyOf(p: Packet): EventKey
    requires p.nas.Some?
  {
    if OrNone(p.suppliedKey).Some? then Supplied(p.suppliedKey.value)
    else Derived(p.nas.value, p.session, p.status, p.timestamp, p.Total(In), p.Total(Out))
  }

  /** The packet is refused before anything is written. */
  predicate Refused(p: Packet) {
    p.nas.None? || p.status == UnknownStatus || (p.session == "" && p.Traffic())
  }

  /** The session row a packet finds, or the new row it would create. */
  function SessionBefore(rows: seq<SessionRow>, p: Packet): SessionRow
    requires p.nas.Some?
  {
    var i := SessionIndex(rows, p.session);
    if i < |rows| then rows[i] else SessionRow(p.session, p.nas.value, p.subscriber, 0, 0, Starting)
  }

  function SessionAfter(row: SessionRow, p: Packet): SessionRow {
    row.(inTotal := Max(row.inTotal, p.Total(In)), outTotal := Max(row.outTotal, p.Total(Out)),
         status := if p.status == Stop then Stopped else Active)
  }

  function UsageBefore(rows: seq<UsageRow>, subscriber: string, period: string): UsageRow {
    var i := UsageIndex(rows, subscriber, period);
    if i < |rows| then rows[i] else UsageRow(subscriber, period, 0, 0, false)
  }

  /** The positive part of a counter's growth. */
  function Growth(before: nat, reported: nat): nat {
    if reported > before then reported - before else 0
  }

  /** A usage row after the growth of a session was added. */
  function UsageAfter(row: UsageRow, session: SessionRow, p: Packet): UsageRow {
    row.(inTotal := row.inTotal + Growth(session.inTotal, p.Total(In)),
         outTotal := row.outTotal + Growth(session.outTotal, p.Total(Out)))
  }

  /** The threshold is reached and the flag is still down. */
  predicate Activates(row: UsageRow, threshold: Option<int>) {
    threshold.Some? && !row.fupActive && row.inTotal + row.outTotal >= threshold.value
  }

  predicate Live(row: SessionRow, subscriber: string) {
    row.subscriber == Some(subscriber) && (row.status == Starting || row.status == Active)
  }

  /** Queue one command per live session of a subscriber unless its key exists already. */
  function QueueCommands(l: Ledger, rows: seq<SessionRow>, subscriber: string, key: string -> CommandKey): Ledger {
    if rows == [] then l
    else
      var before := QueueCommands(l, rows[..|rows| - 1], subscriber, key);
      var row := rows[|rows| - 1];
      if !Live(row, subscriber) || key(row.id) in before.commands then before
      else before.(commands := before.commands + [key(row.id)], outbox := before.outbox + [CoaRequested(key(row.id))])
  }

  function FupKeys(period: string): string -> CommandKey {
    (session: string) => FupKey(period, session)
  }

  function ResetKeys(request: string): string -> CommandKey {
    (session: string) => ResetKey(request, session)
  }

  /** The projection of a packet's growth on its subscriber's usage of the period; `stored` are the session
      rows as they were stored before the packet. */
  function Project(l: Ledger, stored: seq<SessionRow>, subscriber: string, session: SessionRow, p: Packet,
                   threshold: Option<int>): Ledger {
    var i := UsageIndex(l.usage, subscriber, p.period);
    var row := UsageAfter(UsageBefore(l.usage, subscriber, p.period), session, p);
    if !Activates(row, threshold) then l.(usage := Put(l.usage, i, row))
    else
      var raised := l.(usage := Put(l.usage, i, row.(fupActive := true)),
                       outbox := l.outbox + [FupActivated(subscriber, p.period)]);
      QueueCommands(raised, stored, subscriber, FupKeys(p.period))
  }

  function RecordTraffic(l: Ledger, p: Packet, threshold: Option<int>): Ledger
    requires p.nas.Some?
  {
    var i := SessionIndex(l.sessions, p.session);
    var before := SessionBefore(l.sessions, p);
    var l1 := l.(sessions := Put(l.sessions, i, SessionAfter(before, p)));
    if before.subscriber.None? then l1
    else Project(l1, l.sessions, before.subscriber.value, before, p, threshold)
  }

  predicate Suspect(row: SessionRow, nas: string) {
    row.nas == nas
      && (row.status == Starting || row.status == Active || row.status == DisconnectRequested
          || row.status == DisconnectSent)
  }

  /** A NAS lifecycle signal makes its sessions stale. */
  function StaleRows(rows: seq<SessionRow>, nas: string): (r: seq<SessionRow>)
    ensures |r| == |rows|
    ensures forall i | 0 <= i < |rows| :: r[i] == if Suspect(rows[i], nas) then rows[i].(status := Stale) else rows[i]
  {
    if rows == [] then []
    else
      var row := rows[|rows| - 1];
      StaleRows(rows[..|rows| - 1], nas) + [if Suspect(row, nas) then row.(status := Stale) else row]
  }

  function StaleNotices(rows: seq<SessionRow>, nas: string): seq<Notice> {
    if rows == [] then []
    else
      var row := rows[|rows| - 1];
      StaleNotices(rows[..|rows| - 1], nas) + if Suspect(row, nas) then [SessionStale(row.id)] else []
  }

  function MarkStale(l: Ledger, nas: string): Ledger {
    l.(sessions := StaleRows(l.sessions, nas), outbox := l.outbox + StaleNotices(l.sessions, nas))
  }

  datatype Answer = Ok | Duplicate | RejectUnknownNas | RejectPolicy

  function AnswerTo(l: Ledger, p: Packet): Answer {
    if p.nas.None? then RejectUnknownNas
    else if Refused(p) then RejectPolicy
    else if KeyOf(p) in l.keys then Duplicate
    else Ok
  }

  function Account(l: Ledger, p: Packet, threshold: Option<int>): Ledger {
    if AnswerTo(l, p) != Ok then l
    else
      var l1 := l.(keys := l.keys + {KeyOf(p)});
      var l2 := if p.Traffic() then RecordTraffic(l1, p, threshold) else MarkStale(l1, p.nas.value);
      l2.(outbox := l2.outbox + [AccountingReceived(KeyOf(p))])
  }

  /** A quota reset of one usage row. */
  function Reset(l: Ledger, subscriber: string, period: string, request: string): Ledger {
    var i := UsageIndex(l.usage, subscriber, period);
    if i == |l.usage| then l
    else
      var l1 := l.(usage := l.usage[i := UsageRow(subscriber, period, 0, 0, false)]);
      if !l.usage[i].fupActive then l1
      else QueueCommands(l1.(outbox := l1.outbox + [FupCleared(subscriber, period)]), l.sessions, subscriber,
                         ResetKeys(request))
  }

  /* ---- the service ---- */

  class AccountingService {
    var sessions: seq<SessionRow>
    var usage: seq<UsageRow>
    var keys: set<EventKey>
    var commands: seq<CommandKey>
    var outbox: seq<Notice>

    ghost function State(): Ledger
      reads this
    {
      Ledger(sessions, usage, keys, commands, outbox)
    }

    constructor ()
      ensures State() == EMPTY
    {
      sessions, usage, keys, commands, outbox := [], [], {}, [], [];
    }

    method FindSession(id: string) returns (i: nat)
      ensures i == SessionIndex(sessions, id)
    {
      i := 0;
      while i < |sessions| && sessions[i].id != id
        invariant i <= |sessions|
        invariant forall k | 0 <= k < i :: sessions[k].id != id
      {
        i := i + 1;
      }
    }

    method FindUsage(subscriber: string, period: string) returns (i: nat)
      ensures i == UsageIndex(usage, subscriber, period)
    {
      i := 0;
      while i < |usage| && (usage[i].subscriber != subscriber || usage[i].period != period)
        invariant i <= |usage|
        invariant forall k | 0 <= k < i :: usage[k].subscriber != subscriber || usage[k].period != period
      {
        i := i + 1;
      }
    }

    method QueueCoa(rows: seq<SessionRow>, subscriber: string, key: string -> CommandKey)
      modifies this
      ensures State() == QueueCommands(old(State()), rows, subscriber, key)
    {
      for n := 0 to |rows|
        invariant State() == QueueCommands(old(State()), rows[..n], subscriber, key)
      {
        assert rows[..n + 1][..n] == rows[..n];
        var row := rows[n];
        if !Live(row, subscriber) {
          continue;
        }
        var command := key(row.id);
        if command in commands {
          continue;
        }
        commands := commands + [command];
        outbox := outbox + [CoaRequested(command)];
      }
      assert rows[..|rows|] == rows;
    }

    method SignalNas(nas: string)
      modifies this
      ensures State() == MarkStale(old(State()), nas)
    {
      var n := 0;
      ghost var before := sessions;
      ghost var after := StaleRows(before, nas);
      while n < |sessions|
        invariant n <= |sessions| == |before| == |after|
        invariant forall k | 0 <= k < |before| :: sessions[k] == if k < n then after[k] else before[k]
        invariant outbox == old(outbox) + StaleNotices(before[..n], nas)
        invariant usage == old(usage) && keys == old(keys) && commands == old(commands)
      {
        assert before[..n + 1][..n] == before[..n];
        if Suspect(sessions[n], nas) {
          outbox := outbox + [SessionStale(sessions[n].id)];
          sessions := sessions[n := sessions[n].(status := Stale)];
        }
        n := n + 1;
      }
      assert before[..n] == before;
      assert sessions == after;
    }

    method ProjectUsage(stored: seq<SessionRow>, subscriber: string, before: SessionRow, p: Packet,
                        threshold: Option<int>)
      modifies this
      ensures State() == Project(old(State()), stored, subscriber, before, p, threshold)
    {
      var i := FindUsage(subscriber, p.period);
      if i == |usage| {
        usage := usage + [UsageRow(subscriber, p.period, 0, 0, false)];
      }
      var row := usage[i];
      row := row.(inTotal := row.inTotal + Max(0, p.Total(In) - before.inTotal));
      row := row.(outTotal := row.outTotal + Max(0, p.Total(Out) - before.outTotal));
      usage := usage[i := row];
      assert usage == Put(old(usage), i, UsageAfter(UsageBefore(old(usage), subscriber, p.period), before, p));
      if threshold.Some? && !row.fupActive && row.inTotal + row.outTotal >= threshold.value {
        usage := usage[i := row.(fupActive := true)];
        assert usage == Put(old(usage), i, row.(fupActive := true));
        outbox := outbox + [FupActivated(subscriber, p.period)];
        QueueCoa(stored, subscriber, FupKeys(p.period));
      }
    }

    method Handle(p: Packet, threshold: Option<int>) returns (answer: Answer)
      modifies this
      ensures answer == AnswerTo(old(State()), p)
      ensures State() == Account(old(State()), p, threshold)
    {
      if p.nas.None? {
        return RejectUnknownNas;
      }
      if p.status == UnknownStatus {
        return RejectPolicy;
      }
      if p.session == "" && p.status != AccountingOn && p.status != AccountingOff {
        return RejectPolicy;
      }
      var key := KeyOf(p);
      if key in keys {
        return Duplicate;
      }
      keys := keys + {key};
      if p.status == AccountingOn || p.status == AccountingOff {
        SignalNas(p.nas.value);
      } else {
        var stored := sessions;
        var i := FindSession(p.session);
        if i == |sessions| {
          sessions := sessions + [SessionRow(p.session, p.nas.value, p.subscriber, 0, 0, Starting)];
        }
        var before := sessions[i];
        sessions :=
          sessions[i := before.(inTotal := Max(before.inTotal, p.Total(In)),
                                outTotal := Max(before.outTotal, p.Total(Out)))];
        sessions := sessions[i := sessions[i].(status := if p.status == Stop then Stopped else Active)];
        assert sessions == Put(stored, i, SessionAfter(before, p));
        if before.subscriber.Some? {
          ProjectUsage(stored, before.subscriber.value, before, p, threshold);
        }
      }
      outbox := outbox + [AccountingReceived(key)];
      answer := Ok;
    }

    method ResetUsage(subscriber: string, period: string, request: string) returns (found: bool)
      modifies this
      ensures found <==> UsageIndex(old(usage), subscriber, period) < |old(usage)|
      ensures State() == Reset(old(State()), subscriber, period, request)
    {
      var i := FindUsage(subscriber, period);
      if i == |usage| {
        return false;
      }
      var wasFup := usage[i].fupActive;
      usage := usage[i := usage[i].(inTotal := 0, outTotal := 0, fupActive := false)];
      if wasFup {
        outbox := outbox + [FupCleared(subscriber, period)];
        QueueCoa(sessions, subscriber, ResetKeys(request));
      }
      found := true;
    }
  }
}
