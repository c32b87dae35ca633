/** What one packet and one reset do to sessions, keys, commands and notices, told on the rows themselves:
    services/aaa-service/app/services.py and `reset_subscriber_usage` in services/aaa-service/app/main.py. */
module AccountingFacts {
  import opened Common
  import opened Accounting
  import opened LedgerRuns

  /* ---- counters and keys ---- */

  /** The counter of sections 5.1 and 5.2 of RFC 2869. */
  lemma CounterIs(gigawords: nat, octets: nat)
    ensures TrafficCounter(gigawords, octets) == gigawords * 4294967296 + octets
  {}

  /** Two packets have one key exactly when both bring the same key of their own, or neither does and they agree on NAS,
      session, kind, timestamp and both totals. */
  lemma SameKeyIff(p: Packet, q: Packet)
    requires p.nas.Some? && q.nas.Some?
    ensures KeyOf(p) == KeyOf(q) <==>
      if p.suppliedKey in {None, Some("")}
      then && q.suppliedKey in {None, Some("")}
           && p.nas == q.nas && p.session == q.session && p.status == q.status && p.timestamp == q.timestamp
           && p.Total(In) == q.Total(In) && p.Total(Out) == q.Total(Out)
      else p.suppliedKey == q.suppliedKey
  {}

  /** Which answer a packet gets, and that a refused or repeated one changes nothing. */
  lemma AnswerMeans(l: Ledger, p: Packet, threshold: Option<int>)
    ensures var answer, t := AnswerTo(l, p), Account(l, p, threshold);
      && (answer == RejectUnknownNas <==> p.nas.None?)
      && (answer == RejectPolicy <==>
            p.nas.Some? && (p.status == UnknownStatus || (p.session == "" && p.status in {Start, Interim, Stop})))
      && (answer == Duplicate ==> KeyOf(p) in l.keys)
      && (answer == Ok ==> p.nas.Some? && KeyOf(p) !in l.keys && t.keys == l.keys + {KeyOf(p)})
      && (answer != Ok ==> t == l)
  {
    if AnswerTo(l, p) == Ok && p.Traffic() {
      SessionAfterTraffic(l.(keys := l.keys + {KeyOf(p)}), p, threshold);
    }
  }

  /* ---- the session rows ---- */

  /** A start, interim or stop writes the row of its session, or makes it; other rows stay. */
  lemma TrafficRow(l: Ledger, p: Packet, threshold: Option<int>)
    requires AnswerTo(l, p) == Ok && p.status in {Start, Interim, Stop}
    ensures var rows, after := l.sessions, Account(l, p, threshold).sessions; var i := SessionIndex(rows, p.session);
      && |after| == (if i < |rows| then |rows| else |rows| + 1)
      && (forall k | 0 <= k < |rows| && k != i :: after[k] == rows[k])
      && after[i].id == p.session
      && after[i].status == (if p.status == Stop then Stopped else Active)
      && after[i].nas == (if i < |rows| then rows[i].nas else p.nas.value)
      && after[i].subscriber == (if i < |rows| then rows[i].subscriber else p.subscriber)
      && forall d ::
           var before := if i < |rows| then rows[i].Total(d) else 0;
           after[i].Total(d) == if before < p.Total(d) then p.Total(d) else before
  {
    SessionAfterTraffic(l.(keys := l.keys + {KeyOf(p)}), p, threshold);
  }

  /** A NAS that goes on or off makes its own open sessions stale, with a notice for each and one for the packet, and
      touches nothing else. */
  lemma NasSignalRows(l: Ledger, p: Packet, threshold: Option<int>)
    requires AnswerTo(l, p) == Ok && p.status in {AccountingOn, AccountingOff}
    ensures var t := Account(l, p, threshold);
      && t.usage == l.usage && t.commands == l.commands && |t.sessions| == |l.sessions|
      && t.keys == l.keys + {KeyOf(p)}
      && t.outbox == l.outbox + StaleNotices(l.sessions, p.nas.value) + [AccountingReceived(KeyOf(p))]
      && forall i | 0 <= i < |l.sessions| ::
           var row := l.sessions[i];
           t.sessions[i] ==
           if p.nas == Some(row.nas) && row.status in {Starting, Active, DisconnectRequested, DisconnectSent}
           then row.(status := Stale) else row
  {}

  /** The notices of a NAS signal: one per session that becomes stale, in order. */
  lemma StaleNoticesMean(rows: seq<SessionRow>, row: SessionRow, nas: string)
    ensures StaleNotices([], nas) == []
    ensures StaleNotices(rows + [row], nas) == StaleNotices(rows, nas)
      + if row.nas == nas && row.status in {Starting, Active, DisconnectRequested, DisconnectSent}
        then [SessionStale(row.id)] else []
  {
    assert (rows + [row])[..|rows|] == rows;
  }

  /* ---- commands ---- */

  /** The notices of some commands, in order. */
  function Requests(commands: seq<CommandKey>): (r: seq<Notice>)
    ensures |r| == |commands| && forall i | 0 <= i < |r| :: r[i] == CoaRequested(commands[i])
  {
    seq(|commands|, i requires 0 <= i < |commands| => CoaRequested(commands[i]))
  }

  /** One session of the subscriber that is starting or active has this command as its own. */
  ghost predicate OwnsCommand(rows: seq<SessionRow>, subscriber: string, key: string -> CommandKey, c: CommandKey) {
    exists i | 0 <= i < |rows| ::
      rows[i].subscriber == Some(subscriber) && rows[i].status in {Starting, Active} && key(rows[i].id) == c
  }

  /** `added` are exactly the commands of the subscriber's live sessions that were not there, each once. */
  ghost predicate Adds(
    before: seq<CommandKey>, added: seq<CommandKey>, rows: seq<SessionRow>, subscriber: string,
      key: string -> CommandKey) {
    && (forall c :: c in added <==> c !in before && OwnsCommand(rows, subscriber, key, c))
    && (forall i, j | 0 <= i < j < |added| :: added[i] != added[j])
  }

  lemma OwnsAppend(rows: seq<SessionRow>, row: SessionRow, subscriber: string, key: string -> CommandKey, c: CommandKey)
    ensures OwnsCommand(rows + [row], subscriber, key, c) <==>
      || OwnsCommand(rows, subscriber, key, c)
      || (row.subscriber == Some(subscriber) && row.status in {Starting, Active} && key(row.id) == c)
  {
    var all := rows + [row];
    assert all[|rows|] == row && forall i | 0 <= i < |rows| :: all[i] == rows[i];
  }

  /** What is queued for a list of sessions: which commands, in what notices, and nothing else. */
  lemma {:induction false} QueuedExactly(l: Ledger, rows: seq<SessionRow>, subscriber: string,
                                         key: string -> CommandKey)
    returns (added: seq<CommandKey>)
    ensures QueueCommands(l, rows, subscriber, key)
         == l.(commands := l.commands + added, outbox := l.outbox + Requests(added))
    ensures Adds(l.commands, added, rows, subscriber, key)
  {
    if rows == [] {
      added := [];
      assert l.commands + [] == l.commands && l.outbox + [] == l.outbox;
    } else {
      var front, row := rows[..|rows| - 1], rows[|rows| - 1];
      assert rows == front + [row];
      added := QueuedExactly(l, front, subscriber, key);
      var before := QueueCommands(l, front, subscriber, key);
      forall c {
        OwnsAppend(front, row, subscriber, key, c);
      }
      if QueueCommands(l, rows, subscriber, key) != before {
        var c := key(row.id);
        assert l.commands + added + [c] == l.commands + (added + [c]);
        assert Requests(added + [c]) == Requests(added) + [CoaRequested(c)];
        assert l.outbox + Requests(added) + [CoaRequested(c)] == l.outbox + Requests(added + [c]);
        added := added + [c];
      }
    }
  }

  /** The usage row of a subscriber and period, before a packet has its flag down and after it up. */
  predicate Raised(l: Ledger, t: Ledger, subscriber: string, period: string) {
    !UsageBefore(l.usage, subscriber, period).fupActive && UsageBefore(t.usage, subscriber, period).fupActive
  }

  /** What a traffic packet adds to commands and notices, apart from its own notice at the end: when it raises the flag
      of its session's subscriber, the notice of that and the commands of the subscriber's live sessions as stored
      before the packet; otherwise nothing. */
  ghost predicate PacketAdds(l: Ledger, t: Ledger, p: Packet, owner: Option<string>, added: seq<CommandKey>)
    requires p.nas.Some?
  {
    && t.commands == l.commands + added
    && if owner.Some? && Raised(l, t, owner.value, p.period)
       then && Adds(l.commands, added, l.sessions, owner.value, (session: string) => FupKey(p.period, session))
            && t.outbox == l.outbox + [FupActivated(owner.value, p.period)] + Requests(added)
                           + [AccountingReceived(KeyOf(p))]
       else added == [] && t.outbox == l.outbox + [AccountingReceived(KeyOf(p))]
  }

  lemma ProjectQueues(
    l: Ledger, stored: seq<SessionRow>, subscriber: string, before: SessionRow, p: Packet, threshold: Option<int>)
    returns (added: seq<CommandKey>)
    ensures var t := Project(l, stored, subscriber, before, p, threshold);
      && t.commands == l.commands + added
      && if Raised(l, t, subscriber, p.period)
         then && Adds(l.commands, added, stored, subscriber, FupKeys(p.period))
              && t.outbox == l.outbox + [FupActivated(subscriber, p.period)] + Requests(added)
         else added == [] && t.outbox == l.outbox
  {
    var i := UsageIndex(l.usage, subscriber, p.period);
    var row := UsageAfter(UsageBefore(l.usage, subscriber, p.period), before, p);
    added := [];
    if Activates(row, threshold) {
      var up := row.(fupActive := true);
      var raised := l.(usage := Put(l.usage, i, up), outbox := l.outbox + [FupActivated(subscriber, p.period)]);
      UsageBeforeOfPut(l.usage, up, subscriber, p.period);
      added := QueuedExactly(raised, stored, subscriber, FupKeys(p.period));
    } else {
      UsageBeforeOfPut(l.usage, row, subscriber, p.period);
      assert l.commands + [] == l.commands;
    }
  }

  lemma SameAdds(
    before: seq<CommandKey>, added: seq<CommandKey>, rows: seq<SessionRow>, subscriber: string, a: string -> CommandKey,
    b: string -> CommandKey)
    requires Adds(before, added, rows, subscriber, a) && forall session :: a(session) == b(session)
    ensures Adds(before, added, rows, subscriber, b)
  {
    assert forall c :: OwnsCommand(rows, subscriber, a, c) <==> OwnsCommand(rows, subscriber, b, c);
  }

  /** The commands and notices of a start, interim or stop. */
  lemma PacketCommands(l: Ledger, p: Packet, threshold: Option<int>) returns (added: seq<CommandKey>)
    requires AnswerTo(l, p) == Ok && p.status in {Start, Interim, Stop}
    ensures PacketAdds(l, Account(l, p, threshold), p, Owner(l, p.session, p.subscriber), added)
  {
    var before := SessionBefore(l.sessions, p);
    var sessions := Put(l.sessions, SessionIndex(l.sessions, p.session), SessionAfter(before, p));
    var l1 := l.(keys := l.keys + {KeyOf(p)});
    if before.subscriber.Some? {
      var l2 := l1.(sessions := sessions);
      added := ProjectQueues(l2, l.sessions, before.subscriber.value, before, p, threshold);
      if Raised(l, Account(l, p, threshold), before.subscriber.value, p.period) {
        SameAdds(l.commands, added, l.sessions, before.subscriber.value, FupKeys(p.period),
                 (session: string) => FupKey(p.period, session));
      }
    } else {
      added := [];
      assert l.commands + [] == l.commands;
    }
  }

  /** The commands and notices of a reset: those of the subscriber's live sessions when it clears a raised flag, after
      the notice of that; otherwise none. The row is zeroed and its flag down; other rows stay. */
  lemma ResetCommands(l: Ledger, subscriber: string, period: string, request: string) returns (added: seq<CommandKey>)
    ensures var t := Reset(l, subscriber, period, request); var i := UsageIndex(l.usage, subscriber, period);
      && t.sessions == l.sessions && t.keys == l.keys && t.commands == l.commands + added
      && |t.usage| == |l.usage|
      && (forall k | 0 <= k < |l.usage| && k != i :: t.usage[k] == l.usage[k])
      && (i < |l.usage| ==> t.usage[i] == UsageRow(subscriber, period, 0, 0, false))
      && if i < |l.usage| && l.usage[i].fupActive
         then && Adds(l.commands, added, l.sessions, subscriber, (session: string) => ResetKey(request, session))
              && t.outbox == l.outbox + [FupCleared(subscriber, period)] + Requests(added)
         else added == [] && t.outbox == l.outbox
  {
    added := [];
    var i := UsageIndex(l.usage, subscriber, period);
    if i < |l.usage| && l.usage[i].fupActive {
      var l1 := l.(usage := l.usage[i := UsageRow(subscriber, period, 0, 0, false)]);
      var l2 := l1.(outbox := l1.outbox + [FupCleared(subscriber, period)]);
      added := QueuedExactly(l2, l.sessions, subscriber, ResetKeys(request));
      SameAdds(l.commands, added, l.sessions, subscriber, ResetKeys(request),
               (session: string) => ResetKey(request, session));
    } else {
      assert l.commands + [] == l.commands;
    }
  }

  /** So a command is always for a session of the subscriber whose flag moves, and each command has one more notice. */
  lemma CommandsStayWithSubscriber(
    before: seq<CommandKey>, added: seq<CommandKey>, rows: seq<SessionRow>, subscriber: string, period: string,
    session: string)
    requires Adds(before, added, rows, subscriber, (s: string) => FupKey(period, s))
    requires forall i | 0 <= i < |rows| && rows[i].id == session :: rows[i].subscriber != Some(subscriber)
    ensures FupKey(period, session) !in added
  {
    assert forall s: string :: FupKey(period, s) == FupKey(period, session) ==> s == session;
  }
}
