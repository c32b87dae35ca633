/** What every run of accounting packets and quota resets keeps. */
module LedgerRuns {
  import opened Common
  import opened Accounting

  datatype Event =
    | Received(packet: Packet)
    | QuotaReset(subscriber: string, period: string, request: string)

  function Step(l: Ledger, e: Event, threshold: Option<int>): Ledger {
    match e
    case Received(p) => Account(l, p, threshold)
    case QuotaReset(subscriber, period, request) => Reset(l, subscriber, period, request)
  }

  function Run(l: Ledger, es: seq<Event>, threshold: Option<int>): Ledger {
    if es == [] then l else Step(Run(l, es[..|es| - 1], threshold), es[|es| - 1], threshold)
  }

  /* ---- conservation of traffic ---- */

  function SessionShare(row: SessionRow, subscriber: string, d: Direction): nat {
    if row.subscriber == Some(subscriber) then row.Total(d) else 0
  }

  function UsageShare(row: UsageRow, subscriber: string, d: Direction): nat {
    if row.subscriber == subscriber then row.Total(d) else 0
  }

  /** Traffic of all sessions of a subscriber. */
  function SessionSum(rows: seq<SessionRow>, subscriber: string, d: Direction): nat {
    if rows == [] then 0
    else SessionSum(rows[..|rows| - 1], subscriber, d) + SessionShare(rows[|rows| - 1], subscriber, d)
  }

  /** Usage of a subscriber over all periods. */
  function UsageSum(rows: seq<UsageRow>, subscriber: string, d: Direction): nat {
    if rows == [] then 0
    else UsageSum(rows[..|rows| - 1], subscriber, d) + UsageShare(rows[|rows| - 1], subscriber, d)
  }

  /** Usage the resets of a run erased. */
  function Erased(l: Ledger, es: seq<Event>, threshold: Option<int>, subscriber: string, d: Direction): nat {
    if es == [] then 0
    else
      var n := |es| - 1;
      Erased(l, es[..n], threshold, subscriber, d)
      + match es[n]
        case QuotaReset(s, period, _) =>
          if s == subscriber then UsageBefore(Run(l, es[..n], threshold).usage, s, period).Total(d) else 0
        case Received(_) => 0
  }

  lemma {:induction false} SessionSumOfPut(rows: seq<SessionRow>, i: nat, row: SessionRow, subscriber: string,
                                           d: Direction)
    requires i <= |rows|
    ensures SessionSum(Put(rows, i, row), subscriber, d)
            == SessionSum(rows, subscriber, d) + SessionShare(row, subscriber, d)
               - (if i < |rows| then SessionShare(rows[i], subscriber, d) else 0)
  {
    var n := |rows| - 1;
    var after := Put(rows, i, row);
    if i == |rows| {
      assert after[..|rows|] == rows;
    } else if i == n {
      assert after[..n] == rows[..n];
    } else {
      SessionSumOfPut(rows[..n], i, row, subscriber, d);
      assert after[..n] == Put(rows[..n], i, row);
    }
  }

  lemma {:induction false} UsageSumOfPut(rows: seq<UsageRow>, i: nat, row: UsageRow, subscriber: string, d: Direction)
    requires i <= |rows|
    ensures UsageSum(Put(rows, i, row), subscriber, d)
            == UsageSum(rows, subscriber, d) + UsageShare(row, subscriber, d)
               - (if i < |rows| then UsageShare(rows[i], subscriber, d) else 0)
  {
    var n := |rows| - 1;
    var after := Put(rows, i, row);
    if i == |rows| {
      assert after[..|rows|] == rows;
    } else if i == n {
      assert after[..n] == rows[..n];
    } else {
      UsageSumOfPut(rows[..n], i, row, subscriber, d);
      assert after[..n] == Put(rows[..n], i, row);
    }
  }

  lemma {:induction false} StaleKeepsSum(rows: seq<SessionRow>, nas: string, subscriber: string, d: Direction)
    ensures SessionSum(StaleRows(rows, nas), subscriber, d) == SessionSum(rows, subscriber, d)
  {
    if rows != [] {
      var n := |rows| - 1;
      StaleKeepsSum(rows[..n], nas, subscriber, d);
      assert StaleRows(rows, nas)[..n] == StaleRows(rows[..n], nas);
    }
  }

  lemma {:induction false} QueueKeepsTables(l: Ledger, rows: seq<SessionRow>, subscriber: string,
                                            key: string -> CommandKey)
    ensures var q := QueueCommands(l, rows, subscriber, key);
      q.sessions == l.sessions && q.usage == l.usage && q.keys == l.keys
  {
    if rows != [] {
      QueueKeepsTables(l, rows[..|rows| - 1], subscriber, key);
    }
  }

  /** The usage table after a projection: one row written, flag aside. */
  lemma ProjectTables(l: Ledger, stored: seq<SessionRow>, subscriber: string, before: SessionRow, p: Packet,
                      threshold: Option<int>)
    ensures var row := UsageAfter(UsageBefore(l.usage, subscriber, p.period), before, p);
      var after := Project(l, stored, subscriber, before, p, threshold);
      && after.sessions == l.sessions && after.keys == l.keys
      && after.usage == Put(l.usage, UsageIndex(l.usage, subscriber, p.period),
                            row.(fupActive := row.fupActive || Activates(row, threshold)))
  {
    var row := UsageAfter(UsageBefore(l.usage, subscriber, p.period), before, p);
    if Activates(row, threshold) {
      var raised := l.(usage := Put(l.usage, UsageIndex(l.usage, subscriber, p.period), row.(fupActive := true)),
                       outbox := l.outbox + [FupActivated(subscriber, p.period)]);
      QueueKeepsTables(raised, stored, subscriber, FupKeys(p.period));
    }
  }

  /** A packet adds to the usage of the owner what it adds to the session. */
  lemma SharesGrowAlike(before: SessionRow, owner: string, row: UsageRow, up: bool, p: Packet, subscriber: string,
                        d: Direction)
    requires before.subscriber == Some(owner) && row.subscriber == owner
    ensures UsageShare(UsageAfter(row, before, p).(fupActive := up), subscriber, d) - UsageShare(row, subscriber, d)
            == SessionShare(SessionAfter(before, p), subscriber, d) - SessionShare(before, subscriber, d)
  {}

  lemma TrafficConserves(l: Ledger, p: Packet, threshold: Option<int>, subscriber: string, d: Direction)
    requires p.nas.Some?
    ensures var after := RecordTraffic(l, p, threshold);
      UsageSum(after.usage, subscriber, d) - UsageSum(l.usage, subscriber, d)
      == SessionSum(after.sessions, subscriber, d) - SessionSum(l.sessions, subscriber, d)
  {
    var i, before := SessionIndex(l.sessions, p.session), SessionBefore(l.sessions, p);
    SessionSumOfPut(l.sessions, i, SessionAfter(before, p), subscriber, d);
    if before.subscriber.Some? {
      ProjectConserves(l.(sessions := Put(l.sessions, i, SessionAfter(before, p))), l.sessions, before, p, threshold,
                       subscriber, d);
    }
  }

  lemma ProjectConserves(l: Ledger, stored: seq<SessionRow>, before: SessionRow, p: Packet, threshold: Option<int>,
                         subscriber: string, d: Direction)
    requires before.subscriber.Some?
    ensures var after := Project(l, stored, before.subscriber.value, before, p, threshold);
      && after.sessions == l.sessions
      && UsageSum(after.usage, subscriber, d) - UsageSum(l.usage, subscriber, d)
         == SessionShare(SessionAfter(before, p), subscriber, d) - SessionShare(before, subscriber, d)
  {
    var owner := before.subscriber.value;
    var old_ := UsageBefore(l.usage, owner, p.period);
    var row := UsageAfter(old_, before, p);
    var up := row.fupActive || Activates(row, threshold);
    ProjectTables(l, stored, owner, before, p, threshold);
    SharesGrowAlike(before, owner, old_, up, p, subscriber, d);
    UsageSumOfPut(l.usage, UsageIndex(l.usage, owner, p.period), row.(fupActive := up), subscriber, d);
  }

  lemma PacketConserves(l: Ledger, p: Packet, threshold: Option<int>, subscriber: string, d: Direction)
    ensures var after := Account(l, p, threshold);
      UsageSum(after.usage, subscriber, d) - UsageSum(l.usage, subscriber, d)
      == SessionSum(after.sessions, subscriber, d) - SessionSum(l.sessions, subscriber, d)
  {
    if AnswerTo(l, p) == Ok {
      if p.Traffic() {
        TrafficConserves(l.(keys := l.keys + {KeyOf(p)}), p, threshold, subscriber, d);
      } else {
        StaleKeepsSum(l.sessions, p.nas.value, subscriber, d);
      }
    }
  }

  lemma ResetErases(l: Ledger, s: string, period: string, request: string, subscriber: string, d: Direction)
    ensures var after := Reset(l, s, period, request);
      && after.sessions == l.sessions
      && UsageSum(after.usage, subscriber, d)
         == UsageSum(l.usage, subscriber, d) - (if s == subscriber then UsageBefore(l.usage, s, period).Total(d) else 0)
  {
    var i := UsageIndex(l.usage, s, period);
    if i < |l.usage| {
      var zero := UsageRow(s, period, 0, 0, false);
      UsageSumOfPut(l.usage, i, zero, subscriber, d);
      var l1 := l.(usage := l.usage[i := zero]);
      QueueKeepsTables(l1.(outbox := l1.outbox + [FupCleared(s, period)]), l.sessions, s, ResetKeys(request));
    }
  }

  /** Conservation of traffic in every run, across periods, duplicates, stale signals and resets. */
  lemma {:induction false} Conservation(l: Ledger, es: seq<Event>, threshold: Option<int>, subscriber: string,
                                        d: Direction)
    ensures var after := Run(l, es, threshold);
      UsageSum(after.usage, subscriber, d) + Erased(l, es, threshold, subscriber, d) - UsageSum(l.usage, subscriber, d)
      == SessionSum(after.sessions, subscriber, d) - SessionSum(l.sessions, subscriber, d)
  {
    if es != [] {
      var n := |es| - 1;
      Conservation(l, es[..n], threshold, subscriber, d);
      var before := Run(l, es[..n], threshold);
      match es[n]
      case Received(p) => PacketConserves(before, p, threshold, subscriber, d);
      case QuotaReset(s, period, request) => ResetErases(before, s, period, request, subscriber, d);
    }
  }

  /** From an empty ledger: usage over all periods plus what resets erased is the session traffic. */
  lemma {:induction false} ConservationFromEmpty(es: seq<Event>, threshold: Option<int>, subscriber: string,
                                                 d: Direction)
    ensures var after := Run(EMPTY, es, threshold);
      UsageSum(after.usage, subscriber, d) + Erased(EMPTY, es, threshold, subscriber, d)
      == SessionSum(after.sessions, subscriber, d)
  {
    Conservation(EMPTY, es, threshold, subscriber, d);
  }

  /* ---- the fair-usage flag ---- */

  /** The flag of every usage row tells whether the threshold is reached. */
  ghost predicate FlagsRight(rows: seq<UsageRow>, threshold: int) {
    forall i | 0 <= i < |rows| :: rows[i].fupActive <==> rows[i].inTotal + rows[i].outTotal >= threshold
  }

  ghost predicate OneRowPerPeriod(rows: seq<UsageRow>) {
    forall i, j | 0 <= i < j < |rows| :: rows[i].subscriber != rows[j].subscriber || rows[i].period != rows[j].period
  }

  /** Activated minus cleared notices is one while the flag is up and zero otherwise. */
  ghost predicate NoticesMatch(l: Ledger, subscriber: string, period: string) {
    multiset(l.outbox)[FupActivated(subscriber, period)]
    == multiset(l.outbox)[FupCleared(subscriber, period)]
       + if UsageBefore(l.usage, subscriber, period).fupActive then 1 else 0
  }

  ghost predicate NoRepeats<T>(xs: seq<T>) {
    forall i, j | 0 <= i < j < |xs| :: xs[i] != xs[j]
  }

  ghost predicate FupSound(l: Ledger, threshold: int) {
    && FlagsRight(l.usage, threshold)
    && OneRowPerPeriod(l.usage)
    && (forall s, p :: NoticesMatch(l, s, p))
    && NoRepeats(l.commands)
  }

  /** Queueing commands leaves the notices about the flag alone and repeats no key. */
  lemma {:induction false} QueueKeepsFup(l: Ledger, rows: seq<SessionRow>, subscriber: string,
                                         key: string -> CommandKey, x: Notice)
    requires NoRepeats(l.commands) && (x.FupActivated? || x.FupCleared?)
    ensures var q := QueueCommands(l, rows, subscriber, key);
      NoRepeats(q.commands) && multiset(q.outbox)[x] == multiset(l.outbox)[x]
  {
    if rows != [] {
      QueueKeepsFup(l, rows[..|rows| - 1], subscriber, key, x);
    }
  }

  lemma {:induction false} UsageBeforeOfPut(rows: seq<UsageRow>, row: UsageRow, s: string, period: string)
    ensures var i := UsageIndex(rows, row.subscriber, row.period);
      UsageBefore(Put(rows, i, row), s, period)
      == if s == row.subscriber && period == row.period then row else UsageBefore(rows, s, period)
  {
    var i := UsageIndex(rows, row.subscriber, row.period);
    var after := Put(rows, i, row);
    var j, k := UsageIndex(after, s, period), UsageIndex(rows, s, period);
    if s == row.subscriber && period == row.period {
      assert j == i;
    } else if k < |rows| {
      assert after[k] == rows[k];
      assert j == k;
    }
  }

  /** Writing one usage row together with the notices that announce its flag. */
  lemma PutKeepsFup(l: Ledger, row: UsageRow, notices: seq<Notice>, threshold: int)
    requires FupSound(l, threshold)
    requires row.fupActive <==> row.inTotal + row.outTotal >= threshold
    requires var old_ := UsageBefore(l.usage, row.subscriber, row.period);
      notices == if old_.fupActive == row.fupActive then []
                 else if row.fupActive then [FupActivated(row.subscriber, row.period)]
                 else [FupCleared(row.subscriber, row.period)]
    ensures var i := UsageIndex(l.usage, row.subscriber, row.period);
      FupSound(l.(usage := Put(l.usage, i, row), outbox := l.outbox + notices), threshold)
  {
    var i := UsageIndex(l.usage, row.subscriber, row.period);
    var after := l.(usage := Put(l.usage, i, row), outbox := l.outbox + notices);
    forall s, p
      ensures NoticesMatch(after, s, p)
    {
      UsageBeforeOfPut(l.usage, row, s, p);
      assert NoticesMatch(l, s, p);
    }
  }

  lemma QueueKeepsSound(l: Ledger, rows: seq<SessionRow>, subscriber: string, key: string -> CommandKey, threshold: int)
    requires FupSound(l, threshold)
    ensures FupSound(QueueCommands(l, rows, subscriber, key), threshold)
  {
    var q := QueueCommands(l, rows, subscriber, key);
    QueueKeepsTables(l, rows, subscriber, key);
    QueueKeepsFup(l, rows, subscriber, key, FupActivated("", ""));
    forall s, p
      ensures NoticesMatch(q, s, p)
    {
      QueueKeepsFup(l, rows, subscriber, key, FupActivated(s, p));
      QueueKeepsFup(l, rows, subscriber, key, FupCleared(s, p));
      assert NoticesMatch(l, s, p);
    }
  }

  lemma ProjectKeepsFup(l: Ledger, stored: seq<SessionRow>, subscriber: string, before: SessionRow, p: Packet,
                        threshold: int)
    requires threshold > 0 && FupSound(l, threshold)
    ensures FupSound(Project(l, stored, subscriber, before, p, Some(threshold)), threshold)
  {
    var i := UsageIndex(l.usage, subscriber, p.period);
    var row := UsageAfter(UsageBefore(l.usage, subscriber, p.period), before, p);
    if Activates(row, Some(threshold)) {
      PutKeepsFup(l, row.(fupActive := true), [FupActivated(subscriber, p.period)], threshold);
      var raised :=
        l.(usage := Put(l.usage, i, row.(fupActive := true)),
           outbox := l.outbox + [FupActivated(subscriber, p.period)]);
      QueueKeepsSound(raised, stored, subscriber, FupKeys(p.period), threshold);
    } else {
      PutKeepsFup(l, row, [], threshold);
      assert l.outbox + [] == l.outbox;
    }
  }

  lemma OtherNoticesKeepFup(l: Ledger, notices: seq<Notice>, threshold: int)
    requires FupSound(l, threshold)
    requires forall x | x in notices :: !x.FupActivated? && !x.FupCleared?
    ensures FupSound(l.(outbox := l.outbox + notices), threshold)
  {
    forall s, p
      ensures NoticesMatch(l.(outbox := l.outbox + notices), s, p)
    {
      assert NoticesMatch(l, s, p);
      assert FupActivated(s, p) !in notices && FupCleared(s, p) !in notices;
    }
  }

  lemma {:induction false} StaleNoticesAreStale(rows: seq<SessionRow>, nas: string, x: Notice)
    requires x in StaleNotices(rows, nas)
    ensures x.SessionStale?
  {
    if rows != [] && x in StaleNotices(rows[..|rows| - 1], nas) {
      StaleNoticesAreStale(rows[..|rows| - 1], nas, x);
    }
  }

  lemma SessionsAside(l: Ledger, sessions: seq<SessionRow>, keys: set<EventKey>, threshold: int)
    requires FupSound(l, threshold)
    ensures FupSound(l.(sessions := sessions, keys := keys), threshold)
  {
    forall s, p
      ensures NoticesMatch(l.(sessions := sessions, keys := keys), s, p)
    {
      assert NoticesMatch(l, s, p);
    }
  }

  lemma AccountKeepsFup(l: Ledger, p: Packet, threshold: int)
    requires threshold > 0 && FupSound(l, threshold)
    ensures FupSound(Account(l, p, Some(threshold)), threshold)
  {
    if AnswerTo(l, p) == Ok {
      var l1 := l.(keys := l.keys + {KeyOf(p)});
      SessionsAside(l, l.sessions, l1.keys, threshold);
      if p.Traffic() {
        var before := SessionBefore(l.sessions, p);
        var sessions := Put(l.sessions, SessionIndex(l.sessions, p.session), SessionAfter(before, p));
        SessionsAside(l1, sessions, l1.keys, threshold);
        if before.subscriber.Some? {
          ProjectKeepsFup(l1.(sessions := sessions), l.sessions, before.subscriber.value, before, p, threshold);
        }
        OtherNoticesKeepFup(RecordTraffic(l1, p, Some(threshold)), [AccountingReceived(KeyOf(p))], threshold);
      } else {
        var nas := p.nas.value;
        forall x | x in StaleNotices(l.sessions, nas) {
          StaleNoticesAreStale(l.sessions, nas, x);
        }
        SessionsAside(l1, StaleRows(l.sessions, nas), l1.keys, threshold);
        OtherNoticesKeepFup(l1.(sessions := StaleRows(l.sessions, nas)), StaleNotices(l.sessions, nas), threshold);
        OtherNoticesKeepFup(MarkStale(l1, nas), [AccountingReceived(KeyOf(p))], threshold);
      }
    }
  }

  lemma ResetKeepsFup(l: Ledger, s: string, period: string, request: string, threshold: int)
    requires threshold > 0 && FupSound(l, threshold)
    ensures FupSound(Reset(l, s, period, request), threshold)
  {
    var i := UsageIndex(l.usage, s, period);
    if i < |l.usage| {
      var zero := UsageRow(s, period, 0, 0, false);
      var cleared := if l.usage[i].fupActive then [FupCleared(s, period)] else [];
      PutKeepsFup(l, zero, cleared, threshold);
      if l.usage[i].fupActive {
        QueueKeepsSound(l.(usage := l.usage[i := zero], outbox := l.outbox + cleared), l.sessions, s,
                        ResetKeys(request), threshold);
      } else {
        assert l.outbox + [] == l.outbox;
      }
    }
  }

  lemma {:induction false} FupSoundAlways(es: seq<Event>, threshold: int)
    requires threshold > 0
    ensures FupSound(Run(EMPTY, es, Some(threshold)), threshold)
  {
    if es != [] {
      var n := |es| - 1;
      FupSoundAlways(es[..n], threshold);
      var before := Run(EMPTY, es[..n], Some(threshold));
      match es[n]
      case Received(p) => AccountKeepsFup(before, p, threshold);
      case QuotaReset(s, period, request) => ResetKeepsFup(before, s, period, request, threshold);
    }
  }

  lemma FirstPacketRaises(p: Packet, s: string, threshold: int)
    requires threshold <= 0
    requires p.nas.Some? && p.status == Start && p.session != "" && p.subscriber == Some(s)
             && p.Total(In) == p.Total(Out) == 0
    ensures Account(EMPTY, p, Some(threshold)).usage == [UsageRow(s, p.period, 0, 0, true)]
  {
    var before := SessionBefore([], p);
    var l1 := EMPTY.(keys := {KeyOf(p)}, sessions := Put([], 0, SessionAfter(before, p)));
    ProjectTables(l1, [], s, before, p, Some(threshold));
    assert EMPTY.keys + {KeyOf(p)} == {KeyOf(p)};
  }

  lemma ResetLowers(l: Ledger, s: string, period: string, request: string)
    requires l.usage == [UsageRow(s, period, 0, 0, true)]
    ensures Reset(l, s, period, request).usage == [UsageRow(s, period, 0, 0, false)]
  {
    var zero := UsageRow(s, period, 0, 0, false);
    assert UsageIndex(l.usage, s, period) == 0 && l.usage[0 := zero] == [zero];
    QueueKeepsTables(l.(usage := [zero], outbox := l.outbox + [FupCleared(s, period)]), l.sessions, s,
                     ResetKeys(request));
  }

  /** The flags are right in every run exactly when the threshold is positive: with any other threshold one
      packet followed by a reset leaves a cleared flag at a reached threshold. */
  lemma FlagsRightIffPositive(threshold: int)
    ensures (forall es :: FlagsRight(Run(EMPTY, es, Some(threshold)).usage, threshold)) <==> threshold > 0
  {
    if threshold > 0 {
      forall es
        ensures FlagsRight(Run(EMPTY, es, Some(threshold)).usage, threshold)
      {
        FupSoundAlways(es, threshold);
      }
    } else {
      var p := Packet(Some("nas"), Start, "session", "", Some("subscriber"), 0, 0, 0, 0, None, "period");
      var es := [Received(p), QuotaReset("subscriber", "period", "request")];
      assert es[..1] == [Received(p)] && es[..1][..0] == [];
      FirstPacketRaises(p, "subscriber", threshold);
      ResetLowers(Account(EMPTY, p, Some(threshold)), "subscriber", "period", "request");
      assert Run(EMPTY, es[..1], Some(threshold)) == Account(EMPTY, p, Some(threshold));
      var rows := Run(EMPTY, es, Some(threshold)).usage;
      assert rows == [UsageRow("subscriber", "period", 0, 0, false)];
      assert !rows[0].fupActive && rows[0].inTotal + rows[0].outTotal >= threshold;
      assert !FlagsRight(Run(EMPTY, es, Some(threshold)).usage, threshold);
    }
  }

  /* ---- order and duplicates ---- */

  /** A packet of one session of one subscriber within one period, keyed by the server. */
  predicate OfSession(p: Packet, nas: string, session: string, subscriber: Option<string>, period: string) {
    && p.Traffic() && p.nas == Some(nas) && p.session == session && session != ""
    && p.subscriber == subscriber && p.period == period && OrNone(p.suppliedKey).None?
  }

  function SessionTotal(l: Ledger, session: string, d: Direction): nat {
    var i := SessionIndex(l.sessions, session);
    if i < |l.sessions| then l.sessions[i].Total(d) else 0
  }

  function KeyTotal(key: EventKey, d: Direction): nat
    requires key.Derived?
  {
    match d case In => key.inTotal case Out => key.outTotal
  }

  /** A server-side key of a session is recorded only once its totals are counted. */
  ghost predicate KeysCounted(l: Ledger, session: string) {
    forall key, d | key in l.keys && key.Derived? && key.session == session && key.status in {Start, Interim, Stop} ::
      KeyTotal(key, d) <= SessionTotal(l, session, d)
  }

  function Packets(ps: seq<Packet>): seq<Event> {
    if ps == [] then [] else Packets(ps[..|ps| - 1]) + [Received(ps[|ps| - 1])]
  }

  /** The largest of a start value and the totals reported. */
  function Largest(start: nat, ps: seq<Packet>, d: Direction): nat {
    if ps == [] then start else Max(Largest(start, ps[..|ps| - 1], d), ps[|ps| - 1].Total(d))
  }

  lemma PacketCounts(l: Ledger, p: Packet, threshold: Option<int>, nas: string, session: string,
                     subscriber: Option<string>, period: string, d: Direction)
    requires OfSession(p, nas, session, subscriber, period) && KeysCounted(l, session)
    ensures SessionTotal(Account(l, p, threshold), session, d) == Max(SessionTotal(l, session, d), p.Total(d))
  {
    var key := KeyOf(p);
    if key in l.keys {
      assert KeyTotal(key, d) <= SessionTotal(l, session, d);
    } else {
      SessionAfterTraffic(l.(keys := l.keys + {key}), p, threshold);
    }
  }

  lemma SessionAfterTraffic(l: Ledger, p: Packet, threshold: Option<int>)
    requires p.nas.Some?
    ensures RecordTraffic(l, p, threshold).sessions
            == Put(l.sessions, SessionIndex(l.sessions, p.session), SessionAfter(SessionBefore(l.sessions, p), p))
    ensures RecordTraffic(l, p, threshold).keys == l.keys
    ensures forall d ::
      SessionTotal(RecordTraffic(l, p, threshold), p.session, d) == Max(SessionTotal(l, p.session, d), p.Total(d))
  {
    var i, before := SessionIndex(l.sessions, p.session), SessionBefore(l.sessions, p);
    var sessions := Put(l.sessions, i, SessionAfter(before, p));
    if before.subscriber.Some? {
      ProjectTables(l.(sessions := sessions), l.sessions, before.subscriber.value, before, p, threshold);
    }
    assert SessionIndex(sessions, p.session) == i;
  }

  lemma KeysStayCounted(l: Ledger, p: Packet, threshold: Option<int>, nas: string, session: string,
                        subscriber: Option<string>, period: string)
    requires OfSession(p, nas, session, subscriber, period) && KeysCounted(l, session)
    ensures KeysCounted(Account(l, p, threshold), session)
  {
    var after := Account(l, p, threshold);
    if KeyOf(p) !in l.keys {
      SessionAfterTraffic(l.(keys := l.keys + {KeyOf(p)}), p, threshold);
      forall key, d | key in after.keys && key.Derived? && key.session == session
        && key.status in {Start, Interim, Stop}
        ensures KeyTotal(key, d) <= SessionTotal(after, session, d)
      {
        PacketCounts(l, p, threshold, nas, session, subscriber, period, d);
      }
    }
  }

  /** The session counter after any sequence of the session's packets is the largest total reported. */
  lemma {:induction false} FinalCounter(l: Ledger, ps: seq<Packet>, threshold: Option<int>, nas: string,
                                        session: string, subscriber: Option<string>, period: string, d: Direction)
    requires KeysCounted(l, session)
    requires forall p | p in ps :: OfSession(p, nas, session, subscriber, period)
    ensures KeysCounted(Run(l, Packets(ps), threshold), session)
    ensures SessionTotal(Run(l, Packets(ps), threshold), session, d) == Largest(SessionTotal(l, session, d), ps, d)
  {
    if ps != [] {
      var n := |ps| - 1;
      FinalCounter(l, ps[..n], threshold, nas, session, subscriber, period, d);
      var before := Run(l, Packets(ps[..n]), threshold);
      assert Packets(ps)[..|Packets(ps)| - 1] == Packets(ps[..n]);
      PacketCounts(before, ps[n], threshold, nas, session, subscriber, period, d);
      KeysStayCounted(before, ps[n], threshold, nas, session, subscriber, period);
    }
  }

  lemma {:induction false} LargestBounds(start: nat, ps: seq<Packet>, d: Direction, bound: nat)
    ensures Largest(start, ps, d) <= bound <==> start <= bound && forall p | p in ps :: p.Total(d) <= bound
  {
    if ps != [] {
      var n := |ps| - 1;
      LargestBounds(start, ps[..n], d, bound);
      assert ps == ps[..n] + [ps[n]];
    }
  }

  lemma LargestOfSameSet(start: nat, ps: seq<Packet>, qs: seq<Packet>, d: Direction)
    requires forall p :: p in ps <==> p in qs
    ensures Largest(start, ps, d) == Largest(start, qs, d)
  {
    LargestBounds(start, ps, d, Largest(start, ps, d));
    LargestBounds(start, ps, d, Largest(start, qs, d));
    LargestBounds(start, qs, d, Largest(start, qs, d));
    LargestBounds(start, qs, d, Largest(start, ps, d));
  }

  function UsageTotal(l: Ledger, subscriber: string, period: string, d: Direction): nat {
    UsageBefore(l.usage, subscriber, period).Total(d)
  }

  /** The subscriber a session is accounted to. */
  function Owner(l: Ledger, session: string, subscriber: Option<string>): Option<string> {
    var i := SessionIndex(l.sessions, session);
    if i < |l.sessions| then l.sessions[i].subscriber else subscriber
  }

  lemma UsageGrowth(row: UsageRow, before: SessionRow, p: Packet, up: bool, d: Direction)
    ensures UsageAfter(row, before, p).(fupActive := up).Total(d) - row.Total(d)
      == SessionAfter(before, p).Total(d) - before.Total(d)
  {}

  lemma TrafficUsage(l: Ledger, p: Packet, threshold: Option<int>, s: string, per: string, d: Direction)
    requires p.nas.Some?
    ensures var after := RecordTraffic(l, p, threshold);
      && Owner(after, p.session, p.subscriber) == Owner(l, p.session, p.subscriber)
      && UsageTotal(after, s, per, d) - UsageTotal(l, s, per, d)
         == if Owner(l, p.session, p.subscriber) == Some(s) && per == p.period
            then SessionTotal(after, p.session, d) - SessionTotal(l, p.session, d) else 0
  {
    SessionAfterTraffic(l, p, threshold);
    var before := SessionBefore(l.sessions, p);
    var i := SessionIndex(l.sessions, p.session);
    var sessions := Put(l.sessions, i, SessionAfter(before, p));
    assert SessionIndex(sessions, p.session) == i;
    if before.subscriber.Some? {
      var owner := before.subscriber.value;
      var old_ := UsageBefore(l.usage, owner, p.period);
      var row := UsageAfter(old_, before, p);
      var up := row.fupActive || Activates(row, threshold);
      ProjectTables(l.(sessions := sessions), l.sessions, owner, before, p, threshold);
      UsageBeforeOfPut(l.usage, row.(fupActive := up), s, per);
      UsageGrowth(old_, before, p, up, d);
    }
  }

  lemma PacketUsage(l: Ledger, p: Packet, threshold: Option<int>, nas: string, session: string,
                    subscriber: Option<string>, period: string, s: string, per: string, d: Direction)
    requires OfSession(p, nas, session, subscriber, period)
    ensures var after := Account(l, p, threshold);
      && Owner(after, session, subscriber) == Owner(l, session, subscriber)
      && UsageTotal(after, s, per, d) - UsageTotal(l, s, per, d)
         == if Owner(l, session, subscriber) == Some(s) && per == period
            then SessionTotal(after, session, d) - SessionTotal(l, session, d) else 0
  {
    if KeyOf(p) !in l.keys {
      TrafficUsage(l.(keys := l.keys + {KeyOf(p)}), p, threshold, s, per, d);
    }
  }

  /** The owner's usage of the period grows by what the session counter grows; other usage does not move. */
  lemma {:induction false} FinalUsage(l: Ledger, ps: seq<Packet>, threshold: Option<int>, nas: string, session: string,
                                      subscriber: Option<string>, period: string, s: string, per: string, d: Direction)
    requires KeysCounted(l, session)
    requires forall p | p in ps :: OfSession(p, nas, session, subscriber, period)
    ensures var after := Run(l, Packets(ps), threshold);
      && Owner(after, session, subscriber) == Owner(l, session, subscriber)
      && UsageTotal(after, s, per, d) - UsageTotal(l, s, per, d)
         == if Owner(l, session, subscriber) == Some(s) && per == period
            then SessionTotal(after, session, d) - SessionTotal(l, session, d) else 0
  {
    if ps != [] {
      var n := |ps| - 1;
      FinalUsage(l, ps[..n], threshold, nas, session, subscriber, period, s, per, d);
      FinalCounter(l, ps[..n], threshold, nas, session, subscriber, period, d);
      assert Packets(ps)[..|Packets(ps)| - 1] == Packets(ps[..n]);
      PacketUsage(Run(l, Packets(ps[..n]), threshold), ps[n], threshold, nas, session, subscriber, period, s, per, d);
    }
  }

  /* ---- the hypothesis of order independence holds in every run ---- */

  lemma TotalAfterPut(rows: seq<SessionRow>, row: SessionRow, session: string)
    ensures var i := SessionIndex(rows, row.id);
      session != row.id && SessionIndex(rows, session) < |rows|
      ==> SessionIndex(Put(rows, i, row), session) == SessionIndex(rows, session)
  {
    var i, k := SessionIndex(rows, row.id), SessionIndex(rows, session);
    var after := Put(rows, i, row);
    if session != row.id && k < |rows| {
      assert after[k] == rows[k];
      forall m | 0 <= m < k
        ensures after[m].id != session
      {
        assert after[m] == if m == i then row else rows[m];
      }
    }
  }

  lemma StaleKeepsIndex(rows: seq<SessionRow>, nas: string, session: string)
    ensures SessionIndex(StaleRows(rows, nas), session) == SessionIndex(rows, session)
  {
    var after := StaleRows(rows, nas);
    var k, j := SessionIndex(rows, session), SessionIndex(after, session);
    assert forall m | 0 <= m < |rows| :: after[m].id == rows[m].id;
  }

  lemma TrafficTotalsGrow(l: Ledger, p: Packet, threshold: Option<int>, session: string, d: Direction)
    requires p.nas.Some?
    ensures SessionTotal(l, session, d) <= SessionTotal(RecordTraffic(l, p, threshold), session, d)
  {
    SessionAfterTraffic(l, p, threshold);
    TotalAfterPut(l.sessions, SessionAfter(SessionBefore(l.sessions, p), p), session);
  }

  lemma StaleKeepsTotals(l: Ledger, nas: string, session: string, d: Direction)
    ensures SessionTotal(MarkStale(l, nas), session, d) == SessionTotal(l, session, d)
  {
    StaleKeepsIndex(l.sessions, nas, session);
  }

  lemma SameSessions(l: Ledger, m: Ledger, session: string, d: Direction)
    requires l.sessions == m.sessions
    ensures SessionTotal(l, session, d) == SessionTotal(m, session, d)
  {}

  lemma TotalsGrow(l: Ledger, p: Packet, threshold: Option<int>, session: string, d: Direction)
    ensures SessionTotal(l, session, d) <= SessionTotal(Account(l, p, threshold), session, d)
  {
    if AnswerTo(l, p) == Ok {
      var l1 := l.(keys := l.keys + {KeyOf(p)});
      SameSessions(l, l1, session, d);
      if p.Traffic() {
        TrafficTotalsGrow(l1, p, threshold, session, d);
        SameSessions(RecordTraffic(l1, p, threshold), Account(l, p, threshold), session, d);
      } else {
        StaleKeepsTotals(l1, p.nas.value, session, d);
        SameSessions(MarkStale(l1, p.nas.value), Account(l, p, threshold), session, d);
      }
    }
  }

  lemma {:induction false} KeysAlwaysCounted(es: seq<Event>, threshold: Option<int>, session: string)
    requires session != ""
    ensures KeysCounted(Run(EMPTY, es, threshold), session)
  {
    if es != [] {
      var n := |es| - 1;
      KeysAlwaysCounted(es[..n], threshold, session);
      var before, after := Run(EMPTY, es[..n], threshold), Run(EMPTY, es, threshold);
      match es[n]
      case Received(p) =>
        forall key, d | key in after.keys && key.Derived? && key.session == session
          && key.status in {Start, Interim, Stop}
          ensures KeyTotal(key, d) <= SessionTotal(after, session, d)
        {
          TotalsGrow(before, p, threshold, session, d);
          if key !in before.keys {
            NewKeyCounted(before, p, threshold, key, d);
          }
        }
      case QuotaReset(s, period, request) =>
        ResetErases(before, s, period, request, s, In);
        ResetKeepsKeys(before, s, period, request);
    }
  }

  lemma ResetKeepsKeys(l: Ledger, s: string, period: string, request: string)
    ensures Reset(l, s, period, request).keys == l.keys
  {
    var i := UsageIndex(l.usage, s, period);
    if i < |l.usage| {
      var l1 := l.(usage := l.usage[i := UsageRow(s, period, 0, 0, false)]);
      QueueKeepsTables(l1.(outbox := l1.outbox + [FupCleared(s, period)]), l.sessions, s, ResetKeys(request));
    }
  }

  lemma NewKeyCounted(l: Ledger, p: Packet, threshold: Option<int>, key: EventKey, d: Direction)
    requires key in Account(l, p, threshold).keys && key !in l.keys
    requires key.Derived? && key.status in {Start, Interim, Stop}
    ensures KeyTotal(key, d) <= SessionTotal(Account(l, p, threshold), key.session, d)
  {
    var l1 := l.(keys := l.keys + {KeyOf(p)});
    if p.Traffic() {
      SessionAfterTraffic(l1, p, threshold);
    }
  }

  /** Order and repetition do not matter: two deliveries of the same packets leave the same session counters,
      namely the largest totals, and the same usage everywhere. */
  lemma {:induction false} OrderIndependence(l: Ledger, ps: seq<Packet>, qs: seq<Packet>, threshold: Option<int>,
                                             nas: string,
                          session: string, subscriber: Option<string>, period: string, s: string, per: string,
                          d: Direction)
    requires KeysCounted(l, session)
    requires forall p | p in ps :: OfSession(p, nas, session, subscriber, period)
    requires forall p :: p in ps <==> p in qs
    ensures var a, b := Run(l, Packets(ps), threshold), Run(l, Packets(qs), threshold);
      && SessionTotal(a, session, d) == SessionTotal(b, session, d) == Largest(SessionTotal(l, session, d), ps, d)
      && UsageTotal(a, s, per, d) == UsageTotal(b, s, per, d)
  {
    FinalCounter(l, ps, threshold, nas, session, subscriber, period, d);
    FinalCounter(l, qs, threshold, nas, session, subscriber, period, d);
    LargestOfSameSet(SessionTotal(l, session, d), ps, qs, d);
    FinalUsage(l, ps, threshold, nas, session, subscriber, period, s, per, d);
    FinalUsage(l, qs, threshold, nas, session, subscriber, period, s, per, d);
  }

  /* ---- packets that report true totals ---- */

  /** The attributes of a packet for one direction are a true total, split as sections 5.1 and 5.2 of RFC 2869 say. */
  predicate Reports(p: Packet, d: Direction, total: nat) {
    match d
    case In => p.inGigawords == total / GIGAWORD && p.inOctets == total % GIGAWORD
    case Out => p.outGigawords == total / GIGAWORD && p.outOctets == total % GIGAWORD
  }

  ghost predicate AllReport(ps: seq<Packet>, d: Direction, totals: seq<nat>) {
    |ps| == |totals| && forall i | 0 <= i < |ps| :: Reports(ps[i], d, totals[i])
  }

  /** The largest of a start value and some totals. */
  function LargestTotal(start: nat, totals: seq<nat>): nat {
    if totals == [] then start else Max(LargestTotal(start, totals[..|totals| - 1]), totals[|totals| - 1])
  }

  lemma {:induction false} LargestReported(start: nat, ps: seq<Packet>, d: Direction, totals: seq<nat>)
    requires AllReport(ps, d, totals)
    ensures Largest(start, ps, d) == LargestTotal(start, totals)
  {
    if ps != [] {
      var n := |ps| - 1;
      LargestReported(start, ps[..n], d, totals[..n]);
      assert Reports(ps[n], d, totals[n]);
      SplitCounter(totals[n]);
    }
  }

  lemma {:induction false} LargestTotalBounds(start: nat, totals: seq<nat>, bound: nat)
    ensures LargestTotal(start, totals) <= bound <==> start <= bound && forall x | x in totals :: x <= bound
  {
    if totals != [] {
      var n := |totals| - 1;
      LargestTotalBounds(start, totals[..n], bound);
      assert forall x | x in totals :: x in totals[..n] || x == totals[n];
      assert totals[n] in totals && forall x | x in totals[..n] :: x in totals;
    }
  }

  lemma LargestTotalOfSameSet(start: nat, a: seq<nat>, b: seq<nat>)
    requires forall x :: x in a <==> x in b
    ensures LargestTotal(start, a) == LargestTotal(start, b)
  {
    LargestTotalBounds(start, a, LargestTotal(start, a));
    LargestTotalBounds(start, a, LargestTotal(start, b));
    LargestTotalBounds(start, b, LargestTotal(start, a));
    LargestTotalBounds(start, b, LargestTotal(start, b));
  }

  /** Only the true totals matter: two deliveries of packets of a session that report the same totals, in any order and
      with any repeats, leave the same session counter, namely the largest total, and the same usage. */
  lemma {:induction false} TotalsDecide(l: Ledger, ps: seq<Packet>, qs: seq<Packet>, a: seq<nat>, b: seq<nat>,
                                        threshold: Option<int>,
                     nas: string, session: string, subscriber: Option<string>, period: string, s: string, per: string,
                     d: Direction)
    requires KeysCounted(l, session)
    requires forall p | p in ps + qs :: OfSession(p, nas, session, subscriber, period)
    requires AllReport(ps, d, a) && AllReport(qs, d, b) && forall x :: x in a <==> x in b
    ensures var t, u := Run(l, Packets(ps), threshold), Run(l, Packets(qs), threshold);
      && SessionTotal(t, session, d) == SessionTotal(u, session, d) == LargestTotal(SessionTotal(l, session, d), a)
      && UsageTotal(t, s, per, d) == UsageTotal(u, s, per, d)
  {
    var start := SessionTotal(l, session, d);
    FinalCounter(l, ps, threshold, nas, session, subscriber, period, d);
    FinalCounter(l, qs, threshold, nas, session, subscriber, period, d);
    FinalUsage(l, ps, threshold, nas, session, subscriber, period, s, per, d);
    FinalUsage(l, qs, threshold, nas, session, subscriber, period, s, per, d);
    LargestReported(start, ps, d, a);
    LargestReported(start, qs, d, b);
    LargestTotalOfSameSet(start, a, b);
  }

  /* ---- overlapping packets ---- */

  /** The session counters written by a packet that has read the row as `seen`: a counter that does not grow on the row
      read is not written. */
  function LateSession(row: SessionRow, seen: SessionRow, p: Packet): SessionRow {
    row.(inTotal := if p.Total(In) > seen.inTotal then p.Total(In) else row.inTotal,
         outTotal := if p.Total(Out) > seen.outTotal then p.Total(Out) else row.outTotal)
  }

  /** The usage written by a packet that has read the usage row as `read` and the session as `seen`. */
  function LateUsage(row: UsageRow, read: UsageRow, seen: SessionRow, p: Packet): UsageRow {
    row.(inTotal :=
           if p.Total(In) > seen.inTotal then read.inTotal + Growth(seen.inTotal, p.Total(In)) else row.inTotal,
         outTotal :=
           if p.Total(Out) > seen.outTotal then read.outTotal + Growth(seen.outTotal, p.Total(Out)) else row.outTotal)
  }

  /** On rows that are as they were read, this is what a packet does in one step. */
  lemma LateIsTimely(row: SessionRow, usage: UsageRow, p: Packet, d: Direction)
    ensures LateSession(row, row, p).Total(d) == SessionAfter(row, p).Total(d)
    ensures LateUsage(usage, usage, row, p) == UsageAfter(usage, row, p)
  {}

  /** A packet on rows read earlier adds to the usage what it adds to the session exactly when its total is not above
      the counter it read, or both rows have grown alike since they were read. */
  lemma OverlapConservesIff(row: SessionRow, seen: SessionRow, usage: UsageRow, read: UsageRow, p: Packet, d: Direction)
    ensures
      var used, counted := LateUsage(usage, read, seen, p).Total(d), LateSession(row, seen, p).Total(d);
      used - usage.Total(d) == counted - row.Total(d)
      <==> p.Total(d) <= seen.Total(d) || usage.Total(d) - read.Total(d) == row.Total(d) - seen.Total(d)
  {}

  /** Packets of two sessions that read one usage row before either writes it: what the first added is gone. */
  lemma OverlapLosesGrowth(first: SessionRow, second: SessionRow, usage: UsageRow, p: Packet, q: Packet, d: Direction)
    requires q.Total(d) > second.Total(d)
    ensures LateUsage(LateUsage(usage, usage, first, p), usage, second, q).Total(d)
         == usage.Total(d) + Growth(second.Total(d), q.Total(d))
  {}
}
