/** What every step of a runtime keeps, and what follows over whole runs. */
module RuntimeSafety {
  import opened Basics
  import opened ConsumerGroup
  import D = Durability
  import opened Transactions
  import opened Runtime

  // ------------------------------------------------------------ mutual exclusion

  ghost predicate SomeActive(sessions: map<nat, Session>) {
    exists sid :: sid in sessions && sessions[sid].active
  }

  ghost predicate AtMostOneActive(sessions: map<nat, Session>) {
    forall i, j :: i in sessions && j in sessions && sessions[i].active && sessions[j].active ==> i == j
  }

  /** The lease is held iff the bridge is active iff exactly one session is active. */
  ghost predicate Exclusive(s: Sys) {
    && BridgeOk(s.bridge)
    && AtMostOneActive(s.sessions)
    && (s.bridge.active <==> SomeActive(s.sessions))
  }

  /** Nothing of a transaction is left behind when none is active. */
  ghost predicate Settled(s: Sys) {
    !s.bridge.active ==> s.buffered == [] && forall k :: k in s.worlds ==> s.worlds[k].pending == {}
  }

  lemma SetInactive(sessions: map<nat, Session>, sid: nat, ses: Session)
    requires sid in sessions && AtMostOneActive(sessions) && sessions[sid].active && !ses.active
    ensures !SomeActive(sessions[sid := ses])
  {
  }

  lemma SameActivity(sessions: map<nat, Session>, sid: nat, ses: Session)
    requires AtMostOneActive(sessions)
    requires if sid in sessions then ses.active == sessions[sid].active else !ses.active
    ensures AtMostOneActive(sessions[sid := ses])
    ensures SomeActive(sessions[sid := ses]) <==> SomeActive(sessions)
  {
    var sessions' := sessions[sid := ses];
    if SomeActive(sessions) {
      var i :| i in sessions && sessions[i].active;
      assert i in sessions' && sessions'[i].active;
    }
    if SomeActive(sessions') {
      var i :| i in sessions' && sessions'[i].active;
      assert i in sessions && sessions[i].active;
    }
  }

  lemma SetActive(sessions: map<nat, Session>, sid: nat, ses: Session)
    requires sid in sessions && !SomeActive(sessions) && ses.active
    ensures AtMostOneActive(sessions[sid := ses]) && SomeActive(sessions[sid := ses])
  {
    var sessions' := sessions[sid := ses];
    assert forall i :: i in sessions ==> !sessions[i].active;
    assert sid in sessions' && sessions'[sid].active;
  }

  lemma TxAckExclusive(s: Sys, k: Key, t: Token, metadataOk: bool)
    requires Exclusive(s) && (s.bridge.active ==> Settled(s)) && s.bridge.active
    ensures Exclusive(TxAck(s, k, t, metadataOk)) && TxAck(s, k, t, metadataOk).bridge.active
  {
    if Live(s, k).Some? {
      var g := Live(s, k).value;
      StageKeepsBridge(s.bridge, k, t.coord.partition, Drained(g, t.coord).0, metadataOk);
    }
  }

  lemma LeaveExclusive(s: Sys, sid: nat, touched: set<Key>)
    requires sid in s.sessions && s.sessions[sid].active && AtMostOneActive(s.sessions) && s.bridge == IDLE
    requires Settled(s)
    ensures Exclusive(Leave(s, sid, touched)) && Settled(Leave(s, sid, touched))
  {
    SetInactive(s.sessions, sid, Leave(s, sid, touched).sessions[sid]);
    assert AtMostOneActive(Leave(s, sid, touched).sessions);
  }

  lemma ConsumePublishExclusive(s: Sys, sid: nat, k: Key, t: Token, outputs: seq<Event>, tx: TxEnv)
    requires Exclusive(s) && Settled(s) && CanExecute(s, sid)
    ensures var s' := ConsumePublish(s, sid, k, t, outputs, tx); Exclusive(s') && Settled(s')
  {
    var owns := !s.sessions[sid].active;
    if !owns || OpensOwn(s, sid, tx) {
      var a := Attempted(s, sid, k, t, outputs, tx);
      AttemptedBridge(s, sid, k, t, outputs, tx);
      SameActivity(s.sessions, sid, a.sessions[sid]);
      SameActivity(s.sessions, sid, a.sessions[sid].(touched := {}));
      assert a.sessions[sid := a.sessions[sid].(touched := {})] == s.sessions[sid := a.sessions[sid].(touched := {})];
      assert a.sessions[sid := a.sessions[sid]] == a.sessions;
    }
  }

  /** The attempt leaves the bridge active and in order, and changes only the caller's touched set. */
  lemma AttemptedBridge(s: Sys, sid: nat, k: Key, t: Token, outputs: seq<Event>, tx: TxEnv)
    requires Exclusive(s) && sid in s.sessions && (s.sessions[sid].active || OpensOwn(s, sid, tx))
    ensures var a := Attempted(s, sid, k, t, outputs, tx);
            && BridgeOk(a.bridge) && a.bridge.active
            && a.sessions == s.sessions[sid := s.sessions[sid].(touched := s.sessions[sid].touched + {k})]
            && a.visible == s.visible
  {
    var begun := if s.sessions[sid].active then s else s.(bridge := Begin(s.bridge, tx.beginOk));
    assert s.sessions[sid].active ==> SomeActive(s.sessions);
    var produced := Produce(Touch(begun, sid, k), outputs, tx.produced);
    if Live(produced, k).Some? {
      var g := Live(produced, k).value;
      StageKeepsBridge(produced.bridge, k, t.coord.partition, Drained(g, t.coord).0, tx.metadataOk);
    }
  }

  lemma NextExclusive(s: Sys, step: Step)
    requires Exclusive(s) && Settled(s)
    ensures Exclusive(Next(s, step)) && Settled(Next(s, step))
  {
    match step
    case Opened(sid, transactional) =>
      if sid !in s.sessions { SameActivity(s.sessions, sid, Session(transactional, false, false, {})); }
    case Began(sid, beginOk) =>
      if BeginSession(s, sid, beginOk) != s { SetActive(s.sessions, sid, s.sessions[sid].(active := true)); }
    case Acknowledged(sid, k, t, brokerOk) => AcknowledgedExclusive(s, sid, k, t, brokerOk);
    case ConsumedAndPublished(sid, k, t, outputs, tx) =>
      if CanExecute(s, sid) { ConsumePublishExclusive(s, sid, k, t, outputs, tx); }
    case Committed(sid, commitOk, recovery) => EndExclusive(s, sid, commitOk, recovery);
    case RolledBack(sid, recovery) => EndExclusive(s, sid, false, recovery);
    case Closed(sid, abortOk, recovery) => ClosedExclusive(s, sid, abortOk, recovery);
    case Published(sid, events, produced) => assert InTx(s, sid) ==> SomeActive(s.sessions);
    case _ => WorldStepExclusive(s, step);
  }

  /** The steps that only change one group. */
  predicate WorldStep(step: Step) {
    || step.Appended? || step.Truncated? || step.PeerCommitted? || step.Joined? || step.Assigned? || step.Revoked?
    || step.Expired? || step.Resumed? || step.Delivered? || step.Recovered?
    || step.NegativelyAcknowledged? || step.Positioned?
  }

  lemma OneWorldOnly(s: Sys, step: Step)
    requires WorldStep(step)
    ensures var s' := Next(s, step);
            && s'.bridge == s.bridge && s'.sessions == s.sessions && s'.buffered == s.buffered
            && (s' == s || (step.k in s.worlds && step.k in s'.worlds
                            && s'.worlds == s.worlds[step.k := s'.worlds[step.k]]))
  {
  }

  lemma NothingPending(s: Sys, step: Step)
    requires WorldStep(step) && step.k in s.worlds && s.worlds[step.k].pending == {}
    ensures var s' := Next(s, step); step.k in s'.worlds && s'.worlds[step.k].pending == {}
  {
  }

  lemma WorldStepExclusive(s: Sys, step: Step)
    requires Exclusive(s) && Settled(s) && WorldStep(step)
    ensures Exclusive(Next(s, step)) && Settled(Next(s, step))
  {
    OneWorldOnly(s, step);
    if !s.bridge.active && step.k in s.worlds { NothingPending(s, step); }
  }

  lemma AcknowledgedExclusive(s: Sys, sid: nat, k: Key, t: Token, brokerOk: bool)
    requires Exclusive(s) && Settled(s)
    ensures var s' := Next(s, Acknowledged(sid, k, t, brokerOk)); Exclusive(s') && Settled(s')
  {
    if CanExecute(s, sid) && s.sessions[sid].active {
      assert SomeActive(s.sessions);
      var u := Touch(s, sid, k);
      SameActivity(s.sessions, sid, u.sessions[sid]);
      TxAckExclusive(u, k, t, brokerOk);
    }
  }

  lemma EndExclusive(s: Sys, sid: nat, commitOk: bool, recovery: Recovery)
    requires Exclusive(s) && Settled(s)
    ensures InTx(s, sid) ==> var s' := CommitSession(s, sid, commitOk, recovery); Exclusive(s') && Settled(s')
    ensures InTx(s, sid) ==> var s' := Rollback(s, sid, recovery); Exclusive(s') && Settled(s')
  {
    if InTx(s, sid) {
      assert SomeActive(s.sessions);
      var aborted := AbortTx(s).(worlds := Drop(AbortTx(s), sid, recovery));
      LeaveExclusive(CommitTx(s), sid, {});
      LeaveExclusive(aborted, sid, {});
      LeaveExclusive(aborted, sid, s.sessions[sid].touched);
    }
  }

  lemma ClosedExclusive(s: Sys, sid: nat, abortOk: bool, recovery: Recovery)
    requires Exclusive(s) && Settled(s)
    ensures var s' := Next(s, Closed(sid, abortOk, recovery)); Exclusive(s') && Settled(s')
  {
    if sid in s.sessions && !s.sessions[sid].closed {
      EndExclusive(s, sid, false, recovery);
      var r := if s.sessions[sid].active then Rollback(s, sid, recovery) else s;
      SameActivity(r.sessions, sid, r.sessions[sid].(closed := true));
    }
  }

  /** Mutual exclusion over every interleaving of calls, on every success and failure path. */
  lemma {:induction false} MutualExclusion(s: Sys, steps: seq<Step>)
    requires Init(s)
    ensures Exclusive(Run(s, steps)) && Settled(Run(s, steps))
  {
    if steps != [] {
      MutualExclusion(s, steps[..|steps| - 1]);
      NextExclusive(Run(s, steps[..|steps| - 1]), steps[|steps| - 1]);
    }
  }

  // ------------------------------------------------------------ durable progress

  ghost predicate AllKept(s: Sys) {
    forall k :: k in s.worlds ==> D.Kept(s.worlds[k], TouchedBy(s.sessions, k), StagedFor(s.bridge, k))
  }

  ghost predicate Good(s: Sys) {
    Exclusive(s) && Settled(s) && AllKept(s)
  }

  /** A step that changes one group and neither sessions nor bridge. */
  lemma OneWorldKept(s: Sys, k: Key, w: D.World)
    requires AllKept(s) && k in s.worlds
    requires D.Kept(w, TouchedBy(s.sessions, k), StagedFor(s.bridge, k))
    ensures AllKept(WithWorld(s, k, w))
  {
  }

  lemma BrokerStepKept(s: Sys, step: Step)
    requires AllKept(s) && Enabled(s, step)
    requires step.Appended? || step.Truncated? || step.PeerCommitted?
    ensures AllKept(Next(s, step))
  {
    var k := step.k;
    if k in s.worlds {
      var w, touched, staged := s.worlds[k], TouchedBy(s.sessions, k), StagedFor(s.bridge, k);
      match step
      case Appended(_, c, decodable) => D.AppendKept(w, c, decodable, touched, staged);
      case Truncated(_, removed) => D.TruncateKept(w, removed, touched, staged);
      case PeerCommitted(_, p, start, end, resolved) => D.PeerKept(w, p, start, end, resolved, touched, staged);
    }
  }

  /** What polling makes of the live state. */
  function Polled(g: Group, step: Step): Group {
    match step
    case Revoked(_, partitions) => ConsumerGroup.Revoked(g, partitions)
    case Expired(_, rewind) => Rewind(g, rewind)
    case Resumed(_, due, sought) => Resume(g, due, sought)
    case Delivered(_, c, clock, expiresAt, decodable, minted, seekOk) =>
      Deliver(g, c, clock, expiresAt, decodable, minted, seekOk)
    case _ => g
  }

  lemma PolledLive(s: Sys, step: Step, w: D.World, g: Group, known: set<Coord>)
    requires step.Revoked? || step.Expired? || step.Resumed? || step.Delivered?
    requires step.k in s.worlds && s.worlds[step.k] == w && w.live == Some(g) && Enabled(s, step)
    requires D.LiveOk(w, g, known) && D.Resolved(w) <= known
    ensures D.LiveOk(w, Polled(g, step), known)
  {
    match step
    case Revoked(_, partitions) => D.RevokedKept(w, g, partitions, known);
    case Expired(_, rewind) => RewindTargets(g, rewind); D.RewindKept(w, g, rewind, known);
    case Resumed(_, due, sought) => D.ResumeKept(w, g, due, sought, known);
    case Delivered(_, c, clock, expiresAt, decodable, minted, seekOk) =>
      D.DeliverKept(w, g, c, clock, expiresAt, decodable, minted, seekOk, known);
  }

  lemma PollStepKept(s: Sys, step: Step)
    requires AllKept(s) && Enabled(s, step)
    requires step.Revoked? || step.Expired? || step.Resumed? || step.Delivered?
    ensures AllKept(Next(s, step))
  {
    var k := step.k;
    if Live(s, k).Some? {
      var w, g, touched := s.worlds[k], Live(s, k).value, TouchedBy(s.sessions, k);
      PolledLive(s, step, w, g, D.Backing(w, touched));
      var g' := Polled(g, step);
      assert Next(s, step) == WithLive(s, k, g');
      D.NewLiveKept(w, g', touched, StagedFor(s.bridge, k));
      OneWorldKept(s, k, w.(live := Some(g')));
    }
  }

  lemma RewindTargets(g: Group, rewind: map<nat, nat>)
    requires ExpiryAllowed(g, rewind)
    ensures forall p :: p in rewind ==> Coord(p, rewind[p]) in g.inflight
  {
    var now: int, whole: map<nat, nat> :|
      LeastExpired(g, now, whole) && forall p :: p in rewind ==> p in whole && rewind[p] == whole[p];
    forall p | p in rewind ensures Coord(p, rewind[p]) in g.inflight {
      assert p in whole && ExpiredAt(g, now, Coord(p, whole[p]));
    }
  }

  lemma StateStepKept(s: Sys, step: Step)
    requires AllKept(s) && Enabled(s, step)
    requires step.Joined? || step.Assigned? || step.Recovered?
    ensures AllKept(Next(s, step))
  {
    var k := step.k;
    if k in s.worlds {
      var w, touched, staged := s.worlds[k], TouchedBy(s.sessions, k), StagedFor(s.bridge, k);
      match step
      case Joined(_) =>
        D.OpenedKept(w, touched, staged);
        OneWorldKept(s, k, D.Opened(w));
      case Assigned(_, starts) => AssignedStepKept(s, k, starts);
      case Recovered(_) =>
        D.RecoveredKept(w, touched, touched, staged);
        OneWorldKept(s, k, D.Recovered(w));
    }
  }

  lemma AssignedStepKept(s: Sys, k: Key, starts: map<nat, nat>)
    requires AllKept(s) && Enabled(s, Assigned(k, starts)) && k in s.worlds
    ensures AllKept(Next(s, Assigned(k, starts)))
  {
    if Live(s, k).Some? {
      var w := s.worlds[k];
      D.AssignedKept(w, w.live.value, starts, TouchedBy(s.sessions, k), StagedFor(s.bridge, k));
      OneWorldKept(s, k, D.AssignedAt(w, w.live.value, starts));
    }
  }

  lemma NackStepKept(s: Sys, step: Step)
    requires AllKept(s) && Routed(s, step) && step.NegativelyAcknowledged?
    ensures AllKept(Next(s, step))
  {
    var k := step.k;
    if CanExecute(s, step.sid) && !s.sessions[step.sid].active && Live(s, k).Some? {
      var w, g := s.worlds[k], Live(s, k).value;
      D.NackKept(w, g, step.t, step.policy, step.retryAfter, step.clock, step.env, TouchedBy(s.sessions, k),
                 StagedFor(s.bridge, k));
      OneWorldKept(s, k, D.Nacked(w, g, step.t, step.policy, step.retryAfter, step.clock, step.env));
    }
  }

  lemma PositionedStepKept(s: Sys, step: Step)
    requires AllKept(s) && Enabled(s, step) && Routed(s, step) && step.Positioned?
    ensures AllKept(Next(s, step))
  {
    var k := step.k;
    if k in s.worlds {
      var o := D.Opened(s.worlds[k]);
      D.OpenedKept(s.worlds[k], TouchedBy(s.sessions, k), StagedFor(s.bridge, k));
      OneWorldKept(s, k, o);
      if Repositions(s, step, k) {
        D.RepositionedKept(o, o.live.value, step.target);
        OneWorldKept(s, k, D.Repositioned(o, o.live.value, step.target));
      }
    }
  }

  /** Sessions may change as long as no group loses the protection of being touched. */
  lemma SessionsKept(s: Sys, s': Sys)
    requires AllKept(s) && s'.worlds == s.worlds && s'.bridge == s.bridge
    requires forall k :: TouchedBy(s.sessions, k) ==> TouchedBy(s'.sessions, k)
    ensures AllKept(s')
  {
    forall k | k in s'.worlds ensures D.Kept(s'.worlds[k], TouchedBy(s'.sessions, k), StagedFor(s'.bridge, k)) {
      if !TouchedBy(s.sessions, k) { D.TouchedWeaker(s.worlds[k], StagedFor(s.bridge, k)); }
    }
  }

  lemma TouchGrows(s: Sys, sid: nat, k: Key)
    requires sid in s.sessions
    ensures forall j :: TouchedBy(s.sessions, j) ==> TouchedBy(Touch(s, sid, k).sessions, j)
    ensures s.sessions[sid].active ==> TouchedBy(Touch(s, sid, k).sessions, k)
    ensures forall j :: TouchedBy(Touch(s, sid, k).sessions, j) ==>
              TouchedBy(s.sessions, j) || (j == k && s.sessions[sid].active)
  {
    var s' := Touch(s, sid, k);
    forall j | TouchedBy(s.sessions, j) ensures TouchedBy(s'.sessions, j) {
      var i :| i in s.sessions && s.sessions[i].active && j in s.sessions[i].touched;
      assert i in s'.sessions && s'.sessions[i].active && j in s'.sessions[i].touched;
    }
    if s.sessions[sid].active {
      assert sid in s'.sessions && s'.sessions[sid].active && k in s'.sessions[sid].touched;
    }
    forall j | TouchedBy(s'.sessions, j) ensures TouchedBy(s.sessions, j) || (j == k && s.sessions[sid].active) {
      var i :| i in s'.sessions && s'.sessions[i].active && j in s'.sessions[i].touched;
      assert i != sid || j != k ==> i in s.sessions && s.sessions[i].active && j in s.sessions[i].touched;
    }
  }

  lemma TxAckBridge(s: Sys, k: Key, t: Token, metadataOk: bool)
    requires BridgeOk(s.bridge) && s.bridge.active && Live(s, k).Some?
    ensures var b, g := TxAck(s, k, t, metadataOk).bridge, Live(s, k).value;
            var ok := StageOutcome(s.bridge, k, metadataOk).Staged?;
            && BridgeOk(b) && b.active
            && StagedFor(b, k) == D.StagedAfter(g, t, ok, StagedFor(s.bridge, k))
            && forall j :: j != k ==> StagedFor(b, j) == StagedFor(s.bridge, j)
  {
    var g := Live(s, k).value;
    StageKeepsBridge(s.bridge, k, t.coord.partition, Drained(g, t.coord).0, metadataOk);
  }

  /** An acknowledgement through the bridge, in the world of its own group and in all others. */
  lemma TxAckAll(s: Sys, k: Key, t: Token, metadataOk: bool, touched: set<Key>)
    requires BridgeOk(s.bridge) && s.bridge.active && k in touched
    requires forall j :: j in s.worlds ==> D.Kept(s.worlds[j], j in touched, StagedFor(s.bridge, j))
    ensures var s' := TxAck(s, k, t, metadataOk);
            forall j :: j in s'.worlds ==> D.Kept(s'.worlds[j], j in touched, StagedFor(s'.bridge, j))
  {
    if Live(s, k).Some? {
      var g, s' := Live(s, k).value, TxAck(s, k, t, metadataOk);
      var ok := StageOutcome(s.bridge, k, metadataOk).Staged?;
      TxAckBridge(s, k, t, metadataOk);
      D.TxAckKept(s.worlds[k], g, t, ok, StagedFor(s.bridge, k));
      assert s'.worlds == s.worlds[k := D.TxAck(s.worlds[k], g, t, ok)];
    }
  }

  ghost function ActiveTouched(s: Sys): set<Key> {
    set k | k in s.worlds && TouchedBy(s.sessions, k)
  }

  lemma AcknowledgedKept(s: Sys, sid: nat, k: Key, t: Token, brokerOk: bool)
    requires Good(s) && Routed(s, Acknowledged(sid, k, t, brokerOk))
    ensures AllKept(Next(s, Acknowledged(sid, k, t, brokerOk)))
  {
    if CanExecute(s, sid) && s.sessions[sid].active {
      StagedAckKept(s, sid, k, t, brokerOk);
    } else if CanExecute(s, sid) && Live(s, k).Some? {
      var w := D.DirectAck(s.worlds[k], Live(s, k).value, t, brokerOk);
      D.DirectAckKept(s.worlds[k], Live(s, k).value, t, brokerOk, StagedFor(s.bridge, k));
      OneWorldKept(s, k, w);
    }
  }

  lemma StagedAckKept(s: Sys, sid: nat, k: Key, t: Token, metadataOk: bool)
    requires Good(s) && sid in s.sessions && s.sessions[sid].active
    ensures AllKept(TxAck(Touch(s, sid, k), k, t, metadataOk))
  {
    assert SomeActive(s.sessions);
    var u := Touch(s, sid, k);
    TouchGrows(s, sid, k);
    SessionsKept(s, u);
    if k in s.worlds { TxAckAll(u, k, t, metadataOk, ActiveTouched(u)); }
  }

  /** Commit: what was staged and pending becomes durable in every group. */
  lemma CommitTxKept(s: Sys, touched: set<Key>)
    requires forall k :: k in s.worlds ==> D.Kept(s.worlds[k], k in touched, StagedFor(s.bridge, k))
    ensures forall k :: k in CommitTx(s).worlds ==> D.Kept(CommitTx(s).worlds[k], false, map[])
  {
    forall k | k in CommitTx(s).worlds ensures D.Kept(CommitTx(s).worlds[k], false, map[]) {
      D.TxCommittedKept(s.worlds[k], k in touched, StagedFor(s.bridge, k));
    }
  }

  /** Abort: every state that leaned on the transaction is dropped with it. */
  lemma AbortTxKept(s: Sys, touched: set<Key>, dropped: set<Key>)
    requires forall k :: k in s.worlds ==> D.Kept(s.worlds[k], k in touched, StagedFor(s.bridge, k))
    requires forall k :: k in touched && k !in dropped && k in s.worlds ==> s.worlds[k].pending == {}
    ensures forall k :: k in s.worlds ==> D.Kept(RecoverAll(AbortAll(s.worlds), dropped)[k], false, map[])
  {
    forall k | k in s.worlds ensures D.Kept(RecoverAll(AbortAll(s.worlds), dropped)[k], false, map[]) {
      var w, staged := s.worlds[k], StagedFor(s.bridge, k);
      if k in dropped {
        D.RecoveredKept(w, k in touched, false, staged);
        D.TxAbortedKept(D.Recovered(w), false, staged);
        assert D.Recovered(D.TxAborted(w)) == D.TxAborted(D.Recovered(w));
      } else {
        if k in touched { D.NothingLeansOn(w, staged); }
        D.TxAbortedKept(w, false, staged);
      }
    }
  }

  lemma NoneTouched(sessions: map<nat, Session>)
    requires !SomeActive(sessions)
    ensures forall k :: !TouchedBy(sessions, k)
  {
  }

  lemma OnlyTouched(s: Sys, sid: nat)
    requires AtMostOneActive(s.sessions) && sid in s.sessions && s.sessions[sid].active
    ensures forall k :: TouchedBy(s.sessions, k) <==> k in s.sessions[sid].touched
  {
    forall k | k in s.sessions[sid].touched ensures TouchedBy(s.sessions, k) {
      assert sid in s.sessions && s.sessions[sid].active && k in s.sessions[sid].touched;
    }
  }

  lemma EndKept(s: Sys, sid: nat, commitOk: bool, recovery: Recovery)
    requires Good(s) && InTx(s, sid) && (!commitOk ==> Harmless(s, LeftBy(recovery)))
    ensures AllKept(CommitSession(s, sid, commitOk, recovery))
    ensures !commitOk ==> AllKept(Rollback(s, sid, recovery))
  {
    var touched := s.sessions[sid].touched;
    OnlyTouched(s, sid);
    assert SomeActive(s.sessions);
    EndExclusive(s, sid, commitOk, recovery);
    NoneTouched(CommitSession(s, sid, commitOk, recovery).sessions);
    NoneTouched(Rollback(s, sid, recovery).sessions);
    if commitOk {
      CommitTxKept(s, touched);
    } else {
      AbortTxKept(s, touched, touched - LeftBy(recovery));
      assert Rollback(s, sid, recovery).worlds == CommitSession(s, sid, commitOk, recovery).worlds;
    }
  }

  lemma ClosedKept(s: Sys, sid: nat, abortOk: bool, recovery: Recovery)
    requires Good(s) && (InTx(s, sid) ==> Harmless(s, LeftBy(recovery)))
    ensures AllKept(Next(s, Closed(sid, abortOk, recovery)))
  {
    if sid in s.sessions && !s.sessions[sid].closed {
      var r := if s.sessions[sid].active then Rollback(s, sid, recovery) else s;
      if s.sessions[sid].active { EndKept(s, sid, false, recovery); }
      var s' := r.(sessions := r.sessions[sid := r.sessions[sid].(closed := true)]);
      forall k | TouchedBy(r.sessions, k) ensures TouchedBy(s'.sessions, k) {
        var i :| i in r.sessions && r.sessions[i].active && k in r.sessions[i].touched;
        assert i in s'.sessions && s'.sessions[i].active && k in s'.sessions[i].touched;
      }
      SessionsKept(r, s');
    }
  }

  lemma BeganKept(s: Sys, sid: nat, beginOk: bool)
    requires Good(s)
    ensures AllKept(BeginSession(s, sid, beginOk))
  {
    var s' := BeginSession(s, sid, beginOk);
    if s' != s {
      NoneTouched(s.sessions);
      assert forall k :: StagedFor(s'.bridge, k) == StagedFor(s.bridge, k);
      var mid := s.(bridge := s'.bridge);
      assert AllKept(mid);
      SessionsKept(mid, s');
    }
  }

  // ------------------------------------------------------------ consume-publish

  /** The groups that lean on the transaction while a consume-publish of `sid` on `k` is under way. */
  function Leaning(s: Sys, sid: nat, k: Key): set<Key>
    requires sid in s.sessions
  {
    if s.sessions[sid].active then s.sessions[sid].touched + {k} else {k}
  }

  /** What is left of an attempt inside the transaction of its caller. */
  lemma InnerNext(s: Sys, step: Step, a: Sys)
    requires step.ConsumedAndPublished? && CanExecute(s, step.sid) && s.sessions[step.sid].active
    requires a == Attempted(s, step.sid, step.k, step.t, step.outputs, step.tx) && step.sid in a.sessions
    ensures Next(s, step) == if AttemptOk(s, step.sid, step.k, step.t, step.outputs, step.tx) then a
                             else Forget(a, step.sid, step.tx.recovery)
  {
  }

  /** What is left of an attempt in a transaction of its own. */
  lemma OwnNext(s: Sys, step: Step, a: Sys)
    requires step.ConsumedAndPublished? && CanExecute(s, step.sid) && OpensOwn(s, step.sid, step.tx)
    requires a == Attempted(s, step.sid, step.k, step.t, step.outputs, step.tx) && step.sid in a.sessions
    ensures Next(s, step) ==
            if AttemptOk(s, step.sid, step.k, step.t, step.outputs, step.tx) && step.tx.commitOk
            then Untouch(CommitTx(a), step.sid)
            else Forget(AbortTx(a), step.sid, OwnRecovery(s, step.sid, step.k, step.t, step.outputs, step.tx))
  {
  }

  lemma StagedNext(s: Sys, step: Step, touch: Sys)
    requires step.Acknowledged? && CanExecute(s, step.sid) && s.sessions[step.sid].active
    requires touch == Touch(s, step.sid, step.k)
    ensures Next(s, step) == TxAck(touch, step.k, step.t, step.brokerOk)
    ensures forall k :: Live(touch, k) == Live(s, k)
  {
  }

  lemma AttemptedKept(s: Sys, sid: nat, k: Key, t: Token, outputs: seq<Event>, tx: TxEnv)
    requires Good(s) && sid in s.sessions && (s.sessions[sid].active || OpensOwn(s, sid, tx))
    ensures var a := Attempted(s, sid, k, t, outputs, tx);
            forall j :: j in a.worlds ==> D.Kept(a.worlds[j], j in Leaning(s, sid, k), StagedFor(a.bridge, j))
  {
    var begun := if s.sessions[sid].active then s else s.(bridge := Begin(s.bridge, tx.beginOk));
    var produced, lean := Produce(Touch(begun, sid, k), outputs, tx.produced), Leaning(s, sid, k);
    if s.sessions[sid].active {
      OnlyTouched(s, sid);
      assert SomeActive(s.sessions);
    } else {
      NoneTouched(s.sessions);
    }
    forall j | j in produced.worlds ensures D.Kept(produced.worlds[j], j in lean, StagedFor(produced.bridge, j)) {
      assert StagedFor(produced.bridge, j) == StagedFor(s.bridge, j);
      if j in lean && !TouchedBy(s.sessions, j) { D.TouchedWeaker(s.worlds[j], StagedFor(s.bridge, j)); }
    }
    TxAckAll(produced, k, t, tx.metadataOk, lean);
  }

  lemma ConsumePublishKept(s: Sys, sid: nat, k: Key, t: Token, outputs: seq<Event>, tx: TxEnv)
    requires Good(s) && CanExecute(s, sid) && Routed(s, ConsumedAndPublished(sid, k, t, outputs, tx))
    ensures AllKept(ConsumePublish(s, sid, k, t, outputs, tx))
  {
    var owns, s' := !s.sessions[sid].active, ConsumePublish(s, sid, k, t, outputs, tx);
    if owns && OpensOwn(s, sid, tx) {
      OwnConsumePublishKept(s, sid, k, t, outputs, tx);
    } else if !owns {
      InnerConsumePublishKept(s, sid, k, t, outputs, tx);
    }
  }

  lemma IdleKept(s: Sys)
    requires s.bridge == IDLE && (forall j :: !TouchedBy(s.sessions, j))
    requires forall j :: j in s.worlds ==> D.Kept(s.worlds[j], false, map[])
    ensures AllKept(s)
  {
  }

  lemma OwnConsumePublishKept(s: Sys, sid: nat, k: Key, t: Token, outputs: seq<Event>, tx: TxEnv)
    requires Good(s) && CanExecute(s, sid) && OpensOwn(s, sid, tx)
    requires Routed(s, ConsumedAndPublished(sid, k, t, outputs, tx))
    ensures AllKept(ConsumePublish(s, sid, k, t, outputs, tx))
  {
    ConsumePublishIdle(s, sid, k, t, outputs, tx);
    if AttemptOk(s, sid, k, t, outputs, tx) && tx.commitOk {
      OwnCommitKept(s, sid, k, t, outputs, tx);
    } else {
      OwnAbortKept(s, sid, k, t, outputs, tx);
    }
    IdleKept(ConsumePublish(s, sid, k, t, outputs, tx));
  }

  lemma OwnCommitKept(s: Sys, sid: nat, k: Key, t: Token, outputs: seq<Event>, tx: TxEnv)
    requires Good(s) && sid in s.sessions && OpensOwn(s, sid, tx)
    requires AttemptOk(s, sid, k, t, outputs, tx) && tx.commitOk
    ensures var s' := ConsumePublish(s, sid, k, t, outputs, tx);
            forall j :: j in s'.worlds ==> D.Kept(s'.worlds[j], false, map[])
  {
    AttemptedKept(s, sid, k, t, outputs, tx);
    CommitTxKept(Attempted(s, sid, k, t, outputs, tx), {k});
  }

  lemma OwnAbortKept(s: Sys, sid: nat, k: Key, t: Token, outputs: seq<Event>, tx: TxEnv)
    requires Good(s) && sid in s.sessions && OpensOwn(s, sid, tx)
    requires !(AttemptOk(s, sid, k, t, outputs, tx) && tx.commitOk)
    requires Harmless(Attempted(s, sid, k, t, outputs, tx), LeftBy(OwnRecovery(s, sid, k, t, outputs, tx)))
    ensures var s' := ConsumePublish(s, sid, k, t, outputs, tx);
            forall j :: j in s'.worlds ==> D.Kept(s'.worlds[j], false, map[])
  {
    var a, recovery := Attempted(s, sid, k, t, outputs, tx), OwnRecovery(s, sid, k, t, outputs, tx);
    AttemptedKept(s, sid, k, t, outputs, tx);
    AttemptedBridge(s, sid, k, t, outputs, tx);
    AbortTxKept(a, {k}, a.sessions[sid].touched - LeftBy(recovery));
    assert ConsumePublish(s, sid, k, t, outputs, tx) == Forget(AbortTx(a), sid, recovery);
  }

  lemma ConsumePublishIdle(s: Sys, sid: nat, k: Key, t: Token, outputs: seq<Event>, tx: TxEnv)
    requires Good(s) && sid in s.sessions && OpensOwn(s, sid, tx)
    ensures var s' := ConsumePublish(s, sid, k, t, outputs, tx);
            s'.bridge == IDLE && forall j :: !TouchedBy(s'.sessions, j)
  {
    AttemptedBridge(s, sid, k, t, outputs, tx);
    NoneTouched(s.sessions);
    assert !SomeActive(s.sessions);
  }

  lemma InnerConsumePublishKept(s: Sys, sid: nat, k: Key, t: Token, outputs: seq<Event>, tx: TxEnv)
    requires Good(s) && sid in s.sessions && s.sessions[sid].active
    ensures AllKept(ConsumePublish(s, sid, k, t, outputs, tx))
  {
    var a := Attempted(s, sid, k, t, outputs, tx);
    AttemptedBridge(s, sid, k, t, outputs, tx);
    AttemptedKept(s, sid, k, t, outputs, tx);
    SameActivity(s.sessions, sid, a.sessions[sid]);
    OnlyTouched(a, sid);
    if !AttemptOk(s, sid, k, t, outputs, tx) {
      ForgottenKept(a, sid, tx.recovery);
    }
  }

  /** A recovery inside a transaction that stays open: what it does not reach is still touched. */
  lemma ForgottenKept(a: Sys, sid: nat, recovery: Recovery)
    requires AtMostOneActive(a.sessions) && sid in a.sessions && a.sessions[sid].active && AllKept(a)
    ensures AllKept(Forget(a, sid, recovery))
  {
    var f := Forget(a, sid, recovery);
    SameActivity(a.sessions, sid, f.sessions[sid]);
    OnlyTouched(a, sid);
    OnlyTouched(f, sid);
    forall j | j in f.worlds ensures D.Kept(f.worlds[j], TouchedBy(f.sessions, j), StagedFor(f.bridge, j)) {
      if j in a.sessions[sid].touched - LeftBy(recovery) {
        D.RecoveredKept(a.worlds[j], true, TouchedBy(f.sessions, j), StagedFor(a.bridge, j));
      }
    }
  }

  // ------------------------------------------------------------ whole runs

  lemma NextKept(s: Sys, step: Step)
    requires Good(s) && Enabled(s, step) && Routed(s, step)
    ensures AllKept(Next(s, step))
  {
    if step.Appended? || step.Truncated? || step.PeerCommitted? { BrokerStepKept(s, step); }
    else if step.Revoked? || step.Expired? || step.Resumed? || step.Delivered? { PollStepKept(s, step); }
    else if step.Joined? || step.Assigned? || step.Recovered? { StateStepKept(s, step); }
    else if step.NegativelyAcknowledged? { NackStepKept(s, step); }
    else if step.Positioned? { PositionedStepKept(s, step); }
    else { SessionStepKept(s, step); }
  }

  lemma SessionStepKept(s: Sys, step: Step)
    requires Good(s) && Routed(s, step) && !WorldStep(step)
    ensures AllKept(Next(s, step))
  {
    match step
    case Opened(sid, transactional) => OpenedKept(s, sid, transactional);
    case Began(sid, beginOk) => BeganKept(s, sid, beginOk);
    case Acknowledged(sid, k, t, brokerOk) => AcknowledgedKept(s, sid, k, t, brokerOk);
    case Published(sid, events, produced) =>
    case ConsumedAndPublished(sid, k, t, outputs, tx) =>
      if CanExecute(s, sid) { ConsumePublishKept(s, sid, k, t, outputs, tx); }
    case Committed(sid, commitOk, recovery) => if InTx(s, sid) { EndKept(s, sid, commitOk, recovery); }
    case RolledBack(sid, recovery) => if InTx(s, sid) { EndKept(s, sid, false, recovery); }
    case Closed(sid, abortOk, recovery) => ClosedKept(s, sid, abortOk, recovery);
  }

  lemma OpenedKept(s: Sys, sid: nat, transactional: bool)
    requires Good(s)
    ensures AllKept(Next(s, Opened(sid, transactional)))
  {
    var s' := Next(s, Opened(sid, transactional));
    forall k | TouchedBy(s.sessions, k) ensures TouchedBy(s'.sessions, k) {
      var i :| i in s.sessions && s.sessions[i].active && k in s.sessions[i].touched;
      assert i in s'.sessions && s'.sessions[i].active && k in s'.sessions[i].touched;
    }
    SessionsKept(s, s');
  }

  lemma InitGood(s: Sys)
    requires Init(s)
    ensures Good(s)
  {
    forall k | k in s.worlds ensures D.Kept(s.worlds[k], TouchedBy(s.sessions, k), StagedFor(s.bridge, k)) {
      assert InitWorld(s.worlds[k]);
    }
  }

  /** Every state of every allowed and properly routed run is in order. */
  lemma {:induction false} RunGood(s: Sys, steps: seq<Step>)
    requires Init(s) && RunAllowed(s, steps) && RunRouted(s, steps)
    ensures Good(Run(s, steps))
  {
    InitGood(s);
    if steps != [] {
      var rest, last := steps[..|steps| - 1], steps[|steps| - 1];
      AllowedPrefix(s, steps);
      RunGood(s, rest);
      NextGood(Run(s, rest), last);
    }
  }

  lemma AllowedPrefix(s: Sys, steps: seq<Step>)
    requires steps != [] && RunAllowed(s, steps) && RunRouted(s, steps)
    ensures var rest, last := steps[..|steps| - 1], steps[|steps| - 1];
            && RunAllowed(s, rest) && RunRouted(s, rest) && Enabled(Run(s, rest), last) && Routed(Run(s, rest), last)
  {
    var rest := steps[..|steps| - 1];
    forall i | 0 <= i < |rest| ensures Enabled(Run(s, rest[..i]), rest[i]) && Routed(Run(s, rest[..i]), rest[i]) {
      assert rest[..i] == steps[..i];
    }
  }

  lemma NextGood(s: Sys, step: Step)
    requires Good(s) && Enabled(s, step) && Routed(s, step)
    ensures Good(Next(s, step))
  {
    NextExclusive(s, step);
    NextKept(s, step);
  }
}
