/** Where the safe position of a live group may stand: not past its own start, the committed offset, and what the active
    transaction has staged for it. */
module SafeOffsets {
  import opened Basics
  import opened ConsumerGroup
  import D = Durability
  import opened Transactions
  import opened Runtime
  import opened RuntimeSafety

  /** One partition of one group: the safe position of the live state, the committed offset, the staged one, and whether
      the active transaction touched the group. */
  datatype View = View(at: Option<nat>, committed: Option<nat>, staged: Option<nat>, touched: bool)

  function Get(m: map<nat, nat>, p: nat): Option<nat> {
    if p in m then Some(m[p]) else None
  }

  function SafeOf(live: Option<Group>, p: nat): Option<nat> {
    if live.Some? then Get(live.value.safe, p) else None
  }

  ghost function ViewOf(s: Sys, k: Key, p: nat): View {
    View(SafeOf(Live(s, k), p), if k in s.worlds then Get(s.worlds[k].committed, p) else None,
         Get(StagedFor(s.bridge, k), p), TouchedBy(s.sessions, k))
  }

  /** What the books say of a partition: the safe position is at its start, or committed, or staged by a transaction
      that will recover the group if it fails. A commit of the staged offset, too, will bring it to the books. */
  predicate Accounted(v: View, start: Option<nat>) {
    v.at.Some? ==>
      && start.Some?
      && (|| v.at.value <= start.value
          || (v.committed.Some? && v.at.value <= v.committed.value)
          || StagedPast(v))
      && (v.staged.Some? ==> v.at.value <= start.value || StagedPast(v))
  }

  predicate StagedPast(v: View)
    requires v.at.Some?
  {
    v.touched && v.staged.Some? && v.at.value <= v.staged.value
  }

  /** Where the live state began: at its first delivery of the partition, or where the position was set. */
  function NextStart(v: View, v': View, moved: bool, start: Option<nat>): Option<nat> {
    if v'.at.None? then None else if v.at.None? || moved then v'.at else start
  }

  /** What a step can do to a partition: nothing, drop or begin its state, commit its safe position, stage it, and end
      the transaction by a commit or by an abort that it does not lean on. */
  predicate Moves(v: View, v': View) {
    || (v'.at == v.at && v'.committed == v.committed && v'.staged == v.staged && (v.touched ==> v'.touched))
    || v'.at.None?
    || v.at.None?
    || (v'.staged.None? && v'.at.Some? && v'.committed.Some? && v'.at.value <= v'.committed.value)
    || (v'.at.Some? && StagedPast(v'))
    || (v'.at == v.at && v'.staged.None? && v'.committed == if v.staged.Some? then v.staged else v.committed)
    || (v'.at == v.at && v'.staged.None? && v'.committed == v.committed && (v.touched ==> v.staged.None?))
  }

  lemma MovesKeep(v: View, v': View, moved: bool, start: Option<nat>)
    requires Accounted(v, start) && Moves(v, v')
    ensures Accounted(v', NextStart(v, v', moved, start))
  {
  }

  // ------------------------------------------------------------ which steps do what

  /** Nothing is staged for the group. */
  predicate Clear(s: Sys, k: Key) {
    StagedFor(s.bridge, k) == map[]
  }

  /** Beside the routing of calls: only this engine commits for the group, it does so directly only while nothing is
      staged for the group, and a recovery that is interrupted does not leave out the group that something is staged
      for. */
  ghost predicate Steady(s: Sys, step: Step) {
    match step
    case PeerCommitted(_, _, _, _, _) => false
    case Acknowledged(sid, k, _, _) => CanExecute(s, sid) && !s.sessions[sid].active ==> Clear(s, k)
    case NegativelyAcknowledged(sid, k, t, policy, retryAfter, _, env) =>
      Live(s, k).Some? && NackOutcome(Live(s, k).value, t, policy, retryAfter, env).DeadLettered? ==> Clear(s, k)
    case Committed(_, commitOk, recovery) => !commitOk ==> forall k :: k in LeftBy(recovery) ==> Clear(s, k)
    case RolledBack(_, recovery) => forall k :: k in LeftBy(recovery) ==> Clear(s, k)
    case Closed(_, _, recovery) => forall k :: k in LeftBy(recovery) ==> Clear(s, k)
    case _ => true
  }

  lemma AckMoves(g: Group, t: Token, ok: bool, p: nat)
    requires Sound(g)
    ensures var g' := Ack(g, t, ok);
            Get(g'.safe, p) == if p == t.coord.partition && AckOutcome(g, t, ok) == Accepted(true)
                               then Some(Drained(g, t.coord).0)
                               else Get(g.safe, p)
  {
    if Current(g, t) { assert InflightSound(g, t.coord); }
    DrainMeaning(SafeOr(g, t.coord.partition, t.coord.offset), Acked(g, t.coord.partition) + {t.coord.offset});
  }

  lemma LiveSound(s: Sys, k: Key)
    requires Good(s) && Live(s, k).Some?
    ensures Sound(Live(s, k).value)
  {
    assert D.Kept(s.worlds[k], TouchedBy(s.sessions, k), StagedFor(s.bridge, k));
  }

  /** The steps that change one group and nothing of the transaction. */
  lemma Elsewhere(s: Sys, step: Step, k: Key, p: nat)
    requires WorldStep(step)
    ensures Next(s, step).bridge == s.bridge && Next(s, step).sessions == s.sessions
    ensures k != step.k ==> ViewOf(Next(s, step), k, p) == ViewOf(s, k, p)
  {
    OneWorldOnly(s, step);
  }

  lemma DeliverKeepsSafe(g: Group, c: Coord, clock: int, expiresAt: int, decodable: bool, minted: bool, seekOk: bool,
                         p: nat)
    ensures p in g.safe ==> Get(Deliver(g, c, clock, expiresAt, decodable, minted, seekOk).safe, p) == Get(g.safe, p)
  {
    DeliverSafe(g, c, clock, expiresAt, decodable, minted, seekOk);
  }

  lemma QuietMoves(s: Sys, step: Step, p: nat)
    requires WorldStep(step) && !step.PeerCommitted? && !step.NegativelyAcknowledged? && !step.Positioned?
    ensures Moves(ViewOf(s, step.k, p), ViewOf(Next(s, step), step.k, p))
  {
    var k := step.k;
    Elsewhere(s, step, k, p);
    if step.Delivered? && Live(s, k).Some? {
      DeliverKeepsSafe(Live(s, k).value, step.c, step.clock, step.expiresAt, step.decodable, step.minted, step.seekOk,
                       p);
    }
  }

  /** An acknowledgement outside a transaction, in a group that the open one has not touched. */
  lemma DirectMoves(w: D.World, w': D.World, g: Group, t: Token, ok: bool, p: nat)
    requires w.live == Some(g) && Sound(g)
    requires w'.live == Some(Ack(g, t, ok))
    requires w'.committed == if AckOutcome(g, t, ok) == Accepted(true)
                             then w.committed[t.coord.partition := Drained(g, t.coord).0]
                             else w.committed
    ensures || (SafeOf(w'.live, p) == SafeOf(w.live, p) && Get(w'.committed, p) == Get(w.committed, p))
            || SafeOf(w'.live, p) == Get(w'.committed, p)
  {
    AckMoves(g, t, ok, p);
  }

  lemma NackedMoves(w: D.World, g: Group, t: Token, policy: DeadLetterPolicy, retryAfter: nat, clock: int, env: NackEnv,
                    p: nat)
    requires w.live == Some(g) && Sound(g)
    ensures var w' := D.Nacked(w, g, t, policy, retryAfter, clock, env);
            || (SafeOf(w'.live, p) == SafeOf(w.live, p) && Get(w'.committed, p) == Get(w.committed, p))
            || (SafeOf(w'.live, p) == Get(w'.committed, p) && NackOutcome(g, t, policy, retryAfter, env).DeadLettered?)
  {
    var w' := D.Nacked(w, g, t, policy, retryAfter, clock, env);
    if NackOutcome(g, t, policy, retryAfter, env).DeadLettered? {
      DirectMoves(w, w', g, t, env.commitOk, p);
    } else {
      assert w'.live.value.safe == g.safe && w'.committed == w.committed;
    }
  }

  lemma NackMoves(s: Sys, step: Step, p: nat)
    requires Good(s) && Steady(s, step) && step.NegativelyAcknowledged?
    ensures Moves(ViewOf(s, step.k, p), ViewOf(Next(s, step), step.k, p))
  {
    Elsewhere(s, step, step.k, p);
    if CanExecute(s, step.sid) && !s.sessions[step.sid].active && Live(s, step.k).Some? {
      var w, g := s.worlds[step.k], Live(s, step.k).value;
      LiveSound(s, step.k);
      NackedMoves(w, g, step.t, step.policy, step.retryAfter, step.clock, step.env, p);
      assert Next(s, step).worlds[step.k] == D.Nacked(w, g, step.t, step.policy, step.retryAfter, step.clock, step.env);
    }
  }

  lemma PositionedMoves(s: Sys, step: Step, p: nat)
    requires Routed(s, step) && Enabled(s, step) && step.Positioned?
    ensures Moves(ViewOf(s, step.k, p), ViewOf(Next(s, step), step.k, p))
  {
    var k := step.k;
    Elsewhere(s, step, k, p);
    if Repositions(s, step, k) {
      var w' := Next(s, step).worlds[k];
      assert w'.live.value.safe == step.target && w'.committed == s.worlds[k].committed + step.target;
    }
  }

  lemma WorldStepMoves(s: Sys, step: Step, k: Key, p: nat)
    requires Good(s) && Enabled(s, step) && Routed(s, step) && Steady(s, step) && WorldStep(step)
    ensures Moves(ViewOf(s, k, p), ViewOf(Next(s, step), k, p))
  {
    Elsewhere(s, step, k, p);
    if k == step.k {
      match step
      case NegativelyAcknowledged(_, _, _, _, _, _, _) => NackMoves(s, step, p);
      case Positioned(_, _, _, _) => PositionedMoves(s, step, p);
      case _ => QuietMoves(s, step, p);
    }
  }

  // ------------------------------------------------------------ acknowledgements

  /** Through the bridge: an advance is staged at or past the new safe position, everything else stays. */
  lemma TxAckMoves(s: Sys, k: Key, t: Token, metadataOk: bool, j: Key, p: nat)
    requires BridgeOk(s.bridge) && s.bridge.active
    requires Live(s, k).Some? ==> Sound(Live(s, k).value)
    ensures var s' := TxAck(s, k, t, metadataOk);
            && s'.sessions == s.sessions && s'.worlds.Keys == s.worlds.Keys && BridgeOk(s'.bridge) && s'.bridge.active
            && (j in s.worlds ==> s'.worlds[j].committed == s.worlds[j].committed)
            && (Unmoved(s, s', j, p) || (j == k && Staged(s', j, p) && t.coord in s'.worlds[k].pending))
  {
    if Live(s, k).Some? {
      var g := Live(s, k).value;
      var ok := StageOutcome(s.bridge, k, metadataOk).Staged?;
      TxAckBridge(s, k, t, metadataOk);
      AckMoves(g, t, ok, p);
      if j == k && Current(g, t) && Advances(g, t.coord) { assert InflightSound(g, t.coord); }
    }
  }

  predicate Unmoved(s: Sys, s': Sys, k: Key, p: nat) {
    SafeOf(Live(s', k), p) == SafeOf(Live(s, k), p) && Get(StagedFor(s'.bridge, k), p) == Get(StagedFor(s.bridge, k), p)
  }

  predicate Staged(s: Sys, k: Key, p: nat) {
    var at, staged := SafeOf(Live(s, k), p), Get(StagedFor(s.bridge, k), p);
    at.Some? && staged.Some? && at.value <= staged.value
  }

  lemma ThroughBridge(s: Sys, s': Sys, sid: nat, k: Key, j: Key, p: nat)
    requires sid in s.sessions && s.sessions[sid].active && s'.sessions == Touch(s, sid, k).sessions
    requires s'.worlds.Keys == s.worlds.Keys && (j in s.worlds ==> s'.worlds[j].committed == s.worlds[j].committed)
    requires Unmoved(s, s', j, p) || (j == k && Staged(s', j, p))
    ensures Moves(ViewOf(s, j, p), ViewOf(s', j, p))
  {
    TouchGrows(s, sid, k);
  }

  lemma StagedMoves(s: Sys, step: Step, k: Key, p: nat)
    requires Good(s) && step.Acknowledged? && CanExecute(s, step.sid) && s.sessions[step.sid].active
    ensures Moves(ViewOf(s, k, p), ViewOf(Next(s, step), k, p))
  {
    var touch := Touch(s, step.sid, step.k);
    if Live(s, step.k).Some? { LiveSound(s, step.k); }
    StagedNext(s, step, touch);
    TxAckMoves(touch, step.k, step.t, step.brokerOk, k, p);
    ThroughBridge(s, TxAck(touch, step.k, step.t, step.brokerOk), step.sid, step.k, k, p);
  }

  lemma CommittedMoves(s: Sys, step: Step, p: nat)
    requires Good(s) && Steady(s, step) && step.Acknowledged? && CanExecute(s, step.sid) && !s.sessions[step.sid].active
    requires Live(s, step.k).Some?
    ensures Moves(ViewOf(s, step.k, p), ViewOf(Next(s, step), step.k, p))
  {
    var w, g := s.worlds[step.k], Live(s, step.k).value;
    var w' := D.DirectAck(w, g, step.t, step.brokerOk);
    LiveSound(s, step.k);
    DirectMoves(w, w', g, step.t, step.brokerOk, p);
    assert Next(s, step) == WithWorld(s, step.k, w');
  }

  lemma AcknowledgedMoves(s: Sys, step: Step, k: Key, p: nat)
    requires Good(s) && Steady(s, step) && step.Acknowledged?
    ensures Moves(ViewOf(s, k, p), ViewOf(Next(s, step), k, p))
  {
    if CanExecute(s, step.sid) && s.sessions[step.sid].active {
      StagedMoves(s, step, k, p);
    } else if CanExecute(s, step.sid) && Live(s, step.k).Some? && k == step.k {
      CommittedMoves(s, step, p);
    } else {
      assert ViewOf(Next(s, step), k, p) == ViewOf(s, k, p);
    }
  }

  // ------------------------------------------------------------ the ends of a transaction

  /** Committed: what was staged is committed and nothing is staged any more. */
  lemma CommitTxMoves(s: Sys, k: Key, p: nat)
    requires BridgeOk(s.bridge)
    ensures var v, s' := ViewOf(s, k, p), CommitTx(s);
            && SafeOf(Live(s', k), p) == v.at && Get(StagedFor(s'.bridge, k), p).None?
            && (k in s.worlds ==> Get(s'.worlds[k].committed, p) == if v.staged.Some? then v.staged else v.committed)
  {
  }

  lemma CommitMoves(s: Sys, sid: nat, recovery: Recovery, k: Key, p: nat)
    requires Good(s) && InTx(s, sid)
    ensures Moves(ViewOf(s, k, p), ViewOf(CommitSession(s, sid, true, recovery), k, p))
  {
    CommitTxMoves(s, k, p);
  }

  /** Aborted and recovered, as far as the recovery got. */
  lemma DroppedMoves(s: Sys, s': Sys, sid: nat, recovery: Recovery, k: Key, p: nat)
    requires Good(s) && InTx(s, sid) && forall j :: j in LeftBy(recovery) ==> Clear(s, j)
    requires s'.worlds == Drop(AbortTx(s), sid, recovery) && s'.bridge == AbortTx(s).bridge
    ensures Moves(ViewOf(s, k, p), ViewOf(s', k, p))
  {
    OnlyTouched(s, sid);
    assert SomeActive(s.sessions) && s'.bridge == IDLE;
    assert Get(StagedFor(s'.bridge, k), p).None?;
    if k in s.worlds {
      assert s'.worlds[k].committed == s.worlds[k].committed;
      assert s'.worlds[k].live == if k in s.sessions[sid].touched - LeftBy(recovery) then None else s.worlds[k].live;
    }
  }

  lemma EndMoves(s: Sys, sid: nat, recovery: Recovery, k: Key, p: nat)
    requires Good(s) && InTx(s, sid) && forall j :: j in LeftBy(recovery) ==> Clear(s, j)
    ensures Moves(ViewOf(s, k, p), ViewOf(CommitSession(s, sid, false, recovery), k, p))
    ensures Moves(ViewOf(s, k, p), ViewOf(Rollback(s, sid, recovery), k, p))
  {
    DroppedMoves(s, CommitSession(s, sid, false, recovery), sid, recovery, k, p);
    DroppedMoves(s, Rollback(s, sid, recovery), sid, recovery, k, p);
  }

  lemma ClosedMoves(s: Sys, sid: nat, abortOk: bool, recovery: Recovery, k: Key, p: nat)
    requires Good(s) && Steady(s, Closed(sid, abortOk, recovery))
    ensures Moves(ViewOf(s, k, p), ViewOf(Next(s, Closed(sid, abortOk, recovery)), k, p))
  {
    if InTx(s, sid) {
      DroppedMoves(s, Next(s, Closed(sid, abortOk, recovery)), sid, recovery, k, p);
    } else if sid in s.sessions && !s.sessions[sid].closed {
      StillTouched(s.sessions, sid, s.sessions[sid].(closed := true), k);
    }
  }

  lemma StillTouched(sessions: map<nat, Session>, sid: nat, ses: Session, k: Key)
    requires sid in sessions ==> ses.active == sessions[sid].active && ses.touched == sessions[sid].touched
    requires sid !in sessions ==> !ses.active
    ensures TouchedBy(sessions[sid := ses], k) <==> TouchedBy(sessions, k)
  {
    var sessions' := sessions[sid := ses];
    if TouchedBy(sessions, k) {
      var i :| i in sessions && sessions[i].active && k in sessions[i].touched;
      assert i in sessions' && sessions'[i].active && k in sessions'[i].touched;
    }
    if TouchedBy(sessions', k) {
      var i :| i in sessions' && sessions'[i].active && k in sessions'[i].touched;
      assert i in sessions && sessions[i].active && k in sessions[i].touched;
    }
  }

  lemma BeganMoves(s: Sys, step: Step, k: Key, p: nat)
    requires Good(s) && step.Began?
    ensures Moves(ViewOf(s, k, p), ViewOf(Next(s, step), k, p))
  {
    if Next(s, step) != s { NoneTouched(s.sessions); }
  }

  // ------------------------------------------------------------ consume-publish

  /** The attempt acknowledges through the bridge, whoever opened the transaction. */
  lemma AttemptedMoves(s: Sys, sid: nat, k: Key, t: Token, outputs: seq<Event>, tx: TxEnv, j: Key, p: nat)
    requires Good(s) && sid in s.sessions && (s.sessions[sid].active || OpensOwn(s, sid, tx))
    ensures var a := Attempted(s, sid, k, t, outputs, tx);
            && BridgeOk(a.bridge) && a.bridge.active
            && a.sessions == Touch(s, sid, k).sessions && a.worlds.Keys == s.worlds.Keys
            && (j in s.worlds ==> a.worlds[j].committed == s.worlds[j].committed)
            && (Unmoved(s, a, j, p) || (j == k && Staged(a, j, p) && t.coord in a.worlds[k].pending))
  {
    var begun := if s.sessions[sid].active then s else s.(bridge := Begin(s.bridge, tx.beginOk));
    var produced := Produce(Touch(begun, sid, k), outputs, tx.produced);
    if Live(s, k).Some? { LiveSound(s, k); }
    assert s.sessions[sid].active ==> SomeActive(s.sessions);
    assert Unmoved(s, produced, j, p);
    if tx.produced >= |outputs| { TxAckMoves(produced, k, t, tx.metadataOk, j, p); }
  }

  /** Inside a transaction that stays open: the groups that are recovered are dropped, the others are still touched. */
  lemma ForgottenMoves(s: Sys, a: Sys, sid: nat, k: Key, recovery: Recovery, j: Key, p: nat)
    requires Good(s) && sid in s.sessions && s.sessions[sid].active && a.sessions == Touch(s, sid, k).sessions
    requires a.worlds.Keys == s.worlds.Keys && (j in s.worlds ==> a.worlds[j].committed == s.worlds[j].committed)
    requires Unmoved(s, a, j, p) || (j == k && Staged(a, j, p))
    ensures Moves(ViewOf(s, j, p), ViewOf(Forget(a, sid, recovery), j, p))
  {
    var f := Forget(a, sid, recovery);
    if j in a.sessions[sid].touched - LeftBy(recovery) {
      assert Live(f, j).None?;
    } else {
      assert Live(f, j) == Live(a, j) && (j in s.worlds ==> f.worlds[j].committed == s.worlds[j].committed);
      OnlyTouched(s, sid);
      SameActivity(s.sessions, sid, f.sessions[sid]);
      assert f.sessions == s.sessions[sid := f.sessions[sid]];
      OnlyTouched(f, sid);
    }
  }

  lemma InnerMoves(s: Sys, step: Step, k: Key, p: nat)
    requires Good(s) && step.ConsumedAndPublished? && CanExecute(s, step.sid) && s.sessions[step.sid].active
    ensures Moves(ViewOf(s, k, p), ViewOf(Next(s, step), k, p))
  {
    var a := Attempted(s, step.sid, step.k, step.t, step.outputs, step.tx);
    AttemptedMoves(s, step.sid, step.k, step.t, step.outputs, step.tx, k, p);
    InnerNext(s, step, a);
    if AttemptOk(s, step.sid, step.k, step.t, step.outputs, step.tx) {
      ThroughBridge(s, a, step.sid, step.k, k, p);
    } else {
      ForgottenMoves(s, a, step.sid, step.k, step.tx.recovery, k, p);
    }
  }

  lemma OwnMoves(s: Sys, step: Step, k: Key, p: nat)
    requires Good(s) && Routed(s, step) && step.ConsumedAndPublished?
    requires CanExecute(s, step.sid) && OpensOwn(s, step.sid, step.tx)
    ensures Moves(ViewOf(s, k, p), ViewOf(Next(s, step), k, p))
  {
    var a := Attempted(s, step.sid, step.k, step.t, step.outputs, step.tx);
    AttemptedMoves(s, step.sid, step.k, step.t, step.outputs, step.tx, k, p);
    if AttemptOk(s, step.sid, step.k, step.t, step.outputs, step.tx) && step.tx.commitOk {
      OwnCommitMoves(s, a, step.sid, step.k, k, p);
      assert Next(s, step) == Untouch(CommitTx(a), step.sid);
    } else {
      var recovery := OwnRecovery(s, step.sid, step.k, step.t, step.outputs, step.tx);
      OwnAbortMoves(s, a, step.sid, step.k, step.t, recovery, k, p);
      assert Next(s, step) == Forget(AbortTx(a), step.sid, recovery);
    }
  }

  lemma OwnCommitMoves(s: Sys, a: Sys, sid: nat, k: Key, j: Key, p: nat)
    requires Good(s) && sid in s.sessions && !s.bridge.active && BridgeOk(a.bridge)
    requires a.worlds.Keys == s.worlds.Keys && (j in s.worlds ==> a.worlds[j].committed == s.worlds[j].committed)
    requires a.sessions == Touch(s, sid, k).sessions && (Unmoved(s, a, j, p) || (j == k && Staged(a, j, p)))
    ensures Moves(ViewOf(s, j, p), ViewOf(Untouch(CommitTx(a), sid), j, p))
  {
    NoneTouched(s.sessions);
    CommitTxMoves(a, j, p);
  }

  lemma OwnAbortMoves(s: Sys, a: Sys, sid: nat, k: Key, t: Token, recovery: Recovery, j: Key, p: nat)
    requires Good(s) && sid in s.sessions && !s.bridge.active && a.bridge.active && Harmless(a, LeftBy(recovery))
    requires a.worlds.Keys == s.worlds.Keys && (j in s.worlds ==> a.worlds[j].committed == s.worlds[j].committed)
    requires a.sessions == Touch(s, sid, k).sessions
    requires Unmoved(s, a, j, p) || (j == k && Staged(a, j, p) && k in a.worlds && t.coord in a.worlds[k].pending)
    ensures Moves(ViewOf(s, j, p), ViewOf(Forget(AbortTx(a), sid, recovery), j, p))
  {
    NoneTouched(s.sessions);
    var f := Forget(AbortTx(a), sid, recovery);
    assert Get(StagedFor(f.bridge, j), p).None?;
    if j in s.worlds {
      assert f.worlds[j].committed == s.worlds[j].committed;
      assert f.worlds[j].live == if j in a.sessions[sid].touched - LeftBy(recovery) then None else a.worlds[j].live;
    }
  }

  // ------------------------------------------------------------ every step, every run

  lemma EndStepMoves(s: Sys, step: Step, k: Key, p: nat)
    requires Good(s) && Steady(s, step) && (step.Committed? || step.RolledBack? || step.Closed?)
    ensures Moves(ViewOf(s, k, p), ViewOf(Next(s, step), k, p))
  {
    match step
    case Committed(sid, commitOk, recovery) =>
      if InTx(s, sid) {
        if commitOk { CommitMoves(s, sid, recovery, k, p); } else { EndMoves(s, sid, recovery, k, p); }
      }
    case RolledBack(sid, recovery) => if InTx(s, sid) { EndMoves(s, sid, recovery, k, p); }
    case Closed(sid, abortOk, recovery) => ClosedMoves(s, sid, abortOk, recovery, k, p);
  }

  lemma ConsumePublishMoves(s: Sys, step: Step, k: Key, p: nat)
    requires Good(s) && Routed(s, step) && step.ConsumedAndPublished?
    ensures Moves(ViewOf(s, k, p), ViewOf(Next(s, step), k, p))
  {
    if CanExecute(s, step.sid) && s.sessions[step.sid].active {
      InnerMoves(s, step, k, p);
    } else if CanExecute(s, step.sid) && OpensOwn(s, step.sid, step.tx) {
      OwnMoves(s, step, k, p);
    } else {
      assert Next(s, step) == s;
    }
  }

  lemma NextMoves(s: Sys, step: Step, k: Key, p: nat)
    requires Good(s) && Enabled(s, step) && Routed(s, step) && Steady(s, step)
    ensures Moves(ViewOf(s, k, p), ViewOf(Next(s, step), k, p))
  {
    if WorldStep(step) { WorldStepMoves(s, step, k, p); }
    else if step.Committed? || step.RolledBack? || step.Closed? { EndStepMoves(s, step, k, p); }
    else if step.ConsumedAndPublished? { ConsumePublishMoves(s, step, k, p); }
    else if step.Acknowledged? { AcknowledgedMoves(s, step, k, p); }
    else { SessionMoves(s, step, k, p); }
  }

  lemma SessionMoves(s: Sys, step: Step, k: Key, p: nat)
    requires Good(s) && (step.Opened? || step.Began? || step.Published?)
    ensures Moves(ViewOf(s, k, p), ViewOf(Next(s, step), k, p))
  {
    if step.Opened? { OpenedMoves(s, step, k, p); }
    else if step.Began? { BeganMoves(s, step, k, p); }
    else { PublishedMoves(s, step, k, p); }
  }

  lemma OpenedMoves(s: Sys, step: Step, k: Key, p: nat)
    requires step.Opened?
    ensures Moves(ViewOf(s, k, p), ViewOf(Next(s, step), k, p))
  {
    if step.sid !in s.sessions {
      StillTouched(s.sessions, step.sid, Session(step.transactional, false, false, {}), k);
    }
  }

  lemma PublishedMoves(s: Sys, step: Step, k: Key, p: nat)
    requires step.Published?
    ensures ViewOf(Next(s, step), k, p) == ViewOf(s, k, p)
  {
    var s' := Next(s, step);
    assert s'.worlds == s.worlds && s'.bridge == s.bridge && s'.sessions == s.sessions;
  }

  ghost predicate RunSteady(s: Sys, steps: seq<Step>) {
    forall i :: 0 <= i < |steps| ==> Steady(Run(s, steps[..i]), steps[i])
  }

  /** Where the live state of the group began in the partition, read off the run. */
  ghost function StartOf(s: Sys, steps: seq<Step>, k: Key, p: nat): Option<nat> {
    if steps == [] then None
    else
      var rest, step := steps[..|steps| - 1], steps[|steps| - 1];
      NextStart(ViewOf(Run(s, rest), k, p), ViewOf(Run(s, steps), k, p), Repositions(Run(s, rest), step, k),
                StartOf(s, rest, k, p))
  }

  lemma Prefix(s: Sys, steps: seq<Step>)
    requires steps != [] && RunAllowed(s, steps) && RunRouted(s, steps) && RunSteady(s, steps)
    ensures var rest := steps[..|steps| - 1];
            && RunAllowed(s, rest) && RunRouted(s, rest) && RunSteady(s, rest)
            && Enabled(Run(s, rest), steps[|steps| - 1]) && Routed(Run(s, rest), steps[|steps| - 1])
            && Steady(Run(s, rest), steps[|steps| - 1])
  {
    var rest := steps[..|steps| - 1];
    forall i | 0 <= i < |rest|
      ensures Enabled(Run(s, rest[..i]), rest[i]) && Routed(Run(s, rest[..i]), rest[i])
      ensures Steady(Run(s, rest[..i]), rest[i])
    {
      assert rest[..i] == steps[..i] && rest[i] == steps[i];
    }
  }

  /** In every such run the safe position of a live group is at its start, or committed, or staged by the active
      transaction, which then has touched the group. */
  lemma {:induction false} SafeIsAccountedFor(s: Sys, steps: seq<Step>, k: Key, p: nat)
    requires Init(s) && RunAllowed(s, steps) && RunRouted(s, steps) && RunSteady(s, steps)
    ensures Accounted(ViewOf(Run(s, steps), k, p), StartOf(s, steps, k, p))
  {
    if steps != [] {
      var rest, step := steps[..|steps| - 1], steps[|steps| - 1];
      Prefix(s, steps);
      SafeIsAccountedFor(s, rest, k, p);
      RunGood(s, rest);
      NextMoves(Run(s, rest), step, k, p);
      MovesKeep(ViewOf(Run(s, rest), k, p), ViewOf(Run(s, steps), k, p), Repositions(Run(s, rest), step, k),
                StartOf(s, rest, k, p));
    }
  }

  /** With no transaction open, as after any rollback or failed commit, no live group stands past both its start and the
      committed offset. */
  lemma NothingAbortedRemains(s: Sys, steps: seq<Step>, k: Key, p: nat)
    requires Init(s) && RunAllowed(s, steps) && RunRouted(s, steps) && RunSteady(s, steps)
    requires !Run(s, steps).bridge.active && Live(Run(s, steps), k).Some? && p in Live(Run(s, steps), k).value.safe
    ensures var w, start := Run(s, steps).worlds[k], StartOf(s, steps, k, p);
            var safe := Live(Run(s, steps), k).value.safe[p];
            start.Some? && (safe <= start.value || (p in w.committed && safe <= w.committed[p]))
  {
    SafeIsAccountedFor(s, steps, k, p);
    MutualExclusion(s, steps);
    assert StagedFor(Run(s, steps).bridge, k) == map[];
  }
}
