/** When the committed offset of a partition can go down: what every step does to it, and the runs in which it never
    does. */
module CommittedOffsets {
  import opened Basics
  import opened ConsumerGroup
  import D = Durability
  import opened Transactions
  import opened Runtime
  import opened RuntimeSafety
  import opened SafeOffsets
  import opened DurableRuns

  /** One partition of one group, with the fetch position of the live state. */
  datatype Standing = Standing(at: Option<nat>, fetch: Option<nat>, committed: Option<nat>, staged: Option<nat>,
                               touched: bool)

  function FetchOf(live: Option<Group>, p: nat): Option<nat> {
    if live.Some? then Get(live.value.fetch, p) else None
  }

  ghost function StandingOf(s: Sys, k: Key, p: nat): Standing {
    var v := ViewOf(s, k, p);
    Standing(v.at, FetchOf(Live(s, k), p), v.committed, v.staged, v.touched)
  }

  predicate AtMost(a: Option<nat>, b: Option<nat>) {
    a.Some? && b.Some? ==> a.value <= b.value
  }

  /** The committed offset is not past the safe position or, before there is one, the fetch position; and what is staged
      is the safe position of a group that the transaction has touched. */
  predicate Ordered(v: Standing) {
    && AtMost(v.committed, v.at)
    && (v.at.None? ==> AtMost(v.committed, v.fetch))
    && (v.staged.Some? ==> v.touched && v.at == v.staged)
  }

  /** What a step does to the partition when nothing is set, taken over or dropped from under the transaction. */
  predicate Climbs(v: Standing, v': Standing) {
    var same := v'.at == v.at && v'.committed == v.committed;
    var kept := v'.staged == v.staged && (v.touched ==> v'.touched);
    || (same && kept
        && (v.at.Some? || v'.fetch == v.fetch || AtMost(v.committed, v'.fetch)))       // nothing, or a seek
    || (v.at.None? && v'.at.Some? && v'.committed == v.committed && kept
        && AtMost(v.committed, v'.at))   // a first message
    || (v'.at.None? && v'.fetch.None? && v'.staged.None? && v'.committed == v.committed)            // dropped
    || (v.at.Some? && AtMost(v.at, v'.at) && v'.at.Some? && v'.committed == v'.at && v'.staged.None?)    // committed
    || (v.at.Some? && AtMost(v.at, v'.at) && v'.at.Some? && v'.committed == v.committed && v'.staged == v'.at
        && v'.touched)
    || (v'.at == v.at && v'.fetch == v.fetch && v'.staged.None? && v'.committed == if v.staged.Some? then v.staged
                                                                                   else v.committed)
    || (same && v'.fetch == v.fetch && v'.staged.None?)                                             // aborted
  }

  lemma ClimbsKeep(v: Standing, v': Standing)
    requires Ordered(v) && Climbs(v, v')
    ensures Ordered(v') && (v.committed.Some? ==> v'.committed.Some? && v.committed.value <= v'.committed.value)
  {
  }

  /** For this group: no other member commits, no position is set, and it is not dropped while something is staged for
      it unless the transaction ends with that. */
  ghost predicate Undropped(s: Sys, step: Step, k: Key) {
    match step
    case PeerCommitted(j, _, _, _, _) => j != k
    case Positioned(_, _, _, _) => !Repositions(s, step, k)
    case Recovered(j) => j == k ==> Clear(s, k)
    case ConsumedAndPublished(sid, j, t, outputs, tx) =>
      CanExecute(s, sid) && s.sessions[sid].active && !AttemptOk(s, sid, j, t, outputs, tx) ==>
        var a := Attempted(s, sid, j, t, outputs, tx);
        k in s.sessions[sid].touched + {j} && k !in LeftBy(tx.recovery) ==> Clear(a, k)
    case _ => true
  }

  // ------------------------------------------------------------ steps of one group

  lemma LiveKept(s: Sys, k: Key)
    requires Good(s) && Live(s, k).Some?
    ensures D.LiveOk(s.worlds[k], Live(s, k).value, D.Backing(s.worlds[k], TouchedBy(s.sessions, k)))
  {
    assert D.Kept(s.worlds[k], TouchedBy(s.sessions, k), StagedFor(s.bridge, k));
  }

  /** Steps that leave the transaction alone. */
  lemma OneGroup(s: Sys, step: Step, k: Key, p: nat)
    requires WorldStep(step)
    ensures var v, v' := StandingOf(s, k, p), StandingOf(Next(s, step), k, p);
            && v'.staged == v.staged && v'.touched == v.touched && (k != step.k ==> v' == v)
  {
    OneWorldOnly(s, step);
  }

  lemma DeliveredClimbs(s: Sys, step: Step, p: nat)
    requires step.Delivered? && Enabled(s, step) && Ordered(StandingOf(s, step.k, p))
    ensures Climbs(StandingOf(s, step.k, p), StandingOf(Next(s, step), step.k, p))
  {
    OneGroup(s, step, step.k, p);
    if Live(s, step.k).Some? {
      var g := Live(s, step.k).value;
      DeliverSafe(g, step.c, step.clock, step.expiresAt, step.decodable, step.minted, step.seekOk);
      DeliverFetch(g, step.c, step.clock, step.expiresAt, step.decodable, step.minted, step.seekOk);
      MessageClimbs(s, step, p,
                    Deliver(g, step.c, step.clock, step.expiresAt, step.decodable, step.minted, step.seekOk),
                    Next(s, step));
    }
  }

  lemma MessageClimbs(s: Sys, step: Step, p: nat, g': Group, s': Sys)
    requires step.Delivered? && Enabled(s, step) && Ordered(StandingOf(s, step.k, p)) && Live(s, step.k).Some?
    requires s' == WithLive(s, step.k, g')
    requires var g, c := Live(s, step.k).value, step.c;
             && (g'.safe == g.safe || g'.safe == g.safe[c.partition := SafeOr(g, c.partition, c.offset)])
             && (g'.fetch == g.fetch[c.partition := c.offset] || g'.fetch == g.fetch[c.partition := c.offset + 1])
    ensures Climbs(StandingOf(s, step.k, p), StandingOf(s', step.k, p))
  {
  }

  /** Rewinds, resumes and releases only seek where there is a safe position. */
  lemma SeekClimbs(s: Sys, s': Sys, k: Key, p: nat, g: Group, g': Group)
    requires Live(s, k) == Some(g) && s' == WithLive(s, k, g') && g'.safe == g.safe
    requires p in g.safe || Get(g'.fetch, p) == Get(g.fetch, p) || p !in g'.fetch
    ensures Climbs(StandingOf(s, k, p), StandingOf(s', k, p))
  {
  }

  lemma PollSeeks(s: Sys, step: Step, p: nat, w: D.World, g: Group, known: set<Coord>)
    requires D.LiveOk(w, g, known) && (step.Revoked? || step.Expired? || step.Resumed?)
    requires Live(s, step.k) == Some(g) && Enabled(s, step)
    ensures var g' := Polled(g, step);
            g'.safe == g.safe && (p in g.safe || Get(g'.fetch, p) == Get(g.fetch, p) || p !in g'.fetch)
  {
    if step.Expired? && p in step.rewind {
      RewindTargets(g, step.rewind);
      assert InflightSound(g, Coord(p, step.rewind[p]));
    }
  }

  lemma PollClimbs(s: Sys, step: Step, p: nat)
    requires Good(s) && Enabled(s, step) && (step.Revoked? || step.Expired? || step.Resumed?)
    ensures Climbs(StandingOf(s, step.k, p), StandingOf(Next(s, step), step.k, p))
  {
    var k := step.k;
    if Live(s, k).Some? {
      var g := Live(s, k).value;
      LiveKept(s, k);
      PollSeeks(s, step, p, s.worlds[k], g, D.Backing(s.worlds[k], TouchedBy(s.sessions, k)));
      SeekClimbs(s, Next(s, step), k, p, g, Polled(g, step));
    }
  }

  lemma AssignedClimbs(s: Sys, step: Step, p: nat)
    requires step.Assigned? && Enabled(s, step)
    ensures Climbs(StandingOf(s, step.k, p), StandingOf(Next(s, step), step.k, p))
  {
    OneGroup(s, step, step.k, p);
  }

  lemma PlainClimbs(s: Sys, step: Step, p: nat)
    requires step.Appended? || step.Truncated? || step.Joined? || step.Recovered?
    requires step.Recovered? ==> Clear(s, step.k)
    ensures Climbs(StandingOf(s, step.k, p), StandingOf(Next(s, step), step.k, p))
  {
    OneGroup(s, step, step.k, p);
  }

  // ------------------------------------------------------------ acknowledgements

  /** An accepted advance moves the safe position up; nothing else moves it, and the client stays where it is. */
  lemma AckClimbs(g: Group, t: Token, ok: bool, p: nat)
    requires Sound(g)
    ensures var g' := Ack(g, t, ok);
            && g'.fetch == g.fetch
            && (if p == t.coord.partition && AckOutcome(g, t, ok) == Accepted(true)
                then p in g.safe && g.safe[p] < Drained(g, t.coord).0 && Get(g'.safe, p) == Some(Drained(g, t.coord).0)
                else Get(g'.safe, p) == Get(g.safe, p))
  {
    AckMoves(g, t, ok, p);
    if AckOutcome(g, t, ok) == Accepted(true) { assert InflightSound(g, t.coord); }
  }

  /** A direct commit, by an acknowledgement or a dead letter. */
  lemma DirectClimbs(s: Sys, s': Sys, k: Key, w': D.World, t: Token, ok: bool, p: nat)
    requires Good(s) && Live(s, k).Some? && !TouchedBy(s.sessions, k) && Ordered(StandingOf(s, k, p))
    requires s' == WithWorld(s, k, w') && w'.live == Some(Ack(Live(s, k).value, t, ok))
    requires var w, g := s.worlds[k], Live(s, k).value;
             w'.committed == if AckOutcome(g, t, ok) == Accepted(true)
                             then w.committed[t.coord.partition := Drained(g, t.coord).0] else w.committed
    ensures Climbs(StandingOf(s, k, p), StandingOf(s', k, p))
  {
    LiveSound(s, k);
    AckClimbs(Live(s, k).value, t, ok, p);
  }

  lemma DirectNext(s: Sys, step: Step, w': D.World)
    requires step.Acknowledged? && CanExecute(s, step.sid) && !s.sessions[step.sid].active && Live(s, step.k).Some?
    requires w' == D.DirectAck(s.worlds[step.k], Live(s, step.k).value, step.t, step.brokerOk)
    ensures Next(s, step) == WithWorld(s, step.k, w')
    ensures w'.live == Some(Ack(Live(s, step.k).value, step.t, step.brokerOk))
    ensures var w, g := s.worlds[step.k], Live(s, step.k).value;
            w'.committed == if AckOutcome(g, step.t, step.brokerOk) == Accepted(true)
                            then w.committed[step.t.coord.partition := Drained(g, step.t.coord).0] else w.committed
  {
  }

  lemma DirectAckClimbs(s: Sys, step: Step, p: nat)
    requires Good(s) && Routed(s, step) && step.Acknowledged? && CanExecute(s, step.sid) && !s.sessions[step.sid].active
    requires Live(s, step.k).Some? && Ordered(StandingOf(s, step.k, p))
    ensures Climbs(StandingOf(s, step.k, p), StandingOf(Next(s, step), step.k, p))
  {
    var w' := D.DirectAck(s.worlds[step.k], Live(s, step.k).value, step.t, step.brokerOk);
    DirectNext(s, step, w');
    DirectClimbs(s, Next(s, step), step.k, w', step.t, step.brokerOk, p);
  }

  lemma NackClimbs(s: Sys, step: Step, p: nat)
    requires Good(s) && Routed(s, step) && step.NegativelyAcknowledged? && Ordered(StandingOf(s, step.k, p))
    ensures Climbs(StandingOf(s, step.k, p), StandingOf(Next(s, step), step.k, p))
  {
    var k := step.k;
    if CanExecute(s, step.sid) && !s.sessions[step.sid].active && Live(s, k).Some? {
      if NackOutcome(Live(s, k).value, step.t, step.policy, step.retryAfter, step.env).DeadLettered? {
        LetterClimbs(s, Next(s, step), step, k, p);
      } else {
        ReleaseClimbs(s, Next(s, step), step, k, p);
      }
    } else {
      assert Next(s, step) == s;
    }
  }

  lemma LetterClimbs(s: Sys, s': Sys, step: Step, k: Key, p: nat)
    requires Good(s) && Live(s, k).Some? && step.NegativelyAcknowledged? && !TouchedBy(s.sessions, k)
    requires Ordered(StandingOf(s, k, p))
    requires var g := Live(s, k).value;
             && NackOutcome(g, step.t, step.policy, step.retryAfter, step.env).DeadLettered?
             && s' == WithWorld(s, k,
                                D.Nacked(s.worlds[k], g, step.t, step.policy, step.retryAfter, step.clock, step.env))
    ensures Climbs(StandingOf(s, k, p), StandingOf(s', k, p))
  {
    var w' := D.Nacked(s.worlds[k], Live(s, k).value, step.t, step.policy, step.retryAfter, step.clock, step.env);
    LetterFields(s.worlds[k], Live(s, k).value, step, w');
    DirectClimbs(s, s', k, w', step.t, step.env.commitOk, p);
  }

  lemma LetterFields(w: D.World, g: Group, step: Step, w': D.World)
    requires step.NegativelyAcknowledged?
    requires NackOutcome(g, step.t, step.policy, step.retryAfter, step.env).DeadLettered?
    requires w' == D.Nacked(w, g, step.t, step.policy, step.retryAfter, step.clock, step.env)
    ensures w'.live == Some(Ack(g, step.t, step.env.commitOk))
    ensures w'.committed == if AckOutcome(g, step.t, step.env.commitOk) == Accepted(true)
                            then w.committed[step.t.coord.partition := Drained(g, step.t.coord).0] else w.committed
  {
  }

  lemma ReleaseClimbs(s: Sys, s': Sys, step: Step, k: Key, p: nat)
    requires Good(s) && Live(s, k).Some? && step.NegativelyAcknowledged?
    requires var g := Live(s, k).value;
             && !NackOutcome(g, step.t, step.policy, step.retryAfter, step.env).DeadLettered?
             && s' == WithWorld(s, k,
                                D.Nacked(s.worlds[k], g, step.t, step.policy, step.retryAfter, step.clock, step.env))
    ensures Climbs(StandingOf(s, k, p), StandingOf(s', k, p))
  {
    var g := Live(s, k).value;
    var g' := Nack(g, step.t, step.policy, step.retryAfter, step.clock, step.env);
    LiveSound(s, k);
    D.NackHasShape(g, step.t, step.policy, step.retryAfter, step.clock, step.env);
    if g' != g { assert InflightSound(g, step.t.coord); }
    SeekClimbs(s, s', k, p, g, g');
  }

  /** Through the bridge: the safe position and what is staged move up together, or neither moves. */
  predicate Together(s: Sys, s': Sys, k: Key, p: nat) {
    var at, at', staged' := SafeOf(Live(s, k), p), SafeOf(Live(s', k), p), Get(StagedFor(s'.bridge, k), p);
    at.Some? && at'.Some? && at.value <= at'.value && staged' == at'
  }

  predicate Unmoving(s: Sys, s': Sys, k: Key, p: nat) {
    Unmoved(s, s', k, p) && FetchOf(Live(s', k), p) == FetchOf(Live(s, k), p)
  }

  lemma TxAckClimbs(s: Sys, k: Key, t: Token, metadataOk: bool, j: Key, p: nat)
    requires BridgeOk(s.bridge) && s.bridge.active
    requires Live(s, k).Some? ==> Sound(Live(s, k).value)
    requires Get(StagedFor(s.bridge, j), p).Some? ==> SafeOf(Live(s, j), p) == Get(StagedFor(s.bridge, j), p)
    ensures var s' := TxAck(s, k, t, metadataOk);
            Unmoving(s, s', j, p) || (j == k && Together(s, s', j, p) && k in s'.worlds
                                      && t.coord in s'.worlds[k].pending)
  {
    if Live(s, k).Some? {
      var g := Live(s, k).value;
      var ok := StageOutcome(s.bridge, k, metadataOk).Staged?;
      TxAckBridge(s, k, t, metadataOk);
      AckClimbs(g, t, ok, p);
    }
  }

  lemma BridgedClimbs(s: Sys, s': Sys, sid: nat, k: Key, j: Key, p: nat)
    requires sid in s.sessions && s.sessions[sid].active && s'.sessions == Touch(s, sid, k).sessions
    requires s'.worlds.Keys == s.worlds.Keys && (j in s.worlds ==> s'.worlds[j].committed == s.worlds[j].committed)
    requires Unmoving(s, s', j, p) || (j == k && Together(s, s', j, p))
    ensures Climbs(StandingOf(s, j, p), StandingOf(s', j, p))
  {
    TouchGrows(s, sid, k);
  }

  lemma StagedAckClimbs(s: Sys, step: Step, k: Key, p: nat)
    requires Good(s) && step.Acknowledged? && CanExecute(s, step.sid) && s.sessions[step.sid].active
    requires Ordered(StandingOf(s, k, p))
    ensures Climbs(StandingOf(s, k, p), StandingOf(Next(s, step), k, p))
  {
    var touch := Touch(s, step.sid, step.k);
    if Live(s, step.k).Some? { LiveSound(s, step.k); }
    assert SomeActive(s.sessions);
    StagedNext(s, step, touch);
    TxAckMoves(touch, step.k, step.t, step.brokerOk, k, p);
    TxAckClimbs(touch, step.k, step.t, step.brokerOk, k, p);
    BridgedClimbs(s, TxAck(touch, step.k, step.t, step.brokerOk), step.sid, step.k, k, p);
  }

  lemma AcknowledgedClimbs(s: Sys, step: Step, k: Key, p: nat)
    requires Good(s) && Routed(s, step) && step.Acknowledged? && Ordered(StandingOf(s, k, p))
    ensures Climbs(StandingOf(s, k, p), StandingOf(Next(s, step), k, p))
  {
    if CanExecute(s, step.sid) && s.sessions[step.sid].active {
      StagedAckClimbs(s, step, k, p);
    } else if CanExecute(s, step.sid) && Live(s, step.k).Some? && k == step.k {
      DirectAckClimbs(s, step, p);
    } else {
      assert StandingOf(Next(s, step), k, p) == StandingOf(s, k, p);
    }
  }

  // ------------------------------------------------------------ the ends of a transaction

  lemma CommitClimbs(s: Sys, sid: nat, recovery: Recovery, k: Key, p: nat)
    requires Good(s) && InTx(s, sid) && Ordered(StandingOf(s, k, p))
    ensures Climbs(StandingOf(s, k, p), StandingOf(CommitSession(s, sid, true, recovery), k, p))
  {
    CommitTxMoves(s, k, p);
    if k in s.worlds { assert CommitSession(s, sid, true, recovery).worlds[k].live == s.worlds[k].live; }
  }

  lemma AbortClimbs(s: Sys, s': Sys, sid: nat, recovery: Recovery, k: Key, p: nat)
    requires Good(s) && InTx(s, sid)
    requires s'.worlds == Drop(AbortTx(s), sid, recovery) && s'.bridge == AbortTx(s).bridge
    ensures Climbs(StandingOf(s, k, p), StandingOf(s', k, p))
  {
    assert SomeActive(s.sessions) && s'.bridge == IDLE;
    assert Get(StagedFor(s'.bridge, k), p).None?;
    if k in s.worlds {
      assert s'.worlds[k].committed == s.worlds[k].committed;
      assert s'.worlds[k].live == if k in s.sessions[sid].touched - LeftBy(recovery) then None else s.worlds[k].live;
    }
  }

  lemma CommittedClimbs(s: Sys, step: Step, s': Sys, k: Key, p: nat)
    requires Good(s) && step.Committed? && step.commitOk && InTx(s, step.sid) && Ordered(StandingOf(s, k, p))
    requires s' == Next(s, step)
    ensures Climbs(StandingOf(s, k, p), StandingOf(s', k, p))
  {
    assert s' == CommitSession(s, step.sid, true, step.recovery);
    CommitClimbs(s, step.sid, step.recovery, k, p);
  }

  lemma FailedEndClimbs(s: Sys, step: Step, s': Sys, k: Key, p: nat)
    requires Good(s) && ((step.Committed? && !step.commitOk) || step.RolledBack? || step.Closed?) && InTx(s, step.sid)
    requires s' == Next(s, step)
    ensures Climbs(StandingOf(s, k, p), StandingOf(s', k, p))
  {
    EndDrops(s, step);
    AbortClimbs(s, s', step.sid, step.recovery, k, p);
  }

  lemma EndClimbs(s: Sys, step: Step, k: Key, p: nat)
    requires Good(s) && (step.Committed? || step.RolledBack? || step.Closed?) && Ordered(StandingOf(s, k, p))
    ensures Climbs(StandingOf(s, k, p), StandingOf(Next(s, step), k, p))
  {
    if !InTx(s, step.sid) {
      NoEndClimbs(s, step, k, p);
    } else if step.Committed? && step.commitOk {
      CommittedClimbs(s, step, Next(s, step), k, p);
    } else {
      FailedEndClimbs(s, step, Next(s, step), k, p);
    }
  }

  lemma EndDrops(s: Sys, step: Step)
    requires ((step.Committed? && !step.commitOk) || step.RolledBack? || step.Closed?) && InTx(s, step.sid)
    ensures Next(s, step).worlds == Drop(AbortTx(s), step.sid, step.recovery)
    ensures Next(s, step).bridge == AbortTx(s).bridge
  {
  }

  lemma NoEndClimbs(s: Sys, step: Step, k: Key, p: nat)
    requires (step.Committed? || step.RolledBack? || step.Closed?) && !InTx(s, step.sid)
    ensures Climbs(StandingOf(s, k, p), StandingOf(Next(s, step), k, p))
  {
    var s' := Next(s, step);
    if s' != s {
      StillTouched(s.sessions, step.sid, s.sessions[step.sid].(closed := true), k);
      assert s'.worlds == s.worlds && s'.bridge == s.bridge;
    }
  }

  // ------------------------------------------------------------ consume-publish

  lemma AttemptClimbs(s: Sys, sid: nat, k: Key, t: Token, outputs: seq<Event>, tx: TxEnv, j: Key, p: nat)
    requires Good(s) && sid in s.sessions && (s.sessions[sid].active || OpensOwn(s, sid, tx))
    requires Ordered(StandingOf(s, j, p))
    ensures var a := Attempted(s, sid, k, t, outputs, tx);
            Unmoving(s, a, j, p) || (j == k && Together(s, a, j, p) && k in a.worlds && t.coord in a.worlds[k].pending)
  {
    var begun := if s.sessions[sid].active then s else s.(bridge := Begin(s.bridge, tx.beginOk));
    var produced := Produce(Touch(begun, sid, k), outputs, tx.produced);
    if Live(s, k).Some? { LiveSound(s, k); }
    assert s.sessions[sid].active ==> SomeActive(s.sessions);
    assert Unmoving(s, produced, j, p);
    if tx.produced >= |outputs| { TxAckClimbs(produced, k, t, tx.metadataOk, j, p); }
  }

  lemma ForgetClimbs(s: Sys, a: Sys, sid: nat, k: Key, recovery: Recovery, j: Key, p: nat)
    requires Good(s) && sid in s.sessions && s.sessions[sid].active && a.sessions == Touch(s, sid, k).sessions
    requires a.worlds.Keys == s.worlds.Keys && (j in s.worlds ==> a.worlds[j].committed == s.worlds[j].committed)
    requires Unmoving(s, a, j, p) || (j == k && Together(s, a, j, p))
    requires j in s.sessions[sid].touched + {k} && j !in LeftBy(recovery) ==> Clear(a, j)
    ensures Climbs(StandingOf(s, j, p), StandingOf(Forget(a, sid, recovery), j, p))
  {
    var f := Forget(a, sid, recovery);
    assert a.sessions[sid].touched == s.sessions[sid].touched + {k};
    if j in a.sessions[sid].touched - LeftBy(recovery) {
      assert Live(f, j).None?;
    } else {
      assert Live(f, j) == Live(a, j) && (j in s.worlds ==> f.worlds[j].committed == s.worlds[j].committed);
      OnlyTouched(s, sid);
      SameActivity(s.sessions, sid, f.sessions[sid]);
      assert f.sessions == s.sessions[sid := f.sessions[sid]];
      OnlyTouched(f, sid);
    }
  }

  lemma InnerClimbs(s: Sys, step: Step, k: Key, p: nat)
    requires Good(s) && step.ConsumedAndPublished? && CanExecute(s, step.sid) && s.sessions[step.sid].active
    requires Undropped(s, step, k) && Ordered(StandingOf(s, k, p))
    ensures Climbs(StandingOf(s, k, p), StandingOf(Next(s, step), k, p))
  {
    var a := Attempted(s, step.sid, step.k, step.t, step.outputs, step.tx);
    AttemptedMoves(s, step.sid, step.k, step.t, step.outputs, step.tx, k, p);
    AttemptClimbs(s, step.sid, step.k, step.t, step.outputs, step.tx, k, p);
    InnerNext(s, step, a);
    if AttemptOk(s, step.sid, step.k, step.t, step.outputs, step.tx) {
      BridgedClimbs(s, a, step.sid, step.k, k, p);
    } else {
      ForgetClimbs(s, a, step.sid, step.k, step.tx.recovery, k, p);
    }
  }

  lemma OwnCommitClimbs(s: Sys, a: Sys, sid: nat, k: Key, j: Key, p: nat)
    requires Good(s) && sid in s.sessions && !s.bridge.active && BridgeOk(a.bridge)
    requires a.worlds.Keys == s.worlds.Keys && (j in s.worlds ==> a.worlds[j].committed == s.worlds[j].committed)
    requires Unmoving(s, a, j, p) || (j == k && Together(s, a, j, p))
    requires a.sessions == Touch(s, sid, k).sessions
    ensures Climbs(StandingOf(s, j, p), StandingOf(Untouch(CommitTx(a), sid), j, p))
  {
    NoneTouched(s.sessions);
    CommitTxMoves(a, j, p);
    assert Live(CommitTx(a), j) == Live(a, j);
  }

  lemma OwnAbortClimbs(s: Sys, a: Sys, sid: nat, k: Key, t: Token, recovery: Recovery, j: Key, p: nat)
    requires Good(s) && sid in s.sessions && !s.bridge.active && a.bridge.active && Harmless(a, LeftBy(recovery))
    requires a.worlds.Keys == s.worlds.Keys && (j in s.worlds ==> a.worlds[j].committed == s.worlds[j].committed)
    requires a.sessions == Touch(s, sid, k).sessions
    requires Unmoving(s, a, j, p) || (j == k && Together(s, a, j, p) && k in a.worlds && t.coord in a.worlds[k].pending)
    ensures Climbs(StandingOf(s, j, p), StandingOf(Forget(AbortTx(a), sid, recovery), j, p))
  {
    var f := Forget(AbortTx(a), sid, recovery);
    assert Get(StagedFor(f.bridge, j), p).None?;
    if j in s.worlds {
      assert f.worlds[j].committed == s.worlds[j].committed;
      assert f.worlds[j].live == if j in a.sessions[sid].touched - LeftBy(recovery) then None else a.worlds[j].live;
    }
  }

  lemma OwnClimbs(s: Sys, step: Step, k: Key, p: nat)
    requires Good(s) && Routed(s, step) && step.ConsumedAndPublished? && Ordered(StandingOf(s, k, p))
    requires CanExecute(s, step.sid) && OpensOwn(s, step.sid, step.tx)
    ensures Climbs(StandingOf(s, k, p), StandingOf(Next(s, step), k, p))
  {
    var a := Attempted(s, step.sid, step.k, step.t, step.outputs, step.tx);
    AttemptedMoves(s, step.sid, step.k, step.t, step.outputs, step.tx, k, p);
    AttemptClimbs(s, step.sid, step.k, step.t, step.outputs, step.tx, k, p);
    if AttemptOk(s, step.sid, step.k, step.t, step.outputs, step.tx) && step.tx.commitOk {
      OwnCommitClimbs(s, a, step.sid, step.k, k, p);
      assert Next(s, step) == Untouch(CommitTx(a), step.sid);
    } else {
      var recovery := OwnRecovery(s, step.sid, step.k, step.t, step.outputs, step.tx);
      OwnAbortClimbs(s, a, step.sid, step.k, step.t, recovery, k, p);
      assert Next(s, step) == Forget(AbortTx(a), step.sid, recovery);
    }
  }

  // ------------------------------------------------------------ every step, every run

  lemma WorldStepClimbs(s: Sys, step: Step, k: Key, p: nat)
    requires Good(s) && Enabled(s, step) && Routed(s, step) && Undropped(s, step, k) && WorldStep(step)
    requires Ordered(StandingOf(s, k, p))
    ensures Climbs(StandingOf(s, k, p), StandingOf(Next(s, step), k, p))
  {
    OneGroup(s, step, k, p);
    if k == step.k {
      if step.Delivered? { DeliveredClimbs(s, step, p); }
      else if step.Revoked? || step.Expired? || step.Resumed? { PollClimbs(s, step, p); }
      else if step.Assigned? { AssignedClimbs(s, step, p); }
      else if step.NegativelyAcknowledged? { NackClimbs(s, step, p); }
      else if step.Positioned? { UnpositionedClimbs(s, step, p); }
      else { PlainClimbs(s, step, p); }
    }
  }

  lemma UnpositionedClimbs(s: Sys, step: Step, p: nat)
    requires step.Positioned? && !Repositions(s, step, step.k)
    ensures Climbs(StandingOf(s, step.k, p), StandingOf(Next(s, step), step.k, p))
  {
    OneGroup(s, step, step.k, p);
  }

  lemma SessionClimbs(s: Sys, step: Step, k: Key, p: nat)
    requires Good(s) && (step.Opened? || step.Began? || step.Published?)
    ensures Climbs(StandingOf(s, k, p), StandingOf(Next(s, step), k, p))
  {
    if step.Opened? { OpenedClimbs(s, step, k, p); }
    else if step.Began? { BeganClimbs(s, step, k, p); }
    else { PublishedClimbs(s, step, k, p); }
  }

  lemma OpenedClimbs(s: Sys, step: Step, k: Key, p: nat)
    requires step.Opened?
    ensures Climbs(StandingOf(s, k, p), StandingOf(Next(s, step), k, p))
  {
    if step.sid !in s.sessions {
      StillTouched(s.sessions, step.sid, Session(step.transactional, false, false, {}), k);
    }
  }

  lemma BeganClimbs(s: Sys, step: Step, k: Key, p: nat)
    requires Good(s) && step.Began?
    ensures Climbs(StandingOf(s, k, p), StandingOf(Next(s, step), k, p))
  {
    if Next(s, step) != s { NoneTouched(s.sessions); }
  }

  lemma PublishedClimbs(s: Sys, step: Step, k: Key, p: nat)
    requires step.Published?
    ensures StandingOf(Next(s, step), k, p) == StandingOf(s, k, p)
  {
    var s' := Next(s, step);
    assert s'.worlds == s.worlds && s'.bridge == s.bridge && s'.sessions == s.sessions;
  }

  lemma NextClimbs(s: Sys, step: Step, k: Key, p: nat)
    requires Good(s) && Enabled(s, step) && Routed(s, step) && Undropped(s, step, k) && Ordered(StandingOf(s, k, p))
    ensures Climbs(StandingOf(s, k, p), StandingOf(Next(s, step), k, p))
  {
    if WorldStep(step) { WorldStepClimbs(s, step, k, p); }
    else if step.Committed? || step.RolledBack? || step.Closed? { EndClimbs(s, step, k, p); }
    else if step.ConsumedAndPublished? { ConsumePublishClimbs(s, step, k, p); }
    else if step.Acknowledged? { AcknowledgedClimbs(s, step, k, p); }
    else { SessionClimbs(s, step, k, p); }
  }

  lemma ConsumePublishClimbs(s: Sys, step: Step, k: Key, p: nat)
    requires Good(s) && Routed(s, step) && Undropped(s, step, k) && step.ConsumedAndPublished?
    requires Ordered(StandingOf(s, k, p))
    ensures Climbs(StandingOf(s, k, p), StandingOf(Next(s, step), k, p))
  {
    if CanExecute(s, step.sid) && s.sessions[step.sid].active {
      InnerClimbs(s, step, k, p);
    } else if CanExecute(s, step.sid) && OpensOwn(s, step.sid, step.tx) {
      OwnClimbs(s, step, k, p);
    } else {
      assert Next(s, step) == s;
    }
  }

  ghost predicate RunUndropped(s: Sys, steps: seq<Step>, k: Key) {
    forall i :: 0 <= i < |steps| ==> Undropped(Run(s, steps[..i]), steps[i], k)
  }

  lemma Prefixes(s: Sys, steps: seq<Step>, n: nat, k: Key)
    requires RunAllowed(s, steps) && RunRouted(s, steps) && RunUndropped(s, steps, k) && n <= |steps|
    ensures RunAllowed(s, steps[..n]) && RunRouted(s, steps[..n]) && RunUndropped(s, steps[..n], k)
  {
    var rest := steps[..n];
    forall i | 0 <= i < n
      ensures Enabled(Run(s, rest[..i]), rest[i]) && Routed(Run(s, rest[..i]), rest[i])
      ensures Undropped(Run(s, rest[..i]), rest[i], k)
    {
      assert rest[..i] == steps[..i] && rest[i] == steps[i];
    }
  }

  lemma StepOf(s: Sys, steps: seq<Step>, n: nat, k: Key)
    requires RunAllowed(s, steps) && RunRouted(s, steps) && RunUndropped(s, steps, k) && n < |steps|
    ensures var mid := Run(s, steps[..n]);
            && Enabled(mid, steps[n]) && Routed(mid, steps[n]) && Undropped(mid, steps[n], k)
            && Run(s, steps[..n + 1]) == Next(mid, steps[n])
  {
    var more := steps[..n + 1];
    assert more[..|more| - 1] == steps[..n];
  }

  lemma {:induction false} RunOrdered(s: Sys, steps: seq<Step>, n: nat, k: Key, p: nat)
    requires Init(s) && RunAllowed(s, steps) && RunRouted(s, steps) && RunUndropped(s, steps, k) && n <= |steps|
    ensures Ordered(StandingOf(Run(s, steps[..n]), k, p))
  {
    if n > 0 {
      RunOrdered(s, steps, n - 1, k, p);
      OrderedAfter(s, steps, n - 1, k, p);
    }
  }

  lemma OrderedAfter(s: Sys, steps: seq<Step>, n: nat, k: Key, p: nat)
    requires Init(s) && RunAllowed(s, steps) && RunRouted(s, steps) && RunUndropped(s, steps, k) && n < |steps|
    requires Ordered(StandingOf(Run(s, steps[..n]), k, p))
    ensures Ordered(StandingOf(Run(s, steps[..n + 1]), k, p))
  {
    RunGoodAt(s, steps, n, k);
    StepOf(s, steps, n, k);
    NextOrdered(Run(s, steps[..n]), steps[n], Run(s, steps[..n + 1]), k, p);
  }

  lemma RunGoodAt(s: Sys, steps: seq<Step>, n: nat, k: Key)
    requires Init(s) && RunAllowed(s, steps) && RunRouted(s, steps) && RunUndropped(s, steps, k) && n <= |steps|
    ensures Good(Run(s, steps[..n]))
  {
    Prefixes(s, steps, n, k);
    RunGood(s, steps[..n]);
  }

  lemma NextOrdered(s: Sys, step: Step, s': Sys, k: Key, p: nat)
    requires Good(s) && Enabled(s, step) && Routed(s, step) && Undropped(s, step, k) && Ordered(StandingOf(s, k, p))
    requires s' == Next(s, step)
    ensures Ordered(StandingOf(s', k, p))
  {
    NextClimbs(s, step, k, p);
    ClimbsKeep(StandingOf(s, k, p), StandingOf(s', k, p));
  }

  predicate CommittedAtLeast(s: Sys, k: Key, p: nat, offset: nat) {
    k in s.worlds && p in s.worlds[k].committed && offset <= s.worlds[k].committed[p]
  }

  ghost predicate Up(s: Sys, s': Sys, k: Key, p: nat) {
    forall offset :: CommittedAtLeast(s, k, p, offset) ==> CommittedAtLeast(s', k, p, offset)
  }

  ghost predicate StaysUp(s: Sys, steps: seq<Step>, n: nat, k: Key, p: nat)
    requires n < |steps|
  {
    Up(Run(s, steps[..n]), Run(s, steps[..n + 1]), k, p)
  }

  lemma {:induction false} StaysUpFrom(s: Sys, steps: seq<Step>, i: nat, j: nat, k: Key, p: nat, offset: nat)
    requires i <= j <= |steps| && forall n :: i <= n < j ==> StaysUp(s, steps, n, k, p)
    requires CommittedAtLeast(Run(s, steps[..i]), k, p, offset)
    ensures CommittedAtLeast(Run(s, steps[..j]), k, p, offset)
    decreases j
  {
    if i < j {
      StaysUpFrom(s, steps, i, j - 1, k, p, offset);
      assert StaysUp(s, steps, j - 1, k, p);
    }
  }

  /** In such a run the committed offset never goes down. */
  lemma CommittedNeverFalls(s: Sys, steps: seq<Step>, i: nat, j: nat, k: Key, p: nat, offset: nat)
    requires Init(s) && RunAllowed(s, steps) && RunRouted(s, steps) && RunUndropped(s, steps, k) && i <= j <= |steps|
    requires CommittedAtLeast(Run(s, steps[..i]), k, p, offset)
    ensures CommittedAtLeast(Run(s, steps[..j]), k, p, offset)
  {
    forall n | i <= n < j ensures StaysUp(s, steps, n, k, p) {
      RunClimbs(s, steps, n, k, p);
      StillUp(Run(s, steps[..n]), Run(s, steps[..n + 1]), k, p);
    }
    StaysUpFrom(s, steps, i, j, k, p, offset);
  }

  lemma RunClimbs(s: Sys, steps: seq<Step>, n: nat, k: Key, p: nat)
    requires Init(s) && RunAllowed(s, steps) && RunRouted(s, steps) && RunUndropped(s, steps, k) && n < |steps|
    ensures var v, v' := StandingOf(Run(s, steps[..n]), k, p), StandingOf(Run(s, steps[..n + 1]), k, p);
            Ordered(v) && Climbs(v, v')
  {
    RunOrdered(s, steps, n, k, p);
    RunGoodAt(s, steps, n, k);
    StepOf(s, steps, n, k);
    NextClimbs(Run(s, steps[..n]), steps[n], k, p);
  }

  lemma StillUp(s: Sys, s': Sys, k: Key, p: nat)
    requires Ordered(StandingOf(s, k, p)) && Climbs(StandingOf(s, k, p), StandingOf(s', k, p))
    ensures Up(s, s', k, p)
  {
    ClimbsKeep(StandingOf(s, k, p), StandingOf(s', k, p));
  }

  // ------------------------------------------------------------ which steps lower it

  /** What an accepted acknowledgement of a live state commits. */
  function Advance(live: Option<Group>, t: Token, ok: bool): map<nat, nat> {
    if live.Some? && AckOutcome(live.value, t, ok) == Accepted(true)
    then map[t.coord.partition := Drained(live.value, t.coord).0] else map[]
  }

  /** The offsets of a group that a step makes the broker commit. */
  ghost function Sets(s: Sys, step: Step, k: Key): map<nat, nat> {
    match step
    case Positioned(_, _, target, _) => if Repositions(s, step, k) then target else map[]
    case PeerCommitted(j, p, _, end, _) => if j == k then map[p := end] else map[]
    case Committed(sid, commitOk, _) => if InTx(s, sid) && commitOk then StagedFor(s.bridge, k) else map[]
    case Acknowledged(sid, j, t, ok) =>
      if j == k && CanExecute(s, sid) && !s.sessions[sid].active then Advance(Live(s, k), t, ok) else map[]
    case NegativelyAcknowledged(sid, j, t, policy, retryAfter, _, env) =>
      if j == k && CanExecute(s, sid) && !s.sessions[sid].active && Live(s, k).Some?
         && NackOutcome(Live(s, k).value, t, policy, retryAfter, env).DeadLettered?
      then Advance(Live(s, k), t, env.commitOk) else map[]
    case ConsumedAndPublished(sid, j, t, _, _) =>
      if j == k && CanExecute(s, sid) && !s.sessions[sid].active && OwnCommits(s, step)
      then Advance(Live(s, k), t, true)
      else map[]
    case _ => map[]
  }

  /** The step commits those offsets and leaves all others of the group as they are. */
  ghost predicate Exactly(s: Sys, s': Sys, k: Key, sets: map<nat, nat>) {
    k in s.worlds ==> k in s'.worlds && s'.worlds[k].committed == s.worlds[k].committed + sets
  }

  lemma PlusNothing(m: map<nat, nat>)
    ensures m + map[] == m && forall p: nat, o: nat :: m + map[p := o] == m[p := o]
  {
  }

  lemma OwnSets(s: Sys, step: Step, k: Key)
    requires Good(s) && step.ConsumedAndPublished? && CanExecute(s, step.sid) && !s.sessions[step.sid].active
    ensures Exactly(s, Next(s, step), k, Sets(s, step, k))
  {
    if k in s.worlds {
      PlusNothing(s.worlds[k].committed);
      if step.k !in s.worlds {
        NoGroup(s, step, k);
      } else if OwnCommits(s, step) {
        OwnCommitSets(s, step, k);
      } else {
        OwnFailed(s, step);
      }
    }
  }

  lemma OwnCommitSets(s: Sys, step: Step, k: Key)
    requires Good(s) && step.ConsumedAndPublished? && CanExecute(s, step.sid) && !s.sessions[step.sid].active
    requires k in s.worlds && step.k in s.worlds && OwnCommits(s, step)
    ensures k in Next(s, step).worlds
    ensures Next(s, step).worlds[k].committed ==
            s.worlds[k].committed + if k == step.k then Advance(Live(s, k), step.t, true) else map[]
  {
    PlusNothing(s.worlds[k].committed);
    OwnCommitted(s, step);
    OwnAdvance(s, step);
  }

  lemma OwnAdvance(s: Sys, step: Step)
    requires step.ConsumedAndPublished? && step.sid in s.sessions && !s.sessions[step.sid].active && OwnCommits(s, step)
    ensures Live(s, step.k).Some?
    ensures Advance(Live(s, step.k), step.t, true) ==
            if Advances(Live(s, step.k).value, step.t.coord)
            then map[step.t.coord.partition := Drained(Live(s, step.k).value, step.t.coord).0] else map[]
  {
    OwnAccepts(s, step);
  }

  lemma OwnAccepts(s: Sys, step: Step)
    requires step.ConsumedAndPublished? && step.sid in s.sessions && !s.sessions[step.sid].active && OwnCommits(s, step)
    ensures Live(s, step.k).Some?
    ensures AckOutcome(Live(s, step.k).value, step.t, true).Accepted?
    ensures AckOutcome(Live(s, step.k).value, step.t, true) == Accepted(Advances(Live(s, step.k).value, step.t.coord))
  {
    var begun := s.(bridge := Begin(s.bridge, step.tx.beginOk));
    assert Live(begun, step.k) == Live(s, step.k);
  }

  /** A consume-publish for a group that is not there commits nothing. */
  lemma NoGroup(s: Sys, step: Step, k: Key)
    requires Good(s) && step.ConsumedAndPublished? && step.k !in s.worlds && k in s.worlds
    requires CanExecute(s, step.sid) && !s.sessions[step.sid].active
    ensures !OwnCommits(s, step) && k in Next(s, step).worlds
    ensures Next(s, step).worlds[k].committed == s.worlds[k].committed
  {
    if OpensOwn(s, step.sid, step.tx) {
      AttemptedMoves(s, step.sid, step.k, step.t, step.outputs, step.tx, k, 0);
    }
  }

  lemma InnerSets(s: Sys, step: Step, k: Key)
    requires Good(s) && step.ConsumedAndPublished? && (CanExecute(s, step.sid) ==> s.sessions[step.sid].active)
    ensures Exactly(s, Next(s, step), k, map[])
  {
    if k in s.worlds { PlusNothing(s.worlds[k].committed); }
    if CanExecute(s, step.sid) {
      var a := Attempted(s, step.sid, step.k, step.t, step.outputs, step.tx);
      AttemptedMoves(s, step.sid, step.k, step.t, step.outputs, step.tx, k, 0);
      InnerNext(s, step, a);
      ForgetSets(a, step.sid, step.tx.recovery, k);
    }
  }

  lemma ForgetSets(a: Sys, sid: nat, recovery: Recovery, k: Key)
    requires sid in a.sessions
    ensures k in a.worlds ==> k in Forget(a, sid, recovery).worlds
                              && Forget(a, sid, recovery).worlds[k].committed == a.worlds[k].committed
  {
  }

  lemma StagedAckSets(s: Sys, step: Step, k: Key)
    requires Good(s) && step.Acknowledged? && CanExecute(s, step.sid) && s.sessions[step.sid].active
    ensures Exactly(s, Next(s, step), k, map[])
  {
    if k in s.worlds { PlusNothing(s.worlds[k].committed); }
    if Live(s, step.k).Some? { LiveSound(s, step.k); }
    assert SomeActive(s.sessions);
    TxAckMoves(Touch(s, step.sid, step.k), step.k, step.t, step.brokerOk, k, 0);
  }

  lemma DirectAckSets(s: Sys, step: Step, k: Key)
    requires step.Acknowledged? && CanExecute(s, step.sid) && !s.sessions[step.sid].active && Live(s, step.k).Some?
    ensures Exactly(s, Next(s, step), k, Sets(s, step, k))
  {
    if k in s.worlds { PlusNothing(s.worlds[k].committed); }
    assert Next(s, step) == WithWorld(s, step.k,
                                      D.DirectAck(s.worlds[step.k], Live(s, step.k).value, step.t, step.brokerOk));
  }

  lemma AckSets(s: Sys, step: Step, k: Key)
    requires Good(s) && step.Acknowledged?
    ensures Exactly(s, Next(s, step), k, Sets(s, step, k))
  {
    if CanExecute(s, step.sid) && s.sessions[step.sid].active {
      StagedAckSets(s, step, k);
    } else if CanExecute(s, step.sid) && Live(s, step.k).Some? {
      DirectAckSets(s, step, k);
    } else {
      assert Next(s, step) == s;
      if k in s.worlds { PlusNothing(s.worlds[k].committed); }
    }
  }

  lemma NackSets(s: Sys, step: Step, k: Key)
    requires step.NegativelyAcknowledged?
    ensures Exactly(s, Next(s, step), k, Sets(s, step, k))
  {
    if k in s.worlds { PlusNothing(s.worlds[k].committed); }
    OneWorldOnly(s, step);
  }

  lemma WorldStepSets(s: Sys, step: Step, k: Key)
    requires WorldStep(step) && !step.NegativelyAcknowledged?
    ensures Exactly(s, Next(s, step), k, Sets(s, step, k))
  {
    if k in s.worlds { PlusNothing(s.worlds[k].committed); }
    OneWorldOnly(s, step);
  }

  lemma CommitSets(s: Sys, sid: nat, recovery: Recovery, k: Key)
    requires InTx(s, sid)
    ensures Exactly(s, CommitSession(s, sid, true, recovery), k, StagedFor(s.bridge, k))
  {
  }

  lemma EndSets(s: Sys, step: Step, k: Key)
    requires step.Committed? || step.RolledBack? || step.Closed?
    ensures Exactly(s, Next(s, step), k, Sets(s, step, k))
  {
    if k in s.worlds { PlusNothing(s.worlds[k].committed); }
    if step.Committed? && InTx(s, step.sid) && step.commitOk {
      CommitSets(s, step.sid, step.recovery, k);
    } else if k in s.worlds {
      AbortSets(s, step, k);
    }
  }

  lemma AbortSets(s: Sys, step: Step, k: Key)
    requires k in s.worlds
    requires (step.RolledBack? || step.Closed? || (step.Committed? && !(InTx(s, step.sid) && step.commitOk)))
    ensures k in Next(s, step).worlds && Next(s, step).worlds[k].committed == s.worlds[k].committed
  {
    if InTx(s, step.sid) {
      EndDrops(s, step);
      DropSets(s, step.sid, step.recovery, k);
    } else {
      NoEndSets(s, step);
    }
  }

  lemma NoEndSets(s: Sys, step: Step)
    requires (step.Committed? || step.RolledBack? || step.Closed?) && !InTx(s, step.sid)
    ensures Next(s, step).worlds == s.worlds
  {
  }

  lemma DropSets(s: Sys, sid: nat, recovery: Recovery, k: Key)
    requires k in s.worlds && sid in s.sessions
    ensures var worlds := Drop(AbortTx(s), sid, recovery);
            k in worlds && worlds[k].committed == s.worlds[k].committed
  {
  }

  /** Every step makes the broker commit exactly those offsets of a group. */
  lemma SetsExactly(s: Sys, step: Step, k: Key)
    requires Good(s)
    ensures Exactly(s, Next(s, step), k, Sets(s, step, k))
  {
    if step.NegativelyAcknowledged? { NackSets(s, step, k); }
    else if WorldStep(step) { WorldStepSets(s, step, k); }
    else if step.Committed? || step.RolledBack? || step.Closed? { EndSets(s, step, k); }
    else if step.Acknowledged? { AckSets(s, step, k); }
    else if step.ConsumedAndPublished? {
      if CanExecute(s, step.sid) && !s.sessions[step.sid].active { OwnSets(s, step, k); }
      else { InnerSets(s, step, k); }
    }
    else if k in s.worlds { PlusNothing(s.worlds[k].committed); }
  }

  /** A step takes the committed offset of a partition back iff it is one of those that commit, and what it commits is
      lower: a position that is set, the offset of another member, what a transaction has staged, or where an
      acknowledgement has brought a safe position that was behind. */
  lemma LowersIff(s: Sys, step: Step, k: Key, p: nat)
    requires Good(s) && k in s.worlds && p in s.worlds[k].committed
    ensures var s', sets := Next(s, step), Sets(s, step, k);
            && k in s'.worlds && p in s'.worlds[k].committed
            && (s'.worlds[k].committed[p] < s.worlds[k].committed[p] <==>
                p in sets && sets[p] < s.worlds[k].committed[p])
  {
    SetsExactly(s, step, k);
  }
}
