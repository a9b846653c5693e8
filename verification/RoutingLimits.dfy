/** Why the routing conditions are there: each fails on concrete calls, and exactly when it is broken. */
module RoutingLimits {
  import opened Basics
  import opened ConsumerGroup
  import D = Durability
  import opened Transactions
  import opened Runtime
  import opened RuntimeSafety

  /** The broker's side of a group and what was resolved in it. */
  ghost predicate SameRecord(w: D.World, w': D.World) {
    && w'.records == w.records && w'.base == w.base && w'.committed == w.committed
    && D.Resolved(w') == D.Resolved(w)
  }

  /** The direct commit passes over a record that was acknowledged only inside the open transaction. */
  ghost predicate PassesPending(w: D.World, p: nat, end: nat, c: Coord)
    requires p in w.base
  {
    exists x :: x in w.pending && x in w.records && x.partition == p && w.base[p] <= x.offset < end
                && x !in D.Resolved(w) && x != c
  }

  lemma MixedWorld(w: D.World, w': D.World, g: Group, t: Token, touched: bool, staged: map<nat, nat>)
    requires w.live == Some(g) && D.Kept(w, touched, staged) && Current(g, t) && Advances(g, t.coord)
    requires SameRecord(D.DirectAck(w, g, t, true), w')
    ensures var p, end := t.coord.partition, Drained(g, t.coord).0;
            p in w.base && (D.Durable(w') <==> !PassesPending(w, p, end, t.coord))
  {
    var p, end, known := t.coord.partition, Drained(g, t.coord).0, D.Backing(w, touched);
    D.DrainReaches(w, g, t, known);
    CoveredMeaning(w, w', p, end, known + {t.coord}, t.coord);
    forall q | q in w.committed && q != p ensures q in w'.base && D.Covered(w', q, w'.committed[q], D.Resolved(w')) {
      assert D.Reaches(w, q, w.committed[q], D.Resolved(w));
    }
    assert D.Durable(w') <==> D.Covered(w', p, w'.committed[p], D.Resolved(w'));
  }

  lemma CoveredMeaning(w: D.World, w': D.World, p: nat, end: nat, known: set<Coord>, c: Coord)
    requires w'.records == w.records && w'.base == w.base && D.Resolved(w') == D.Resolved(w) + {c}
    requires D.Reaches(w, p, end, known) && known <= D.Resolved(w) + w.pending + {c}
    ensures D.Covered(w', p, end, D.Resolved(w')) <==> !PassesPending(w, p, end, c)
  {
    if PassesPending(w, p, end, c) {
      var x :| x in w.pending && x in w.records && x.partition == p && w.base[p] <= x.offset < end
               && x !in D.Resolved(w) && x != c;
      assert x == Coord(p, x.offset);
    }
  }

  /** A step outside any transaction that resolves a delivery and commits the advance: an acknowledgement, or a dead
      letter. */
  predicate DirectlyCommits(s: Sys, step: Step, k: Key, t: Token) {
    && (step.Acknowledged? || step.NegativelyAcknowledged?) && step.k == k && step.t == t
    && CanExecute(s, step.sid) && !s.sessions[step.sid].active && Live(s, k).Some?
    && match step
       case Acknowledged(_, _, _, ok) => AckOutcome(Live(s, k).value, t, ok) == Accepted(true)
       case NegativelyAcknowledged(_, _, _, policy, retryAfter, _, env) =>
         NackOutcome(Live(s, k).value, t, policy, retryAfter, env) == DeadLettered(Accepted(true))
       case _ => false
  }

  lemma DirectStep(s: Sys, step: Step, k: Key, t: Token) returns (w': D.World)
    requires DirectlyCommits(s, step, k, t)
    ensures Next(s, step) == WithWorld(s, k, w')
    ensures SameRecord(D.DirectAck(s.worlds[k], Live(s, k).value, t, true), w')
    ensures Current(Live(s, k).value, t) && Advances(Live(s, k).value, t.coord)
  {
    var w, g := s.worlds[k], Live(s, k).value;
    if step.Acknowledged? {
      w' := D.DirectAck(w, g, t, step.brokerOk);
    } else {
      w' := D.Nacked(w, g, t, step.policy, step.retryAfter, step.clock, step.env);
      assert D.Resolved(w') == D.Resolved(w) + {t.coord};
    }
  }

  /** A step that ends the transaction of a session without a commit. */
  predicate Fails(s: Sys, step: Step, owner: nat) {
    ((step.Committed? && !step.commitOk) || step.RolledBack? || step.Closed?) && step.sid == owner && InTx(s, owner)
  }

  lemma FailedStep(s: Sys, step: Step, owner: nat, k: Key)
    requires Fails(s, step, owner) && k in s.worlds
    ensures var s' := Next(s, step);
            && k in s'.worlds && SameRecord(s.worlds[k], s'.worlds[k])
            && (k in LeftBy(step.recovery) ==> s'.worlds[k].live == s.worlds[k].live)
  {
    match step
    case Committed(_, _, recovery) => DroppedWorld(s, owner, recovery, k);
    case RolledBack(_, recovery) => DroppedWorld(s, owner, recovery, k);
    case Closed(_, _, recovery) => DroppedWorld(s, owner, recovery, k);
  }

  lemma DroppedWorld(s: Sys, owner: nat, recovery: Recovery, k: Key)
    requires owner in s.sessions && k in s.worlds
    ensures var worlds := Drop(AbortTx(s), owner, recovery);
            && k in worlds && SameRecord(s.worlds[k], worlds[k])
            && (k in LeftBy(recovery) ==> worlds[k].live == s.worlds[k].live)
  {
  }

  /** A direct commit in a group while the transaction of `owner` is open, and the end of that transaction without a
      commit: the group stays durable iff the direct commit has passed over no record that was acknowledged only inside
      it. */
  lemma MixedRoutesIff(s: Sys, direct: Step, end: Step, owner: nat, k: Key, t: Token)
    requires Good(s) && DirectlyCommits(s, direct, k, t) && Fails(Next(s, direct), end, owner)
    ensures var s', w := Next(Next(s, direct), end), s.worlds[k];
            && k in s'.worlds && t.coord.partition in w.base
            && (D.Durable(s'.worlds[k]) <==>
                !PassesPending(w, t.coord.partition, Drained(Live(s, k).value, t.coord).0, t.coord))
  {
    var w1 := DirectStep(s, direct, k, t);
    FailedStep(Next(s, direct), end, owner, k);
    var s' := Next(Next(s, direct), end);
    MixedWorld(s.worlds[k], s'.worlds[k], Live(s, k).value, t, TouchedBy(s.sessions, k), StagedFor(s.bridge, k));
  }

  lemma SameDirect(w: D.World, w': D.World, g: Group, t: Token)
    requires SameRecord(w, w')
    ensures SameRecord(D.DirectAck(w, g, t, true), D.DirectAck(w', g, t, true))
  {
  }

  lemma LeftWorld(w: D.World, s: Sys, direct: Step, k: Key, t: Token, touched: bool, staged: map<nat, nat>)
    requires w.live.Some? && D.Kept(w, touched, staged) && k in s.worlds && SameRecord(w, s.worlds[k])
    requires s.worlds[k].live == w.live && DirectlyCommits(s, direct, k, t)
    ensures var s' := Next(s, direct);
            && k in s'.worlds && t.coord.partition in w.base
            && (D.Durable(s'.worlds[k]) <==>
                !PassesPending(w, t.coord.partition, Drained(w.live.value, t.coord).0, t.coord))
  {
    var w' := DirectStep(s, direct, k, t);
    SameDirect(w, s.worlds[k], w.live.value, t);
    MixedWorld(w, w', w.live.value, t, touched, staged);
  }

  /** The transaction ends without a commit, its recovery does not reach a group, and then there is a direct commit in
      that group: the same condition decides. */
  lemma LeftBehindIff(s: Sys, end: Step, direct: Step, owner: nat, k: Key, t: Token)
    requires Good(s) && Fails(s, end, owner) && k in LeftBy(end.recovery) && Live(s, k).Some?
    requires DirectlyCommits(Next(s, end), direct, k, t)
    ensures var s', w := Next(Next(s, end), direct), s.worlds[k];
            && k in s'.worlds && t.coord.partition in w.base
            && (D.Durable(s'.worlds[k]) <==>
                !PassesPending(w, t.coord.partition, Drained(Live(s, k).value, t.coord).0, t.coord))
  {
    FailedStep(s, end, owner, k);
    LeftWorld(s.worlds[k], Next(s, end), direct, k, t, TouchedBy(s.sessions, k), StagedFor(s.bridge, k));
  }

  /** The same after a consume-publish of its own that has failed: what counts is what its attempt has left pending. */
  lemma LeftByOwnIff(s: Sys, own: Step, direct: Step, k: Key, t: Token)
    requires Good(s) && own.ConsumedAndPublished? && CanExecute(s, own.sid) && OpensOwn(s, own.sid, own.tx)
    requires !(AttemptOk(s, own.sid, own.k, own.t, own.outputs, own.tx) && own.tx.commitOk)
    requires k in LeftBy(OwnRecovery(s, own.sid, own.k, own.t, own.outputs, own.tx)) && Live(s, k).Some?
    requires DirectlyCommits(Next(s, own), direct, k, t)
    ensures var s', a := Next(Next(s, own), direct), Attempted(s, own.sid, own.k, own.t, own.outputs, own.tx);
            && k in s'.worlds && k in a.worlds && a.worlds[k].live.Some? && t.coord.partition in a.worlds[k].base
            && (D.Durable(s'.worlds[k]) <==>
                !PassesPending(a.worlds[k], t.coord.partition, Drained(a.worlds[k].live.value, t.coord).0, t.coord))
  {
    var a := Attempted(s, own.sid, own.k, own.t, own.outputs, own.tx);
    LeftAttempt(s, own, a, Next(s, own), k);
    LeftWorld(a.worlds[k], Next(s, own), direct, k, t, k in Leaning(s, own.sid, own.k), StagedFor(a.bridge, k));
  }

  lemma LeftAttempt(s: Sys, own: Step, a: Sys, s': Sys, k: Key)
    requires Good(s) && own.ConsumedAndPublished? && CanExecute(s, own.sid) && OpensOwn(s, own.sid, own.tx)
    requires !(AttemptOk(s, own.sid, own.k, own.t, own.outputs, own.tx) && own.tx.commitOk)
    requires k in LeftBy(OwnRecovery(s, own.sid, own.k, own.t, own.outputs, own.tx)) && Live(s, k).Some?
    requires a == Attempted(s, own.sid, own.k, own.t, own.outputs, own.tx) && s' == Next(s, own)
    ensures k in a.worlds && a.worlds[k].live.Some?
    ensures D.Kept(a.worlds[k], k in Leaning(s, own.sid, own.k), StagedFor(a.bridge, k))
    ensures k in s'.worlds && SameRecord(a.worlds[k], s'.worlds[k]) && s'.worlds[k].live == a.worlds[k].live
  {
    AttemptedKept(s, own.sid, own.k, own.t, own.outputs, own.tx);
    AttemptedBridge(s, own.sid, own.k, own.t, own.outputs, own.tx);
    LiveAttempt(s, own, k);
    OwnNext(s, own, a);
    DroppedWorld(a, own.sid, OwnRecovery(s, own.sid, own.k, own.t, own.outputs, own.tx), k);
  }

  lemma LiveAttempt(s: Sys, own: Step, k: Key)
    requires own.ConsumedAndPublished? && own.sid in s.sessions && Live(s, k).Some?
    ensures Live(Attempted(s, own.sid, own.k, own.t, own.outputs, own.tx), k).Some?
  {
  }

  // ------------------------------------------------------------ consume-publish

  /** A consume-publish of its own that has advanced the safe position and then fails: the group state survives the
      aborted transaction iff the recovery does not reach it, and there is no recovery at all when the position token
      could not be made and the abort raised as well. */
  lemma AbortedProgressSurvivesIff(s: Sys, step: Step)
    requires Good(s) && step.ConsumedAndPublished? && CanExecute(s, step.sid)
    requires OpensOwn(s, step.sid, step.tx) && step.tx.produced >= |step.outputs| && step.tx.metadataOk
    requires Live(s, step.k).Some? && Current(Live(s, step.k).value, step.t)
    requires Advances(Live(s, step.k).value, step.t.coord)
    requires !(step.tx.encodeOk && step.tx.commitOk)
    ensures var s', p, tx := Next(s, step), step.t.coord.partition, step.tx;
            && (Live(s', step.k).Some? <==> (tx.encodeOk || tx.abortOk ==> step.k in LeftBy(tx.recovery)))
            && (Live(s', step.k).Some? ==>
                  && p in Live(s', step.k).value.safe
                  && Live(s', step.k).value.safe[p] == Drained(Live(s, step.k).value, step.t.coord).0
                  && D.Resolved(s'.worlds[step.k]) == D.Resolved(s.worlds[step.k]))
  {
    var sid, k, t, tx := step.sid, step.k, step.t, step.tx;
    var a, recovery := Attempted(s, sid, k, t, step.outputs, tx), OwnRecovery(s, sid, k, t, step.outputs, tx);
    AttemptAdvances(s, sid, k, t, step.outputs, tx);
    assert Next(s, step) == Forget(AbortTx(a), sid, recovery);
    SurvivesIff(s.worlds[k], a, Live(s, k).value, t, sid, k, recovery);
  }

  lemma SurvivesIff(w: D.World, a: Sys, g: Group, t: Token, sid: nat, k: Key, recovery: Recovery)
    requires w.live == Some(g) && Current(g, t) && Advances(g, t.coord)
    requires k in a.worlds && sid in a.sessions && k in a.sessions[sid].touched && a.worlds[k] == D.TxAck(w, g, t, true)
    ensures var s', p := Forget(AbortTx(a), sid, recovery), t.coord.partition;
            && k in s'.worlds && (Live(s', k).Some? <==> k in LeftBy(recovery))
            && (Live(s', k).Some? ==> p in Live(s', k).value.safe && Live(s', k).value.safe[p] == Drained(g, t.coord).0)
            && D.Resolved(s'.worlds[k]) == D.Resolved(w)
  {
  }

  lemma AttemptAdvances(s: Sys, sid: nat, k: Key, t: Token, outputs: seq<Event>, tx: TxEnv)
    requires sid in s.sessions && OpensOwn(s, sid, tx) && tx.produced >= |outputs| && tx.metadataOk
    requires Live(s, k).Some? && Current(Live(s, k).value, t) && Advances(Live(s, k).value, t.coord)
    ensures var a := Attempted(s, sid, k, t, outputs, tx);
            && k in a.worlds && sid in a.sessions && k in a.sessions[sid].touched
            && a.worlds[k] == D.TxAck(s.worlds[k], Live(s, k).value, t, true)
            && AttemptOk(s, sid, k, t, outputs, tx) == tx.encodeOk
  {
    var begun := s.(bridge := Begin(s.bridge, tx.beginOk));
    var produced := Produce(Touch(begun, sid, k), outputs, tx.produced);
    assert Live(produced, k) == Live(s, k) && Live(begun, k) == Live(s, k);
    assert StageOutcome(begun.bridge, k, true).Staged?;
    assert Attempted(s, sid, k, t, outputs, tx) == TxAck(produced, k, t, true);
  }

  /** A consume-publish that fails inside the transaction of its caller, and the commit of that transaction: the outputs
      that were produced become visible, and the acknowledgement counts iff all of them were and it was accepted, which
      is when only the position token could not be made. */
  lemma FailedInnerCommitsIff(s: Sys, step: Step, recovery: Recovery)
    requires Good(s) && step.ConsumedAndPublished? && InTx(s, step.sid) && step.k in s.worlds
    requires !AttemptOk(s, step.sid, step.k, step.t, step.outputs, step.tx)
    requires step.t.coord !in D.Resolved(s.worlds[step.k]) + s.worlds[step.k].pending
    ensures var s', tx := Next(Next(s, step), Committed(step.sid, true, recovery)), step.tx;
            && s'.visible == s.visible + (s.buffered + Taken(step.outputs, tx.produced))
            && step.k in s'.worlds
            && (step.t.coord in D.Resolved(s'.worlds[step.k]) <==>
                tx.produced >= |step.outputs| && TxAckAccepted(s, step.k, step.t, tx.metadataOk))
  {
    var a := Attempted(s, step.sid, step.k, step.t, step.outputs, step.tx);
    var s1 := Next(s, step);
    assert s1 == Forget(a, step.sid, step.tx.recovery);
    AttemptPends(s, step.sid, step.k, step.t, step.outputs, step.tx);
    assert InTx(s1, step.sid) && s1.worlds[step.k].pending == a.worlds[step.k].pending;
    CommittedStep(s1, step.sid, step.k, recovery);
  }

  lemma AttemptPends(s: Sys, sid: nat, k: Key, t: Token, outputs: seq<Event>, tx: TxEnv)
    requires sid in s.sessions && s.sessions[sid].active && k in s.worlds
    ensures var a := Attempted(s, sid, k, t, outputs, tx);
            var accepted := tx.produced >= |outputs| && TxAckAccepted(s, k, t, tx.metadataOk);
            && a.visible == s.visible && a.buffered == s.buffered + Taken(outputs, tx.produced)
            && a.sessions == Touch(s, sid, k).sessions && k in a.worlds
            && D.Resolved(a.worlds[k]) == D.Resolved(s.worlds[k])
            && a.worlds[k].pending == if accepted then s.worlds[k].pending + {t.coord} else s.worlds[k].pending
  {
    var produced := Produce(Touch(s, sid, k), outputs, tx.produced);
    assert Live(produced, k) == Live(s, k) && produced.bridge == s.bridge;
  }

  // ------------------------------------------------------------ set positions and resets

  /** Setting the position of a group whose offsets the open transaction has staged: the commit of that transaction puts
      the staged offsets back, and the partition stays durable iff no retained record lies between target and staged
      offset. */
  lemma RepositionOverriddenIff(s: Sys, sid: nat, owner: nat, k: Key, target: map<nat, nat>, p: nat, recovery: Recovery)
    requires Good(s) && InTx(s, owner) && CanExecute(s, sid) && !s.sessions[sid].active
    requires k in s.worlds && s.bridge.groupKey == Some(k) && p in s.bridge.offsets && p in target
    ensures var s' := Next(Next(s, Positioned(sid, k, target, true)), Committed(owner, true, recovery));
            var w, w' := s.worlds[k], s'.worlds[k];
            && w'.committed[p] == s.bridge.offsets[p]
            && (D.Covered(w', p, w'.committed[p], D.Resolved(w')) <==>
                forall o :: target[p] <= o < s.bridge.offsets[p] ==> Coord(p, o) !in w.records)
  {
    var w := D.Opened(s.worlds[k]);
    PositionedStep(s, sid, k, target);
    CommittedStep(Next(s, Positioned(sid, k, target, true)), owner, k, recovery);
    OverriddenIff(w, w.live.value, target, s.bridge.offsets, p);
  }

  lemma PositionedStep(s: Sys, sid: nat, k: Key, target: map<nat, nat>)
    requires CanExecute(s, sid) && !s.sessions[sid].active && k in s.worlds
    ensures Next(s, Positioned(sid, k, target, true)) ==
            WithWorld(s, k, D.Repositioned(D.Opened(s.worlds[k]), D.Opened(s.worlds[k]).live.value, target))
  {
  }

  lemma CommittedStep(s: Sys, owner: nat, k: Key, recovery: Recovery)
    requires InTx(s, owner) && k in s.worlds
    ensures var s' := Next(s, Committed(owner, true, recovery));
            && k in s'.worlds && s'.worlds[k] == D.TxCommitted(s.worlds[k], StagedFor(s.bridge, k))
            && s'.visible == s.visible + s.buffered
  {
  }

  lemma OverriddenIff(w: D.World, g: Group, target: map<nat, nat>, staged: map<nat, nat>, p: nat)
    requires p in target && p in staged
    ensures var w' := D.TxCommitted(D.Repositioned(w, g, target), staged);
            && w'.committed[p] == staged[p]
            && (D.Covered(w', p, w'.committed[p], D.Resolved(w')) <==>
                forall o :: target[p] <= o < staged[p] ==> Coord(p, o) !in w.records)
  {
    var w' := D.TxCommitted(D.Repositioned(w, g, target), staged);
    assert forall o :: Coord(p, o) !in D.Resolved(w');
  }

  /** The state after an assignment of one partition and its first message. */
  function FirstHanded(g: Group, start: nat, c: Coord): Group {
    Deliver(ConsumerGroup.Assigned(g, map[c.partition := start]), c, 0, 1, true, true, true)
  }

  lemma FirstHandedMeaning(g: Group, start: nat, c: Coord)
    requires Sound(g) && c.partition !in g.safe && c.partition !in g.paused
    ensures var g', t := FirstHanded(g, start, c), Token(c, g.epoch + 1, Attempts(g, c) + 1);
            && Current(g', t) && Drained(g', c).0 == c.offset + 1 && Advances(g', c)
  {
    var g', p := FirstHanded(g, start, c), c.partition;
    if p in g.acked { assert PendingSound(g, p); }
    assert g'.acked == g.acked && Acked(g', p) == {} && SafeOr(g', p, c.offset) == c.offset;
    assert {} + {c.offset} == {c.offset};
    assert Drain(c.offset, {c.offset}) == Drain(c.offset + 1, {c.offset} - {c.offset});
  }

  function LaterStarted(w: D.World, g: Group, start: nat, c: Coord, t: Token): D.World {
    var g' := FirstHanded(g, start, c);
    D.DirectAck(D.AssignedAt(w, g, map[c.partition := start]).(live := Some(g')), g', t, true)
  }

  lemma LaterStartWorld(w: D.World, g: Group, start: nat, c: Coord, t: Token, touched: bool, staged: map<nat, nat>,
                        w': D.World)
    requires D.Kept(w, touched, staged) && w.live == Some(g) && c.partition !in w.committed && c.partition !in g.safe
    requires c.partition in w.base && w.base[c.partition] <= start <= c.offset
    requires forall o :: start <= o < c.offset ==> Coord(c.partition, o) !in w.records
    requires t == Token(c, g.epoch + 1, Attempts(g, c) + 1) && w' == LaterStarted(w, g, start, c, t)
    ensures && c.partition in w'.committed && w'.committed[c.partition] == c.offset + 1
            && (D.Durable(w') <==> StartCovered(w, c.partition, start))
  {
    LaterStartedFields(w, g, start, c, t, w');
    CoveredFrom(w, w', start, c);
  }

  lemma LaterStartedFields(w: D.World, g: Group, start: nat, c: Coord, t: Token, w': D.World)
    requires Sound(g) && c.partition !in g.safe && c.partition !in g.paused && c.partition in w.base
    requires t == Token(c, g.epoch + 1, Attempts(g, c) + 1) && w' == LaterStarted(w, g, start, c, t)
    ensures w'.records == w.records && w'.base == w.base && D.Resolved(w') == D.Resolved(w) + {c}
    ensures w'.committed == w.committed[c.partition := c.offset + 1]
  {
    FirstHandedMeaning(g, start, c);
    StartedFields(w, g, start, c, t, FirstHanded(g, start, c), w');
  }

  lemma StartedFields(w: D.World, g: Group, start: nat, c: Coord, t: Token, g': Group, w': D.World)
    requires c.partition in w.base && t.coord == c && Current(g', t) && Advances(g', c)
    requires Drained(g', c).0 == c.offset + 1
    requires w' == D.DirectAck(D.AssignedAt(w, g, map[c.partition := start]).(live := Some(g')), g', t, true)
    ensures w'.records == w.records && w'.base == w.base && D.Resolved(w') == D.Resolved(w) + {c}
    ensures w'.committed == w.committed[c.partition := c.offset + 1]
  {
    var w1 := D.AssignedAt(w, g, map[c.partition := start]).(live := Some(g'));
    StartedBase(w, g, start, c);
    AcceptedFields(w1, g', t, w');
  }

  lemma StartedBase(w: D.World, g: Group, start: nat, c: Coord)
    requires c.partition in w.base
    ensures var w1 := D.AssignedAt(w, g, map[c.partition := start]);
            && w1.base == w.base && w1.records == w.records && w1.committed == w.committed
            && D.Resolved(w1) == D.Resolved(w)
  {
  }

  lemma AcceptedFields(w: D.World, g: Group, t: Token, w': D.World)
    requires Current(g, t) && Advances(g, t.coord) && w' == D.DirectAck(w, g, t, true)
    ensures w'.records == w.records && w'.base == w.base && D.Resolved(w') == D.Resolved(w) + {t.coord}
    ensures w'.committed == w.committed[t.coord.partition := Drained(g, t.coord).0]
  {
  }

  lemma CoveredFrom(w: D.World, w': D.World, start: nat, c: Coord)
    requires forall q :: q in w.committed ==> D.Reaches(w, q, w.committed[q], D.Resolved(w))
    requires c.partition !in w.committed && c.partition in w.base && w.base[c.partition] <= start <= c.offset
    requires forall o :: start <= o < c.offset ==> Coord(c.partition, o) !in w.records
    requires w'.records == w.records && w'.base == w.base && D.Resolved(w') == D.Resolved(w) + {c}
    requires w'.committed == w.committed[c.partition := c.offset + 1]
    ensures D.Durable(w') <==> StartCovered(w, c.partition, start)
  {
    forall q | q in w.committed ensures q in w'.base && D.Covered(w', q, w'.committed[q], D.Resolved(w')) {
      assert D.Reaches(w, q, w.committed[q], D.Resolved(w));
    }
    assert D.Durable(w') <==> D.Covered(w', c.partition, c.offset + 1, D.Resolved(w'));
  }

  /** Every retained record between the first start of the partition and this one was resolved. */
  ghost predicate StartCovered(w: D.World, p: nat, start: nat)
    requires p in w.base
  {
    forall o :: w.base[p] <= o < start && Coord(p, o) in w.records ==> Coord(p, o) in D.Resolved(w)
  }

  /** A partition without a committed offset is started a second time, past its first start, as the reset to the latest
      offset does; the next message is delivered there and acknowledged. The group is durable then iff every retained
      record between the two starts was resolved. */
  lemma LaterStartIff(s: Sys, sid: nat, k: Key, start: nat, c: Coord, t: Token) returns (w': D.World)
    requires Good(s) && CanExecute(s, sid) && !s.sessions[sid].active && Live(s, k).Some?
    requires c.partition !in s.worlds[k].committed && c.partition !in Live(s, k).value.safe
    requires c.partition in s.worlds[k].base && s.worlds[k].base[c.partition] <= start <= c.offset
    requires forall o :: start <= o < c.offset ==> Coord(c.partition, o) !in s.worlds[k].records
    requires t == Token(c, Live(s, k).value.epoch + 1, Attempts(Live(s, k).value, c) + 1)
    ensures var s' := AfterLaterStart(s, sid, k, start, c, t); k in s'.worlds && s'.worlds[k] == w'
    ensures c.partition in w'.committed && w'.committed[c.partition] == c.offset + 1
    ensures D.Durable(w') <==> StartCovered(s.worlds[k], c.partition, start)
  {
    w' := LaterStartSteps(s, sid, k, start, c, t);
    LaterStartWorld(s.worlds[k], Live(s, k).value, start, c, t, TouchedBy(s.sessions, k), StagedFor(s.bridge, k), w');
  }

  function AfterLaterStart(s: Sys, sid: nat, k: Key, start: nat, c: Coord, t: Token): Sys {
    var s1 := Next(s, Assigned(k, map[c.partition := start]));
    var s2 := Next(s1, Delivered(k, c, 0, 1, true, true, true));
    Next(s2, Acknowledged(sid, k, t, true))
  }

  lemma LaterStartSteps(s: Sys, sid: nat, k: Key, start: nat, c: Coord, t: Token) returns (w': D.World)
    requires CanExecute(s, sid) && !s.sessions[sid].active && Live(s, k).Some?
    ensures w' == LaterStarted(s.worlds[k], Live(s, k).value, start, c, t)
    ensures var s' := AfterLaterStart(s, sid, k, start, c, t); k in s'.worlds && s'.worlds[k] == w'
  {
    var w, g := s.worlds[k], Live(s, k).value;
    w' := LaterStarted(w, g, start, c, t);
    var s1 := Next(s, Assigned(k, map[c.partition := start]));
    AssignedStep(s, k, map[c.partition := start]);
    DeliveredStep(s1, k, c);
    AcknowledgedStep(Next(s1, Delivered(k, c, 0, 1, true, true, true)), sid, k, t);
  }

  lemma AcknowledgedStep(s: Sys, sid: nat, k: Key, t: Token)
    requires CanExecute(s, sid) && !s.sessions[sid].active && Live(s, k).Some?
    ensures Next(s, Acknowledged(sid, k, t, true)) ==
            WithWorld(s, k, D.DirectAck(s.worlds[k], Live(s, k).value, t, true))
  {
  }

  lemma AssignedStep(s: Sys, k: Key, starts: map<nat, nat>)
    requires Live(s, k).Some?
    ensures Next(s, Assigned(k, starts)) == WithWorld(s, k, D.AssignedAt(s.worlds[k], Live(s, k).value, starts))
  {
  }

  lemma DeliveredStep(s: Sys, k: Key, c: Coord)
    requires Live(s, k).Some?
    ensures Next(s, Delivered(k, c, 0, 1, true, true, true)) ==
            WithWorld(s, k, s.worlds[k].(live := Some(Deliver(Live(s, k).value, c, 0, 1, true, true, true))))
  {
  }
}
