/** Durable at-least-once delivery, stated over runs alone: what a run acknowledged, when its transactions ended, and
    when a position was set explicitly. */
module DurableRuns {
  import opened Basics
  import opened ConsumerGroup
  import D = Durability
  import opened Transactions
  import opened Runtime
  import opened RuntimeSafety

  // ------------------------------------------------------------ what a step acknowledges

  function Begun(s: Sys, sid: nat, tx: TxEnv): Sys
    requires sid in s.sessions
  {
    if s.sessions[sid].active then s else s.(bridge := Begin(s.bridge, tx.beginOk))
  }

  /** A step that resolves coordinate `c` of group `k` for good: a direct acknowledgement, a dead letter, a
      consume-publish that commits its own transaction, or another member of the group. */
  predicate ResolvesNow(s: Sys, step: Step, k: Key, c: Coord) {
    match step
    case Acknowledged(sid, k', t, ok) =>
      k' == k && t.coord == c && CanExecute(s, sid) && !s.sessions[sid].active && Live(s, k).Some? &&
      AckOutcome(Live(s, k).value, t, ok).Accepted?
    case NegativelyAcknowledged(sid, k', t, policy, retryAfter, _, env) =>
      k' == k && t.coord == c && CanExecute(s, sid) && !s.sessions[sid].active && Live(s, k).Some? &&
      var r := NackOutcome(Live(s, k).value, t, policy, retryAfter, env); r.DeadLettered? && r.ack.Accepted?
    case ConsumedAndPublished(sid, k', t, outputs, tx) =>
      k' == k && t.coord == c && CanExecute(s, sid) && OpensOwn(s, sid, tx) && AttemptOk(s, sid, k, t, outputs, tx)
      && tx.commitOk
    case PeerCommitted(k', _, _, _, resolved) => k' == k && c in resolved
    case _ => false
  }

  /** A step that acknowledges `c` inside a transaction that stays open. */
  predicate ResolvesInTx(s: Sys, step: Step, k: Key, c: Coord) {
    match step
    case Acknowledged(sid, k', t, ok) =>
      k' == k && t.coord == c && CanExecute(s, sid) && s.sessions[sid].active && TxAckAccepted(s, k, t, ok)
    case ConsumedAndPublished(sid, k', t, outputs, tx) =>
      k' == k && t.coord == c && CanExecute(s, sid) && s.sessions[sid].active && tx.produced >= |outputs| &&
      TxAckAccepted(s, k, t, tx.metadataOk)
    case _ => false
  }

  predicate CommitsTx(s: Sys, step: Step) {
    step.Committed? && InTx(s, step.sid) && step.commitOk
  }

  /** A step after which earlier acknowledgements of the partition no longer count. */
  predicate Erases(s: Sys, step: Step, k: Key, p: nat) {
    Repositions(s, step, k) && p in step.target
  }

  /** At the end of the run, `c` is acknowledged inside the transaction that is still open. */
  ghost predicate PendingAck(s: Sys, steps: seq<Step>, k: Key, c: Coord)
    decreases |steps|
  {
    steps != [] &&
    var rest, last := steps[..|steps| - 1], steps[|steps| - 1];
    var before := Run(s, rest);
    && Next(before, last).bridge.active
    && !Erases(before, last, k, c.partition)
    && (PendingAck(s, rest, k, c) || ResolvesInTx(before, last, k, c))
  }

  /** At the end of the run, `c` was resolved since the position was last set: at once, or in a transaction that
      committed. */
  ghost predicate DurableAck(s: Sys, steps: seq<Step>, k: Key, c: Coord)
    decreases |steps|
  {
    steps != [] &&
    var rest, last := steps[..|steps| - 1], steps[|steps| - 1];
    var before := Run(s, rest);
    && !Erases(before, last, k, c.partition)
    && (|| DurableAck(s, rest, k, c)
        || ResolvesNow(before, last, k, c)
        || (CommitsTx(before, last) && PendingAck(s, rest, k, c)))
  }

  // ------------------------------------------------------------ the bookkeeping is honest

  /** Where the coordinates recorded after a step come from. */
  ghost predicate Honest(s: Sys, s': Sys, step: Step, k: Key) {
    k in s'.worlds ==>
      && k in s.worlds
      && (forall c :: c in D.Resolved(s'.worlds[k]) ==>
            && !Erases(s, step, k, c.partition)
            && (|| c in D.Resolved(s.worlds[k])
                || ResolvesNow(s, step, k, c)
                || (CommitsTx(s, step) && c in s.worlds[k].pending)))
      && (forall c :: c in s'.worlds[k].pending ==>
            && s'.bridge.active
            && !Erases(s, step, k, c.partition)
            && (c in s.worlds[k].pending || ResolvesInTx(s, step, k, c)))
  }

  /** Steps that record nothing. */
  lemma QuietStep(s: Sys, step: Step, k: Key)
    requires WorldStep(step) && !step.PeerCommitted? && !step.NegativelyAcknowledged? && !step.Positioned?
    ensures var s' := Next(s, step);
            && s'.worlds.Keys == s.worlds.Keys && s'.bridge == s.bridge
            && (k in s.worlds ==>
                  D.Resolved(s'.worlds[k]) == D.Resolved(s.worlds[k]) && s'.worlds[k].pending == s.worlds[k].pending)
  {
  }

  lemma WorldStepHonest(s: Sys, step: Step, k: Key)
    requires Exclusive(s) && Settled(s) && WorldStep(step)
    ensures Honest(s, Next(s, step), step, k)
  {
    if step.Positioned? { PositionedHonest(s, step, k); }
    else if step.NegativelyAcknowledged? { NackHonest(s, step, k); }
    else if step.PeerCommitted? { PeerHonest(s, step, k); }
    else { QuietStep(s, step, k); }
  }

  lemma PeerHonest(s: Sys, step: Step, k: Key)
    requires Settled(s) && step.PeerCommitted?
    ensures Honest(s, Next(s, step), step, k)
  {
  }

  lemma NackHonest(s: Sys, step: Step, k: Key)
    requires Settled(s) && step.NegativelyAcknowledged?
    ensures Honest(s, Next(s, step), step, k)
  {
  }

  lemma PositionedHonest(s: Sys, step: Step, k: Key)
    requires Exclusive(s) && Settled(s) && step.Positioned?
    ensures Honest(s, Next(s, step), step, k)
  {
    var s' := Next(s, step);
    assert s'.bridge == s.bridge;
    if k in s.worlds && Repositions(s, step, k) {
      var w, w' := s.worlds[k], s'.worlds[k];
      assert w'.done == D.Elsewhere(w.done, step.target) && w'.parked == D.Elsewhere(w.parked, step.target);
      assert w'.pending == D.Elsewhere(w.pending, step.target);
    }
  }

  lemma TxAckPending(s: Sys, k: Key, t: Token, metadataOk: bool, j: Key)
    requires j in s.worlds
    ensures var s' := TxAck(s, k, t, metadataOk);
            && j in s'.worlds && s'.worlds.Keys == s.worlds.Keys && s'.visible == s.visible && s'.buffered == s.buffered
            && D.Resolved(s'.worlds[j]) == D.Resolved(s.worlds[j]) && s'.worlds[j].committed == s.worlds[j].committed
            && (forall c :: c in s'.worlds[j].pending ==>
                  c in s.worlds[j].pending || (j == k && c == t.coord && TxAckAccepted(s, k, t, metadataOk)))
            && (j == k && TxAckAccepted(s, k, t, metadataOk) ==> t.coord in s'.worlds[j].pending)
  {
  }

  lemma AttemptedPending(s: Sys, sid: nat, k: Key, t: Token, outputs: seq<Event>, tx: TxEnv, j: Key)
    requires sid in s.sessions && j in s.worlds
    ensures var a := Attempted(s, sid, k, t, outputs, tx);
            && j in a.worlds && a.worlds.Keys == s.worlds.Keys && a.visible == s.visible
            && a.buffered == s.buffered + Taken(outputs, tx.produced)
            && D.Resolved(a.worlds[j]) == D.Resolved(s.worlds[j]) && a.worlds[j].committed == s.worlds[j].committed
            && (forall c :: c in a.worlds[j].pending ==>
                  || c in s.worlds[j].pending
                  || (j == k && c == t.coord && tx.produced >= |outputs|
                      && TxAckAccepted(Begun(s, sid, tx), k, t, tx.metadataOk)))
  {
    var produced := Produce(Touch(Begun(s, sid, tx), sid, k), outputs, tx.produced);
    assert Live(produced, k) == Live(Begun(s, sid, tx), k);
    TxAckPending(produced, k, t, tx.metadataOk, j);
  }

  lemma ConsumePublishHonest(s: Sys, step: Step, k: Key)
    requires Exclusive(s) && Settled(s) && step.ConsumedAndPublished? && CanExecute(s, step.sid)
    ensures Honest(s, Next(s, step), step, k)
  {
    if k in s.worlds {
      if s.sessions[step.sid].active {
        InnerHonest(s, step, k);
      } else if OpensOwn(s, step.sid, step.tx) {
        OwnHonest(s, step, k);
      }
    }
  }

  lemma InnerHonest(s: Sys, step: Step, k: Key)
    requires Exclusive(s) && k in s.worlds && step.ConsumedAndPublished? && CanExecute(s, step.sid)
    requires s.sessions[step.sid].active
    ensures Honest(s, Next(s, step), step, k)
  {
    var s', a := Next(s, step), Attempted(s, step.sid, step.k, step.t, step.outputs, step.tx);
    AttemptedPending(s, step.sid, step.k, step.t, step.outputs, step.tx, k);
    AttemptedBridge(s, step.sid, step.k, step.t, step.outputs, step.tx);
    assert s' == a || s' == Forget(a, step.sid, step.tx.recovery);
    assert D.Resolved(s'.worlds[k]) == D.Resolved(s.worlds[k]) && s'.worlds[k].pending == a.worlds[k].pending;
    assert Begun(s, step.sid, step.tx) == s;
  }

  lemma OwnHonest(s: Sys, step: Step, k: Key)
    requires Exclusive(s) && Settled(s) && k in s.worlds && step.ConsumedAndPublished?
    requires CanExecute(s, step.sid) && OpensOwn(s, step.sid, step.tx)
    ensures Honest(s, Next(s, step), step, k)
  {
    var a := Attempted(s, step.sid, step.k, step.t, step.outputs, step.tx);
    AttemptedPending(s, step.sid, step.k, step.t, step.outputs, step.tx, k);
    OwnEnd(s, step, k);
    assert s.worlds[k].pending == {};
  }

  predicate OwnCommits(s: Sys, step: Step)
    requires step.ConsumedAndPublished? && step.sid in s.sessions
  {
    OpensOwn(s, step.sid, step.tx) && AttemptOk(s, step.sid, step.k, step.t, step.outputs, step.tx) && step.tx.commitOk
  }

  /** However an own transaction ends, nothing is left pending, and only a commit resolves what was. */
  lemma OwnEnd(s: Sys, step: Step, k: Key)
    requires step.ConsumedAndPublished? && CanExecute(s, step.sid) && OpensOwn(s, step.sid, step.tx)
    requires var a := Attempted(s, step.sid, step.k, step.t, step.outputs, step.tx); k in a.worlds
    ensures var a, s' := Attempted(s, step.sid, step.k, step.t, step.outputs, step.tx), Next(s, step);
            && k in s'.worlds && s'.worlds.Keys == a.worlds.Keys && s'.worlds[k].pending == {}
            && D.Resolved(s'.worlds[k]) ==
                 D.Resolved(a.worlds[k]) + if OwnCommits(s, step) then a.worlds[k].pending else {}
  {
    var a := Attempted(s, step.sid, step.k, step.t, step.outputs, step.tx);
    if OwnCommits(s, step) { CommitEffect(a, k); }
  }

  lemma EndHonest(s: Sys, step: Step, k: Key)
    requires Exclusive(s) && Settled(s) && (step.Committed? || step.RolledBack? || step.Closed?)
    ensures Honest(s, Next(s, step), step, k)
  {
    if InTx(s, step.sid) {
      if k in s.worlds { EndEffect(s, step, k); }
    } else {
      NoEnd(s, step, k);
    }
  }

  /** Without a transaction there is nothing to end. */
  lemma NoEnd(s: Sys, step: Step, k: Key)
    requires Exclusive(s) && Settled(s) && (step.Committed? || step.RolledBack? || step.Closed?) && !InTx(s, step.sid)
    ensures Honest(s, Next(s, step), step, k)
  {
    assert Next(s, step).worlds == s.worlds && Next(s, step).bridge == s.bridge;
    if k in s.worlds { assert !s.bridge.active ==> s.worlds[k].pending == {}; }
  }

  lemma EndEffect(s: Sys, step: Step, k: Key)
    requires (step.Committed? || step.RolledBack? || step.Closed?) && k in s.worlds && InTx(s, step.sid)
    ensures var w, s' := s.worlds[k], Next(s, step);
            && k in s'.worlds && s'.worlds[k].pending == {}
            && D.Resolved(s'.worlds[k]) == if CommitsTx(s, step) then D.Resolved(w) + w.pending else D.Resolved(w)
  {
  }

  lemma NextHonest(s: Sys, step: Step, k: Key)
    requires Exclusive(s) && Settled(s)
    ensures Honest(s, Next(s, step), step, k)
  {
    if WorldStep(step) { WorldStepHonest(s, step, k); }
    else if step.Committed? || step.RolledBack? || step.Closed? { EndHonest(s, step, k); }
    else if step.ConsumedAndPublished? { if CanExecute(s, step.sid) { ConsumePublishHonest(s, step, k); } }
    else if step.Acknowledged? { AcknowledgedHonest(s, step, k); }
    else { NextExclusive(s, step); }
  }

  lemma AcknowledgedHonest(s: Sys, step: Step, k: Key)
    requires Exclusive(s) && Settled(s) && step.Acknowledged?
    ensures Honest(s, Next(s, step), step, k)
  {
    if CanExecute(s, step.sid) && k in s.worlds {
      if s.sessions[step.sid].active { TxAckHonest(s, step, k); } else { DirectAckHonest(s, step, k); }
    }
  }

  lemma DirectAckHonest(s: Sys, step: Step, k: Key)
    requires Settled(s) && step.Acknowledged? && CanExecute(s, step.sid) && !s.sessions[step.sid].active
    requires k in s.worlds
    ensures Honest(s, Next(s, step), step, k)
  {
    assert Next(s, step) == DirectAck(s, step.k, step.t, step.brokerOk);
  }

  lemma TxAckHonest(s: Sys, step: Step, k: Key)
    requires Exclusive(s) && step.Acknowledged? && CanExecute(s, step.sid) && s.sessions[step.sid].active
    requires k in s.worlds
    ensures Honest(s, Next(s, step), step, k)
  {
    assert SomeActive(s.sessions);
    var u := Touch(s, step.sid, step.k);
    assert Next(s, step) == TxAck(u, step.k, step.t, step.brokerOk) && Live(u, step.k) == Live(s, step.k);
    TxAckPending(u, step.k, step.t, step.brokerOk, k);
    if Live(u, step.k).Some? { TxAckBridge(u, step.k, step.t, step.brokerOk); }
  }

  /** Over every run: what is recorded as resolved was resolved by the run, and what is pending is pending in it. */
  lemma {:induction false} RunHonest(s: Sys, steps: seq<Step>, k: Key)
    requires Init(s)
    ensures var s' := Run(s, steps);
            k in s'.worlds ==>
              && (forall c :: c in D.Resolved(s'.worlds[k]) ==> DurableAck(s, steps, k, c))
              && (forall c :: c in s'.worlds[k].pending ==> PendingAck(s, steps, k, c))
  {
    if steps != [] {
      var rest, last := steps[..|steps| - 1], steps[|steps| - 1];
      RunHonest(s, rest, k);
      MutualExclusion(s, rest);
      NextHonest(Run(s, rest), last, k);
    } else if k in s.worlds {
      assert InitWorld(s.worlds[k]);
    }
  }

  // ------------------------------------------------------------ the theorems

  /** Durable at-least-once: in every run whose calls are routed properly, each retained record below a committed
      offset, and not below the initial or last set position, was resolved by the run since then. */
  lemma DurableAtLeastOnce(s: Sys, steps: seq<Step>, k: Key, p: nat, o: nat)
    requires Init(s) && RunAllowed(s, steps) && RunRouted(s, steps)
    requires k in Run(s, steps).worlds
    requires var w := Run(s, steps).worlds[k];
             p in w.committed && o < w.committed[p] && Coord(p, o) in w.records && (p in w.base ==> w.base[p] <= o)
    ensures DurableAck(s, steps, k, Coord(p, o))
  {
    var w := Run(s, steps).worlds[k];
    RunGood(s, steps);
    D.KeptIsDurable(w, TouchedBy(Run(s, steps).sessions, k), StagedFor(Run(s, steps).bridge, k));
    RunHonest(s, steps, k);
  }

  /** No surviving aborted progress: a record below the safe position of a live group was resolved for good, or it is
      pending in the open transaction and the group is among those its session will recover. */
  lemma NoAbortedProgress(s: Sys, steps: seq<Step>, k: Key, p: nat, o: nat)
    requires Init(s) && RunAllowed(s, steps) && RunRouted(s, steps)
    requires Live(Run(s, steps), k).Some? && p in Live(Run(s, steps), k).value.safe
    requires var w := Run(s, steps).worlds[k];
             o < w.live.value.safe[p] && Coord(p, o) in w.records && (p in w.base ==> w.base[p] <= o)
    ensures || DurableAck(s, steps, k, Coord(p, o))
            || (PendingAck(s, steps, k, Coord(p, o)) && TouchedBy(Run(s, steps).sessions, k))
  {
    var s' := Run(s, steps);
    var w := s'.worlds[k];
    RunGood(s, steps);
    RunHonest(s, steps, k);
    assert D.Reaches(w, p, w.live.value.safe[p], D.Backing(w, TouchedBy(s'.sessions, k)));
  }

  lemma AttemptedAll(s: Sys, sid: nat, k: Key, t: Token, outputs: seq<Event>, tx: TxEnv)
    requires sid in s.sessions && k in s.worlds
    ensures var a := Attempted(s, sid, k, t, outputs, tx);
            && a.worlds.Keys == s.worlds.Keys && a.visible == s.visible
            && a.buffered == s.buffered + Taken(outputs, tx.produced)
            && forall j :: j in s.worlds ==> a.worlds[j].committed == s.worlds[j].committed
  {
    AttemptedPending(s, sid, k, t, outputs, tx, k);
    forall j | j in s.worlds ensures Attempted(s, sid, k, t, outputs, tx).worlds[j].committed == s.worlds[j].committed {
      AttemptedPending(s, sid, k, t, outputs, tx, j);
    }
  }

  lemma OwnFailed(s: Sys, step: Step)
    requires Exclusive(s) && Settled(s) && step.ConsumedAndPublished? && step.k in s.worlds
    requires CanExecute(s, step.sid) && !s.sessions[step.sid].active && !OwnCommits(s, step)
    ensures var s' := Next(s, step);
            && s'.worlds.Keys == s.worlds.Keys && s'.buffered == s.buffered && s'.visible == s.visible
            && forall j :: j in s.worlds ==> s'.worlds[j].committed == s.worlds[j].committed
  {
    if OpensOwn(s, step.sid, step.tx) {
      AttemptedAll(s, step.sid, step.k, step.t, step.outputs, step.tx);
      var a := Attempted(s, step.sid, step.k, step.t, step.outputs, step.tx);
      var recovery := OwnRecovery(s, step.sid, step.k, step.t, step.outputs, step.tx);
      assert Next(s, step) == Forget(AbortTx(a), step.sid, recovery);
    }
  }

  lemma OwnCommitted(s: Sys, step: Step)
    requires Exclusive(s) && Settled(s) && step.ConsumedAndPublished? && step.k in s.worlds
    requires CanExecute(s, step.sid) && !s.sessions[step.sid].active && OwnCommits(s, step)
    ensures var s', w := Next(s, step), s.worlds[step.k];
            && s'.worlds.Keys == s.worlds.Keys && s'.buffered == [] && s'.visible == s.visible + step.outputs
            && (forall j :: j in s.worlds && j != step.k ==> s'.worlds[j].committed == s.worlds[j].committed)
            && s'.worlds[step.k].committed ==
                 (if Advances(w.live.value, step.t.coord)
                  then w.committed[step.t.coord.partition := Drained(w.live.value, step.t.coord).0] else w.committed)
            && step.t.coord in s'.worlds[step.k].done
  {
    var a := Attempted(s, step.sid, step.k, step.t, step.outputs, step.tx);
    AttemptedAll(s, step.sid, step.k, step.t, step.outputs, step.tx);
    AttemptedStaged(s, step.sid, step.k, step.t, step.outputs, step.tx);
    OwnCommitStep(s, step);
    var w := s.worlds[step.k];
    CommittedFrom(s, a, step.sid, step.k, step.t.coord.partition, Drained(w.live.value, step.t.coord).0,
                  Advances(w.live.value, step.t.coord));
  }

  lemma OwnCommitStep(s: Sys, step: Step)
    requires Settled(s) && Exclusive(s) && step.ConsumedAndPublished? && CanExecute(s, step.sid) && OwnCommits(s, step)
    ensures var a := Attempted(s, step.sid, step.k, step.t, step.outputs, step.tx);
            && step.sid in a.sessions && Next(s, step) == Untouch(CommitTx(a), step.sid)
            && s.buffered == [] && Taken(step.outputs, step.tx.produced) == step.outputs
  {
  }

  lemma CommittedFrom(s: Sys, a: Sys, sid: nat, k: Key, p: nat, next: nat, advances: bool)
    requires sid in a.sessions && k in s.worlds && a.worlds.Keys == s.worlds.Keys
    requires forall j :: j in s.worlds ==> a.worlds[j].committed == s.worlds[j].committed
    requires forall j :: j != k ==> StagedFor(a.bridge, j) == map[]
    requires StagedFor(a.bridge, k) == if advances then map[p := next] else map[]
    ensures var s' := Untouch(CommitTx(a), sid);
            && s'.worlds.Keys == s.worlds.Keys && s'.buffered == [] && s'.visible == a.visible + a.buffered
            && (forall j :: j in s.worlds && j != k ==> s'.worlds[j].committed == s.worlds[j].committed)
            && s'.worlds[k].committed == (if advances then s.worlds[k].committed[p := next] else s.worlds[k].committed)
            && s'.worlds[k].done == a.worlds[k].done + a.worlds[k].pending
  {
    var s' := Untouch(CommitTx(a), sid);
    CommitEffect(a, k);
    forall j | j in s.worlds && j != k ensures s'.worlds[j].committed == s.worlds[j].committed {
      CommitEffect(a, j);
      PlusStaged(a.worlds[j].committed, p, next);
    }
    PlusStaged(s.worlds[k].committed, p, next);
  }

  lemma PlusStaged(committed: map<nat, nat>, p: nat, next: nat)
    ensures committed + map[] == committed && committed + map[p := next] == committed[p := next]
  {
  }

  lemma CommitEffect(a: Sys, j: Key)
    requires j in a.worlds
    ensures var s' := CommitTx(a);
            && s'.worlds.Keys == a.worlds.Keys && s'.buffered == [] && s'.visible == a.visible + a.buffered
            && s'.worlds[j].committed == a.worlds[j].committed + StagedFor(a.bridge, j)
            && s'.worlds[j].done == a.worlds[j].done + a.worlds[j].pending
  {
  }

  /** A consume-publish that owns its transaction is atomic: its outputs appear together with the offset that it staged,
      if its acknowledgement advanced the safe position, or nothing appears and no committed offset changes. */
  lemma ConsumePublishAtomic(s: Sys, step: Step)
    requires Exclusive(s) && Settled(s) && step.ConsumedAndPublished? && step.k in s.worlds
    requires CanExecute(s, step.sid) && !s.sessions[step.sid].active
    ensures var s', w, ok := Next(s, step), s.worlds[step.k], OwnCommits(s, step);
            && s'.worlds.Keys == s.worlds.Keys && s'.buffered == s.buffered
            && s'.visible == (if ok then s.visible + step.outputs else s.visible)
            && (forall j :: j in s.worlds && j != step.k ==> s'.worlds[j].committed == s.worlds[j].committed)
            && s'.worlds[step.k].committed ==
                 (if ok && Advances(w.live.value, step.t.coord)
                  then w.committed[step.t.coord.partition := Drained(w.live.value, step.t.coord).0] else w.committed)
            && (ok ==> step.t.coord in s'.worlds[step.k].done)
  {
    if OwnCommits(s, step) { OwnCommitted(s, step); } else { OwnFailed(s, step); }
  }

  /** What the attempt of an own transaction has staged when all of it went through. */
  lemma AttemptedStaged(s: Sys, sid: nat, k: Key, t: Token, outputs: seq<Event>, tx: TxEnv)
    requires Exclusive(s) && Settled(s) && sid in s.sessions && OpensOwn(s, sid, tx) && k in s.worlds
    ensures var a, w := Attempted(s, sid, k, t, outputs, tx), s.worlds[k];
            && a.bridge.active
            && (forall j :: j != k ==> StagedFor(a.bridge, j) == map[])
            && (AttemptOk(s, sid, k, t, outputs, tx) ==>
                  && t.coord in a.worlds[k].pending
                  && StagedFor(a.bridge, k) ==
                     (if Advances(w.live.value, t.coord)
                      then map[t.coord.partition := Drained(w.live.value, t.coord).0] else map[]))
  {
    var begun := s.(bridge := Begin(s.bridge, tx.beginOk));
    var produced := Produce(Touch(begun, sid, k), outputs, tx.produced);
    assert Live(produced, k) == Live(s, k);
    if tx.produced >= |outputs| && Live(produced, k).Some? {
      TxAckBridge(produced, k, t, tx.metadataOk);
      TxAckPending(produced, k, t, tx.metadataOk, k);
    }
  }
}
