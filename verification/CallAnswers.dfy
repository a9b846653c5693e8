/** What callers are told, and what it means: each answer of a call by what has happened before it, and what it
    leaves. */
module CallAnswers {
  import opened Basics
  import opened ConsumerGroup
  import opened TokenLife
  import opened Transactions
  import opened Runtime
  import opened RuntimeSafety
  import opened DurableRuns
  import S = Sessions

  // ------------------------------------------------------------ acknowledgements

  /** Over every run, an acknowledgement is a conflict iff the token is of another epoch than the run has come to, and
      rejected iff it is of this one and its delivery is not held; else it fails iff an advance of the safe position
      cannot be committed, and is accepted with the word whether there was one. */
  lemma AckAnswer(ops: seq<Op>, t: Token, ok: bool)
    ensures var g, r := Exec(FRESH, ops), AckOutcome(Exec(FRESH, ops), t, ok);
            && (r == RebalanceConflict <==> t.epoch != Epochs(ops))
            && (r == DeliveryRejected <==> t.epoch == Epochs(ops) && !Holds(FRESH, ops, t))
            && (r == CommitFailed <==>
                t.epoch == Epochs(ops) && Holds(FRESH, ops, t) && Advances(g, t.coord) && !ok)
            && (r.Accepted? ==> (r.committed <==> Advances(g, t.coord)))
  {
    RunCounts(ops, t.coord);
    AcknowledgedIff(ops, t);
  }

  /** A negative acknowledgement likewise, but the delivery may be of another epoch. */
  lemma NackAnswer(ops: seq<Op>, t: Token, policy: DeadLetterPolicy, retryAfter: nat, env: NackEnv)
    ensures var r := NackOutcome(Exec(FRESH, ops), t, policy, retryAfter, env);
            && (r == NackConflict <==> t.epoch != Epochs(ops))
            && (r == NackRejected <==>
                t.epoch == Epochs(ops) && !exists e :: Holds(FRESH, ops, Token(t.coord, e, t.attempt)))
  {
    RunCounts(ops, t.coord);
    NegativelyAcknowledgedIff(ops, t);
  }

  /** What comes of a message: held back, and whether the seek raised; else undecodable, which counts for nothing; else
      counted as an attempt, with or without a token. */
  lemma MessageAnswer(g: Group, op: Op)
    requires op.OpDeliver?
    ensures var r := DeliverResult(g, op.c, op.clock, op.decodable, op.minted, op.seekOk);
            var early := HeldBack(g, op.c) && op.clock < g.paused[op.c.partition].resumeAt;
            && (r.Deferred? <==> early && op.seekOk) && (r.SeekRaised? <==> early && !op.seekOk)
            && (r.Undecodable? <==> !early && !op.decodable)
            && (r.Unminted? <==> !early && op.decodable && !op.minted)
            && Attempts(Apply(g, op), op.c) == Attempts(g, op.c) + if !early && op.decodable then 1 else 0
  {
    DeliverCounts(g, op.c, op.clock, op.expiresAt, op.decodable, op.minted, op.seekOk);
  }

  // ------------------------------------------------------------ transactions

  /** Over every run, a begin times out iff some session is in a transaction. */
  lemma BeginAnswer(s: Sys, steps: seq<Step>, beginOk: bool)
    requires Init(s)
    ensures var b := Run(s, steps).bridge;
            && (BeginOutcome(b, beginOk) == LeaseTimeout <==> SomeActive(Run(s, steps).sessions))
            && (BeginOutcome(b, beginOk).Began? <==> !SomeActive(Run(s, steps).sessions) && beginOk)
  {
    MutualExclusion(s, steps);
  }

  /** The caller of a consume-publish is told that it is done iff it went through, and the transaction it opened for
      that has committed; and refused iff it could not run or had no transaction. */
  lemma ConsumePublishAnswer(s: Sys, step: Step, states: S.States, b: Bridge, ses: Session)
    requires step.ConsumedAndPublished? && S.Shows(s, step.sid, states, b, ses)
    ensures var r, sid := S.Answer(states, b, ses, step.k, step.t, step.outputs, step.tx), step.sid;
            && (r.Refused? <==> !CanExecute(s, sid) || !(s.sessions[sid].active || OpensOwn(s, sid, step.tx)))
            && (r.Done? <==>
                CanExecute(s, sid)
                && if s.sessions[sid].active then AttemptOk(s, sid, step.k, step.t, step.outputs, step.tx)
                   else OwnCommits(s, step))
  {
    if ses.active || OpensOwn(s, step.sid, step.tx) {
      S.AttemptShows(s, step.sid, states, b, ses, step.k, step.t, step.outputs, step.tx);
    }
  }

  /** Outside a transaction the answer tells what became of it: done, and the outputs are visible and the record is
      resolved; or not done, and nothing is visible and no committed offset has changed. */
  lemma AnswerIsEffect(s: Sys, step: Step, states: S.States, b: Bridge, ses: Session)
    requires Exclusive(s) && Settled(s) && step.ConsumedAndPublished? && step.k in s.worlds
    requires S.Shows(s, step.sid, states, b, ses) && CanExecute(s, step.sid) && !ses.active
    ensures var s', r := Next(s, step), S.Answer(states, b, ses, step.k, step.t, step.outputs, step.tx);
            if r.Done? then s'.visible == s.visible + step.outputs && step.t.coord in s'.worlds[step.k].done
            else s'.visible == s.visible && forall j :: j in s.worlds ==>
                j in s'.worlds && s'.worlds[j].committed == s.worlds[j].committed
  {
    ConsumePublishAnswer(s, step, states, b, ses);
    ConsumePublishAtomic(s, step);
  }
}
