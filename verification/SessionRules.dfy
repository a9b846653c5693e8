/** Which calls a session refuses, and what that means over its life. */
module SessionRules {
  import opened Basics
  import opened ConsumerGroup
  import opened Transactions
  import opened Runtime
  import opened RuntimeSafety

  /** A call that runs an operation in a session. */
  predicate Executes(step: Step) {
    || step.Acknowledged? || step.NegativelyAcknowledged? || step.Positioned? || step.Published?
    || step.ConsumedAndPublished?
  }

  /** A call that begins or ends a transaction, or closes the session. */
  predicate Manages(step: Step) {
    step.Began? || step.Committed? || step.RolledBack? || step.Closed?
  }

  /** Calls are refused by a session that is unknown or closed; operations by a transactional one that has not begun; a
      begin by one that is not transactional, or has begun; rejections and set positions inside a transaction; a commit
      or a rollback outside. */
  predicate Refused(s: Sys, step: Step)
    requires Executes(step) || Manages(step)
  {
    || step.sid !in s.sessions
    || var ses := s.sessions[step.sid];
       || ses.closed
       || (Executes(step) && ses.transactional && !ses.active)
       || (step.Began? && (!ses.transactional || ses.active))
       || ((step.NegativelyAcknowledged? || step.Positioned?) && ses.active)
       || ((step.Committed? || step.RolledBack?) && !ses.active)
  }

  lemma RefusedChangesNothing(s: Sys, step: Step)
    requires (Executes(step) || Manages(step)) && Refused(s, step)
    ensures Next(s, step) == s
  {
  }

  /** A set position that is not refused opens the state of the group if need be. Where the commit goes through it
      stands at the target, in a new epoch with nothing in flight or acknowledged, and so does the broker. */
  lemma PositionOpens(s: Sys, step: Step)
    requires step.Positioned? && !Refused(s, step) && step.k in s.worlds
    ensures var w, s', k := s.worlds[step.k], Next(s, step), step.k;
            var g := if w.live.Some? then w.live.value else FRESH;
            && k in s'.worlds && s'.worlds[k].live.Some?
            && (forall j :: j != k ==> Live(s', j) == Live(s, j))
            && if step.commitOk then
                 var g' := s'.worlds[k].live.value;
                 && s'.worlds[k].committed == w.committed + step.target
                 && g'.safe == step.target && g'.epoch == g.epoch + 1 && g'.inflight == map[] && g'.acked == map[]
                 && g'.attempts == g.attempts && g'.paused == g.paused && g'.fetch == g.fetch && g'.owned == g.owned
               else s'.worlds[k].committed == w.committed && s'.worlds[k].live.value == g
  {
  }

  /** A session that is opened is not active; who is active is transactional and not closed. */
  ghost predicate Proper(s: Sys) {
    forall sid :: sid in s.sessions && s.sessions[sid].active ==>
        s.sessions[sid].transactional && !s.sessions[sid].closed
  }

  /** No step changes what kind of session it is, or opens a closed one again; none begins but by a begin, and none is
      closed but by a close. */
  predicate Ages(ses: Session, later: Session, step: Step, sid: nat) {
    && later.transactional == ses.transactional
    && (ses.closed ==> later == ses)
    && (!ses.active && later.active ==> step.Began? && step.sid == sid && ses.transactional)
    && (!ses.closed && later.closed ==> step.Closed? && step.sid == sid && !later.active)
  }

  lemma StepAges(s: Sys, step: Step, sid: nat)
    requires sid in s.sessions && Exclusive(s)
    ensures sid in Next(s, step).sessions && Ages(s.sessions[sid], Next(s, step).sessions[sid], step, sid)
  {
    if (Executes(step) || Manages(step)) && Refused(s, step) {
      RefusedChangesNothing(s, step);
    } else if step.ConsumedAndPublished? {
      PublishAges(s, step, sid);
    } else if step.Acknowledged? {
      AckAges(s, step, sid);
    } else if Manages(step) {
      ManageAges(s, step, sid);
    } else {
      OtherAges(s, step, sid);
    }
  }

  lemma PublishAges(s: Sys, step: Step, sid: nat)
    requires sid in s.sessions && Exclusive(s) && step.ConsumedAndPublished? && !Refused(s, step)
    ensures sid in Next(s, step).sessions && Ages(s.sessions[sid], Next(s, step).sessions[sid], step, sid)
  {
    if s.sessions[step.sid].active || OpensOwn(s, step.sid, step.tx) {
      assert s.sessions[step.sid].active ==> SomeActive(s.sessions);
      AttemptedBridge(s, step.sid, step.k, step.t, step.outputs, step.tx);
      var a := Attempted(s, step.sid, step.k, step.t, step.outputs, step.tx);
      if s.sessions[step.sid].active { InnerNext(s, step, a); } else { OwnNext(s, step, a); }
    }
  }

  lemma AckAges(s: Sys, step: Step, sid: nat)
    requires sid in s.sessions && step.Acknowledged? && !Refused(s, step)
    ensures sid in Next(s, step).sessions && Ages(s.sessions[sid], Next(s, step).sessions[sid], step, sid)
  {
  }

  lemma ManageAges(s: Sys, step: Step, sid: nat)
    requires sid in s.sessions && Manages(step) && !Refused(s, step)
    ensures sid in Next(s, step).sessions && Ages(s.sessions[sid], Next(s, step).sessions[sid], step, sid)
  {
  }

  lemma OtherAges(s: Sys, step: Step, sid: nat)
    requires sid in s.sessions && !Manages(step) && !step.ConsumedAndPublished? && !step.Acknowledged?
    ensures sid in Next(s, step).sessions && Next(s, step).sessions[sid] == s.sessions[sid]
  {
  }

  lemma NewSessions(s: Sys, step: Step, sid: nat)
    requires sid !in s.sessions && sid in Next(s, step).sessions && Exclusive(s)
    ensures step.Opened? && step.sid == sid
    ensures Next(s, step).sessions[sid] == Session(step.transactional, false, false, {})
  {
  }

  /** Over every run only transactional sessions that are open are ever active. */
  lemma {:induction false} RunProper(s: Sys, steps: seq<Step>)
    requires Init(s)
    ensures Proper(Run(s, steps))
  {
    if steps != [] {
      var before, last := Run(s, steps[..|steps| - 1]), steps[|steps| - 1];
      RunProper(s, steps[..|steps| - 1]);
      MutualExclusion(s, steps[..|steps| - 1]);
      StepProper(before, last);
    }
  }

  lemma StepProper(s: Sys, step: Step)
    requires Proper(s) && Exclusive(s)
    ensures Proper(Next(s, step))
  {
    var s' := Next(s, step);
    forall sid | sid in s'.sessions && s'.sessions[sid].active
      ensures s'.sessions[sid].transactional && !s'.sessions[sid].closed
    {
      if sid in s.sessions { StepAges(s, step, sid); } else { NewSessions(s, step, sid); }
    }
  }

  /** A session that is closed stays so, and no call of it does anything more. */
  lemma {:induction false} ClosedForGood(s: Sys, steps: seq<Step>, i: nat, j: nat, sid: nat)
    requires Init(s) && i <= j < |steps| && sid in Run(s, steps[..i]).sessions
    requires Run(s, steps[..i]).sessions[sid].closed
    ensures sid in Run(s, steps[..j]).sessions && Run(s, steps[..j]).sessions[sid].closed
    ensures (Executes(steps[j]) || Manages(steps[j])) && steps[j].sid == sid ==>
              Next(Run(s, steps[..j]), steps[j]) == Run(s, steps[..j])
    decreases j
  {
    if i < j {
      ClosedForGood(s, steps, i, j - 1, sid);
      MutualExclusion(s, steps[..j - 1]);
      assert steps[..j][..j - 1] == steps[..j - 1];
      StepAges(Run(s, steps[..j - 1]), steps[j - 1], sid);
    }
    if (Executes(steps[j]) || Manages(steps[j])) && steps[j].sid == sid {
      RefusedChangesNothing(Run(s, steps[..j]), steps[j]);
    }
  }
}
