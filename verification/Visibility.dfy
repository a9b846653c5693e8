/** Which published events become visible, and when: those published outside a transaction at once, those inside with
    its commit, and no others. */
module Visibility {
  import opened Basics
  import opened ConsumerGroup
  import opened Transactions
  import opened Runtime
  import opened RuntimeSafety
  import opened DurableRuns
  import opened CommittedOffsets

  // ------------------------------------------------------------ what a step publishes

  /** As many of the events as the client has taken. */
  function FirstOf(events: seq<Event>, taken: nat): (r: seq<Event>)
    ensures |r| == (if taken < |events| then taken else |events|) && r == events[..|r|]
  {
    events[..if taken < |events| then taken else |events|]
  }

  /** The events that a step hands to the producer client. */
  function Puts(s: Sys, step: Step): seq<Event> {
    match step
    case Published(sid, events, taken) => if CanExecute(s, sid) then FirstOf(events, taken) else []
    case ConsumedAndPublished(sid, _, _, outputs, tx) =>
      if CanExecute(s, sid) && (s.sessions[sid].active || OpensOwn(s, sid, tx)) then FirstOf(outputs, tx.produced)
      else []
    case _ => []
  }

  /** The step puts events into the open transaction of a session. */
  predicate Inside(s: Sys, step: Step, sid: nat) {
    (step.Published? || step.ConsumedAndPublished?) && step.sid == sid && InTx(s, sid)
  }

  /** The step publishes outside a transaction. */
  predicate Directly(s: Sys, step: Step) {
    step.Published? && CanExecute(s, step.sid) && !s.sessions[step.sid].active
  }

  /** The step is a consume-publish in a transaction of its own that commits. */
  predicate CommitsOwn(s: Sys, step: Step) {
    step.ConsumedAndPublished? && CanExecute(s, step.sid) && !s.sessions[step.sid].active && OwnCommits(s, step)
  }

  predicate Commits(s: Sys, step: Step, sid: nat) {
    step.Committed? && step.sid == sid && step.commitOk && InTx(s, sid)
  }

  predicate Ends(s: Sys, step: Step, sid: nat) {
    (step.Committed? || step.RolledBack? || step.Closed?) && step.sid == sid && InTx(s, sid)
  }

  // ------------------------------------------------------------ one step

  lemma TakenIs(events: seq<Event>, n: nat)
    ensures Taken(events, n) == FirstOf(events, n)
  {
  }

  lemma PublishedShows(s: Sys, step: Step)
    requires step.Published?
    ensures var s' := Next(s, step);
            && s'.visible == (if Directly(s, step) then s.visible + Puts(s, step) else s.visible)
            && s'.buffered == if Inside(s, step, step.sid) then s.buffered + Puts(s, step) else s.buffered
  {
    TakenIs(step.events, step.produced);
  }

  lemma InnerShows(s: Sys, step: Step)
    requires Exclusive(s) && Settled(s)
    requires step.ConsumedAndPublished? && CanExecute(s, step.sid) && s.sessions[step.sid].active
    ensures var s' := Next(s, step); s'.visible == s.visible && s'.buffered == s.buffered + Puts(s, step)
  {
    var a := Attempted(s, step.sid, step.k, step.t, step.outputs, step.tx);
    AttemptedBridge(s, step.sid, step.k, step.t, step.outputs, step.tx);
    InnerNext(s, step, a);
    TakenIs(step.outputs, step.tx.produced);
    AttemptBuffers(s, step, a);
  }

  lemma AttemptBuffers(s: Sys, step: Step, a: Sys)
    requires step.ConsumedAndPublished? && step.sid in s.sessions
    requires a == Attempted(s, step.sid, step.k, step.t, step.outputs, step.tx)
    ensures a.visible == s.visible && a.buffered == s.buffered + Taken(step.outputs, step.tx.produced)
  {
  }

  lemma OwnShows(s: Sys, step: Step)
    requires Exclusive(s) && Settled(s)
    requires step.ConsumedAndPublished? && CanExecute(s, step.sid) && !s.sessions[step.sid].active
    ensures var s' := Next(s, step);
            && s'.visible == (if CommitsOwn(s, step) then s.visible + Puts(s, step) else s.visible)
            && s'.buffered == s.buffered
  {
    var a := Attempted(s, step.sid, step.k, step.t, step.outputs, step.tx);
    if OpensOwn(s, step.sid, step.tx) {
      AttemptedBridge(s, step.sid, step.k, step.t, step.outputs, step.tx);
      OwnNext(s, step, a);
      AttemptBuffers(s, step, a);
      TakenIs(step.outputs, step.tx.produced);
      assert s.buffered == [];
    } else {
      assert Next(s, step) == s;
    }
  }

  lemma EndShows(s: Sys, step: Step)
    requires step.Committed? || step.RolledBack? || step.Closed?
    ensures var s' := Next(s, step);
            && s'.visible == (if Commits(s, step, step.sid) then s.visible + s.buffered else s.visible)
            && s'.buffered == if Ends(s, step, step.sid) then [] else s.buffered
  {
  }

  lemma OtherShows(s: Sys, step: Step)
    requires !step.Published? && !step.ConsumedAndPublished? && !step.Committed? && !step.RolledBack? && !step.Closed?
    ensures Next(s, step).visible == s.visible && Next(s, step).buffered == s.buffered
  {
  }

  /** What a step makes visible. */
  function Adds(s: Sys, step: Step): seq<Event> {
    if Directly(s, step) || CommitsOwn(s, step) then Puts(s, step)
    else if step.Committed? && Commits(s, step, step.sid) then s.buffered
    else []
  }

  lemma StepShows(s: Sys, step: Step)
    requires Exclusive(s) && Settled(s)
    ensures Next(s, step).visible == s.visible + Adds(s, step)
  {
    if step.Published? { PublishedShows(s, step); }
    else if step.Committed? || step.RolledBack? || step.Closed? { EndShows(s, step); }
    else if !step.ConsumedAndPublished? { OtherShows(s, step); }
    else if CanExecute(s, step.sid) {
      if s.sessions[step.sid].active { InnerShows(s, step); } else { OwnShows(s, step); }
    }
  }

  /** A rollback, a close and a commit that fails show nothing and leave every committed offset. */
  lemma FailedEndShowsNothing(s: Sys, step: Step, k: Key)
    requires step.RolledBack? || step.Closed? || (step.Committed? && !step.commitOk)
    ensures var s' := Next(s, step);
            && s'.visible == s.visible && (InTx(s, step.sid) ==> s'.buffered == [])
            && (k in s.worlds ==> k in s'.worlds && s'.worlds[k].committed == s.worlds[k].committed)
  {
    EndShows(s, step);
    if k in s.worlds { AbortSets(s, step, k); }
  }

  // ------------------------------------------------------------ the open transaction

  /** The events that a session has put into its transaction by the steps from b up to n. */
  function TxPuts(s: Sys, steps: seq<Step>, b: nat, n: nat, sid: nat): seq<Event>
    requires n <= |steps|
    decreases n
  {
    if n <= b then []
    else
      var at := Run(s, steps[..n - 1]);
      TxPuts(s, steps, b, n - 1, sid) + if Inside(at, steps[n - 1], sid) then Puts(at, steps[n - 1]) else []
  }

  /** Since when the transaction that a session has open after n steps has been open. */
  function Since(s: Sys, steps: seq<Step>, n: nat, sid: nat): (b: nat)
    requires n <= |steps|
    ensures b <= n && forall i :: b <= i < n ==> InTx(Run(s, steps[..i]), sid)
    ensures b > 0 ==> !InTx(Run(s, steps[..b - 1]), sid)
  {
    if n == 0 || !InTx(Run(s, steps[..n - 1]), sid) then n else Since(s, steps, n - 1, sid)
  }

  lemma RunNext(s: Sys, steps: seq<Step>, n: nat)
    requires n < |steps|
    ensures Run(s, steps[..n + 1]) == Next(Run(s, steps[..n]), steps[n])
  {
    assert steps[..n + 1][..n] == steps[..n];
  }

  /** A transaction begins empty, and only by a begin. */
  lemma BeginsEmpty(s: Sys, step: Step, sid: nat)
    requires Exclusive(s) && Settled(s) && !InTx(s, sid) && InTx(Next(s, step), sid)
    ensures step.Began? && step.sid == sid && Next(s, step).buffered == []
  {
    if step.ConsumedAndPublished? && CanExecute(s, step.sid) {
      if s.sessions[step.sid].active || OpensOwn(s, step.sid, step.tx) {
        AttemptedBridge(s, step.sid, step.k, step.t, step.outputs, step.tx);
      }
    }
  }

  /** Who has a transaction open has the only one, so nobody else's step changes what is in it. */
  lemma StaysOpen(s: Sys, step: Step, sid: nat)
    requires Exclusive(s) && Settled(s) && InTx(s, sid) && InTx(Next(s, step), sid)
    ensures Next(s, step).buffered == s.buffered + if Inside(s, step, sid) then Puts(s, step) else []
  {
    assert SomeActive(s.sessions);
    if step.Published? {
      PublishedShows(s, step);
      assert Inside(s, step, step.sid) ==> step.sid == sid;
    } else if step.ConsumedAndPublished? && CanExecute(s, step.sid) {
      if s.sessions[step.sid].active { InnerShows(s, step); } else { OwnShows(s, step); }
    } else if step.Committed? || step.RolledBack? || step.Closed? {
      EndShows(s, step);
      EndsOpen(s, step, sid);
    } else if !step.ConsumedAndPublished? {
      OtherShows(s, step);
    }
  }

  lemma EndsOpen(s: Sys, step: Step, sid: nat)
    requires AtMostOneActive(s.sessions) && InTx(s, sid) && InTx(Next(s, step), sid)
    requires step.Committed? || step.RolledBack? || step.Closed?
    ensures !Ends(s, step, step.sid)
  {
  }

  lemma {:induction false} BufferedIs(s: Sys, steps: seq<Step>, n: nat, sid: nat)
    requires Init(s) && n <= |steps| && InTx(Run(s, steps[..n]), sid)
    ensures Run(s, steps[..n]).buffered == TxPuts(s, steps, Since(s, steps, n, sid), n, sid)
  {
    if n > 0 {
      var before := Run(s, steps[..n - 1]);
      MutualExclusion(s, steps[..n - 1]);
      RunNext(s, steps, n - 1);
      if InTx(before, sid) {
        BufferedIs(s, steps, n - 1, sid);
        StaysOpen(before, steps[n - 1], sid);
      } else {
        BeginsEmpty(before, steps[n - 1], sid);
      }
    }
  }

  // ------------------------------------------------------------ whole runs

  /** A commit that goes through shows exactly what was published since its begin, in order. */
  lemma CommitShows(s: Sys, steps: seq<Step>, b: nat, n: nat, sid: nat)
    requires Init(s) && b < n < |steps| && steps[b].Began? && steps[b].sid == sid && !InTx(Run(s, steps[..b]), sid)
    requires forall i :: b < i <= n ==> InTx(Run(s, steps[..i]), sid)
    requires steps[n].Committed? && steps[n].sid == sid && steps[n].commitOk
    ensures Run(s, steps[..n + 1]).visible == Run(s, steps[..n]).visible + TxPuts(s, steps, b + 1, n, sid)
  {
    ShownAt(s, steps, n);
    SinceIs(s, steps, b, n, sid);
    CommitIs(s, steps, n, sid);
  }

  lemma CommitIs(s: Sys, steps: seq<Step>, n: nat, sid: nat)
    requires n < |steps| && Commits(Run(s, steps[..n]), steps[n], sid)
    ensures Shows(s, steps, n) == TxPuts(s, steps, Since(s, steps, n, sid), n, sid)
  {
  }

  lemma {:induction false} SinceIs(s: Sys, steps: seq<Step>, b: nat, n: nat, sid: nat)
    requires b < n <= |steps| && !InTx(Run(s, steps[..b]), sid)
    requires forall i :: b < i <= n ==> InTx(Run(s, steps[..i]), sid)
    ensures Since(s, steps, n, sid) == b + 1
    decreases n
  {
    if b + 1 < n { SinceIs(s, steps, b, n - 1, sid); }
  }

  /** What a step of a run makes visible, told by what the run has published. */
  function Shows(s: Sys, steps: seq<Step>, n: nat): seq<Event>
    requires n < |steps|
  {
    var at, step := Run(s, steps[..n]), steps[n];
    if Directly(at, step) || CommitsOwn(at, step) then Puts(at, step)
    else if step.Committed? && Commits(at, step, step.sid)
    then TxPuts(s, steps, Since(s, steps, n, step.sid), n, step.sid)
    else []
  }

  function AllShown(s: Sys, steps: seq<Step>, n: nat): seq<Event>
    requires n <= |steps|
  {
    if n == 0 then [] else AllShown(s, steps, n - 1) + Shows(s, steps, n - 1)
  }

  lemma ShownAt(s: Sys, steps: seq<Step>, n: nat)
    requires Init(s) && n < |steps|
    ensures Run(s, steps[..n + 1]).visible == Run(s, steps[..n]).visible + Shows(s, steps, n)
  {
    var at := Run(s, steps[..n]);
    MutualExclusion(s, steps[..n]);
    RunNext(s, steps, n);
    StepShows(at, steps[n]);
    if steps[n].Committed? && Commits(at, steps[n], steps[n].sid) { BufferedIs(s, steps, n, steps[n].sid); }
  }

  /** Over every run, visible is what was published outside a transaction or in one of its own that committed, and with
      each commit what was published inside since the transaction began; in that order, and nothing else. */
  lemma {:induction false} VisibleIs(s: Sys, steps: seq<Step>, n: nat)
    requires Init(s) && n <= |steps|
    ensures Run(s, steps[..n]).visible == s.visible + AllShown(s, steps, n)
  {
    if n > 0 {
      VisibleIs(s, steps, n - 1);
      ShownAt(s, steps, n - 1);
      Associates(s.visible, AllShown(s, steps, n - 1), Shows(s, steps, n - 1));
    }
  }

  lemma Associates(a: seq<Event>, b: seq<Event>, c: seq<Event>)
    ensures a + b + c == a + (b + c)
  {
  }

  /** The step publishes the event. */
  predicate PutAt(s: Sys, steps: seq<Step>, i: nat, e: Event)
    requires i < |steps|
  {
    e in Puts(Run(s, steps[..i]), steps[i])
  }

  /** What step i publishes becomes visible by the n steps: at once, or by a commit of the transaction that it published
      in, which stays open until then. */
  ghost predicate Released(s: Sys, steps: seq<Step>, i: nat, n: nat)
    requires i < n <= |steps|
  {
    var at := Run(s, steps[..i]);
    || Directly(at, steps[i]) || CommitsOwn(at, steps[i])
    || exists j :: i < j < n && ReleasedBy(s, steps, i, j)
  }

  ghost predicate ReleasedBy(s: Sys, steps: seq<Step>, i: nat, j: nat)
    requires i < j < |steps|
  {
    && (steps[i].Published? || steps[i].ConsumedAndPublished?)
    && Commits(Run(s, steps[..j]), steps[j], steps[i].sid)
    && forall m :: i <= m <= j ==> InTx(Run(s, steps[..m]), steps[i].sid)
  }

  lemma {:induction false} PutInside(s: Sys, steps: seq<Step>, b: nat, n: nat, sid: nat, e: Event) returns (i: nat)
    requires n <= |steps| && e in TxPuts(s, steps, b, n, sid)
    ensures b <= i < n && Inside(Run(s, steps[..i]), steps[i], sid) && PutAt(s, steps, i, e)
    decreases n
  {
    if e in TxPuts(s, steps, b, n - 1, sid) {
      i := PutInside(s, steps, b, n - 1, sid, e);
    } else {
      i := n - 1;
    }
  }

  /** What a step makes visible was published by a step whose events that releases. */
  lemma ShownWasReleased(s: Sys, steps: seq<Step>, n: nat, e: Event) returns (i: nat)
    requires n < |steps| && e in Shows(s, steps, n)
    ensures i <= n && PutAt(s, steps, i, e) && Released(s, steps, i, n + 1)
  {
    var at, step := Run(s, steps[..n]), steps[n];
    if Directly(at, step) || CommitsOwn(at, step) {
      i := n;
    } else {
      i := PutInside(s, steps, Since(s, steps, n, step.sid), n, step.sid, e);
      assert ReleasedBy(s, steps, i, n);
    }
  }

  lemma {:induction false} AllShownReleased(s: Sys, steps: seq<Step>, n: nat, e: Event) returns (i: nat)
    requires n <= |steps| && e in AllShown(s, steps, n)
    ensures i < n && PutAt(s, steps, i, e) && Released(s, steps, i, n)
  {
    if e in AllShown(s, steps, n - 1) {
      i := AllShownReleased(s, steps, n - 1, e);
    } else {
      i := ShownWasReleased(s, steps, n - 1, e);
    }
  }

  /** Every visible event was there at first, or was published by a step whose events were released. */
  lemma VisibleWasReleased(s: Sys, steps: seq<Step>, n: nat, e: Event) returns (i: nat)
    requires Init(s) && n <= |steps| && e in Run(s, steps[..n]).visible && e !in s.visible
    ensures i < n && PutAt(s, steps, i, e) && Released(s, steps, i, n)
  {
    VisibleIs(s, steps, n);
    i := AllShownReleased(s, steps, n, e);
  }

  lemma {:induction false} ShownGrows(s: Sys, steps: seq<Step>, i: nat, j: nat) returns (more: seq<Event>)
    requires i <= j <= |steps|
    ensures AllShown(s, steps, j) == AllShown(s, steps, i) + more
    decreases j
  {
    more := [];
    if i < j {
      var first := ShownGrows(s, steps, i, j - 1);
      more := first + Shows(s, steps, j - 1);
      Associates(AllShown(s, steps, i), first, Shows(s, steps, j - 1));
    }
  }

  /** Nothing that is visible goes away. */
  lemma VisibleOnlyGrows(s: Sys, steps: seq<Step>, i: nat, j: nat)
    requires Init(s) && i <= j <= |steps|
    ensures Run(s, steps[..i]).visible <= Run(s, steps[..j]).visible
  {
    VisibleIs(s, steps, i);
    VisibleIs(s, steps, j);
    var more := ShownGrows(s, steps, i, j);
    Associates(s.visible, AllShown(s, steps, i), more);
  }
}
