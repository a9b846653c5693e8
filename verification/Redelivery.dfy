/** What a state of a group can see again of the past, and when it can no longer move on. */
module Redelivery {
  import opened Basics
  import opened ConsumerGroup
  import opened AckOrder
  import D = Durability
  import opened Transactions
  import opened Runtime
  import opened RuntimeSafety
  import opened DurableRuns
  import opened TokenLife

  /** Everything that the state has of a partition, and may go back to, lies at or after an offset. */
  ghost predicate AtOrAfter(g: Group, p: nat, start: nat) {
    && (p in g.fetch ==> start <= g.fetch[p])
    && (forall c :: c in g.inflight && c.partition == p ==> start <= c.offset)
    && (p in g.paused ==> start <= g.paused[p].offset)
  }

  /** How the client and the broker behave: messages come from the fetch position on, expired deliveries were in flight,
      and assignments start at or after the offset. */
  ghost predicate Follows(g: Group, op: Op, p: nat, start: nat) {
    match op
    case OpDeliver(c, _, _, _, _, _) => c.partition == p ==> p in g.fetch && g.fetch[p] <= c.offset
    case OpRewind(rewind) => p in rewind ==> Coord(p, rewind[p]) in g.inflight
    case OpAssigned(starts) => p in starts ==> start <= starts[p]
    case _ => true
  }

  lemma DeliverAfter(g: Group, op: Op, p: nat, start: nat)
    requires op.OpDeliver? && AtOrAfter(g, p, start) && Follows(g, op, p, start)
    ensures AtOrAfter(Apply(g, op), p, start)
  {
    DeliverCounts(g, op.c, op.clock, op.expiresAt, op.decodable, op.minted, op.seekOk);
    DeliverFetch(g, op.c, op.clock, op.expiresAt, op.decodable, op.minted, op.seekOk);
    FieldsAfter(g, Apply(g, op), op.c, p, start);
  }

  lemma FieldsAfter(g: Group, g': Group, c: Coord, p: nat, start: nat)
    requires AtOrAfter(g, p, start) && (c.partition == p ==> start <= c.offset)
    requires g'.fetch == g.fetch[c.partition := c.offset] || g'.fetch == g.fetch[c.partition := c.offset + 1]
    requires g'.paused == g.paused || g'.paused == g.paused - {c.partition}
    requires forall d :: d in g'.inflight ==> d == c || d in g.inflight
    ensures AtOrAfter(g', p, start)
  {
  }

  lemma BackAfter(g: Group, g': Group, c: Coord, resting: Paused, p: nat, start: nat)
    requires AtOrAfter(g, p, start) && c in g.inflight && c.offset == resting.offset
    requires g' == Released(g, c) || g' == g.(inflight := g.inflight - {c})
             || g' == Released(g, c).(paused := g.paused[c.partition := resting])
    ensures AtOrAfter(g', p, start)
  {
  }

  lemma ReleaseAfter(g: Group, g': Group, op: Op, r: NackResult, p: nat, start: nat)
    requires op.OpNack? && AtOrAfter(g, p, start) && g' == Nack(g, op.t, op.policy, op.retryAfter, op.clock, op.env)
    requires r == NackOutcome(g, op.t, op.policy, op.retryAfter, op.env) && (r.Scheduled? || r.SeekFailed?)
    ensures AtOrAfter(g', p, start)
  {
    ReleaseShape(g, g', op.t.coord, op, r);
    BackAfter(g, g', op.t.coord, Paused(op.t.coord.offset, op.clock + op.retryAfter), p, start);
  }

  /** Where it has released the delivery, it has taken the client back to it and may have paused the partition there. */
  lemma ReleaseShape(g: Group, g': Group, c: Coord, op: Op, r: NackResult)
    requires op.OpNack? && c == op.t.coord && g' == Nack(g, op.t, op.policy, op.retryAfter, op.clock, op.env)
    requires r == NackOutcome(g, op.t, op.policy, op.retryAfter, op.env) && (r.Scheduled? || r.SeekFailed?)
    ensures var resting := Paused(c.offset, op.clock + op.retryAfter);
            || g' == Released(g, c) || g' == g.(inflight := g.inflight - {c})
            || g' == Released(g, c).(paused := g.paused[c.partition := resting])
  {
  }

  lemma NackAfter(g: Group, op: Op, p: nat, start: nat)
    requires op.OpNack? && AtOrAfter(g, p, start)
    ensures AtOrAfter(Apply(g, op), p, start)
  {
    var r, g' := NackOutcome(g, op.t, op.policy, op.retryAfter, op.env), Apply(g, op);
    match r
    case DeadLettered(_) => AckAfter(g, op.t, op.env.commitOk, p, start);
    case Scheduled => ReleaseAfter(g, g', op, r, p, start);
    case SeekFailed => ReleaseAfter(g, g', op, r, p, start);
    case _ => assert g' == g;
  }

  lemma AckAfter(g: Group, t: Token, ok: bool, p: nat, start: nat)
    requires AtOrAfter(g, p, start)
    ensures AtOrAfter(Ack(g, t, ok), p, start)
  {
    var g' := Ack(g, t, ok);
    assert g'.fetch == g.fetch && g'.paused == g.paused && forall c :: c in g'.inflight ==> c in g.inflight;
  }

  lemma StepAfter(g: Group, op: Op, p: nat, start: nat)
    requires AtOrAfter(g, p, start) && Follows(g, op, p, start)
    ensures AtOrAfter(Apply(g, op), p, start)
  {
    match op
    case OpDeliver(_, _, _, _, _, _) => DeliverAfter(g, op, p, start);
    case OpAck(t, ok) => AckAfter(g, t, ok, p, start);
    case OpNack(_, _, _, _, _) => NackAfter(g, op, p, start);
    case _ =>
  }

  ghost predicate FollowsAll(g: Group, ops: seq<Op>, p: nat, start: nat) {
    forall i {:trigger FollowsAt(g, ops, p, start, i)} :: 0 <= i < |ops| ==> FollowsAt(g, ops, p, start, i)
  }

  ghost predicate FollowsAt(g: Group, ops: seq<Op>, p: nat, start: nat, i: nat)
    requires i < |ops|
  {
    Follows(Exec(g, ops[..i]), ops[i], p, start)
  }

  lemma PrefixFollows(g: Group, ops: seq<Op>, n: nat, p: nat, start: nat)
    requires FollowsAll(g, ops, p, start) && n <= |ops|
    ensures FollowsAll(g, ops[..n], p, start)
  {
    var rest := ops[..n];
    forall i | 0 <= i < n ensures FollowsAt(g, rest, p, start, i) {
      assert FollowsAt(g, ops, p, start, i) && rest[..i] == ops[..i];
    }
  }

  lemma {:induction false} RunAfter(g: Group, ops: seq<Op>, p: nat, start: nat)
    requires AtOrAfter(g, p, start) && FollowsAll(g, ops, p, start)
    ensures AtOrAfter(Exec(g, ops), p, start)
  {
    if ops != [] {
      var n := |ops| - 1;
      PrefixFollows(g, ops, n, p, start);
      RunAfter(g, ops[..n], p, start);
      assert FollowsAt(g, ops, p, start, n);
      StepAfter(Exec(g, ops[..n]), ops[n], p, start);
    }
  }

  /** A state that has nothing before an offset, and whose assignments start at or after it, sees no message before
      it. */
  lemma NothingBefore(g: Group, ops: seq<Op>, i: nat, p: nat, start: nat)
    requires AtOrAfter(g, p, start) && FollowsAll(g, ops, p, start)
    requires i < |ops| && ops[i].OpDeliver? && ops[i].c.partition == p
    ensures start <= ops[i].c.offset
  {
    PrefixFollows(g, ops, i, p, start);
    RunAfter(g, ops[..i], p, start);
    assert FollowsAt(g, ops, p, start, i);
  }

  // ------------------------------------------------------------ which records a state can see again

  /** What can happen between two assignments: messages in the order of the log without passing over a record, complete
      expiry passes, and anything that the caller does. */
  ghost predicate Behaves(g: Group, op: Op, records: set<Coord>) {
    match op
    case OpDeliver(c, _, _, decodable, _, _) =>
      && c.partition in g.fetch && g.fetch[c.partition] <= c.offset && (c in records ==> decodable)
      && forall o :: g.fetch[c.partition] <= o < c.offset ==> Coord(c.partition, o) !in records
    case OpRewind(rewind) => exists now :: LeastExpired(g, now, rewind)
    case OpAssigned(_) => false
    case _ => true
  }

  ghost predicate BehavesAll(g: Group, ops: seq<Op>, records: set<Coord>) {
    forall i {:trigger BehavesAt(g, ops, records, i)} :: 0 <= i < |ops| ==> BehavesAt(g, ops, records, i)
  }

  ghost predicate BehavesAt(g: Group, ops: seq<Op>, records: set<Coord>, i: nat)
    requires i < |ops|
  {
    Behaves(Exec(g, ops[..i]), ops[i], records)
  }

  /** The run ends with a delivery of `c`. */
  ghost predicate HandsOut(g: Group, ops: seq<Op>, c: Coord) {
    ops != [] && var last := Issues(Exec(g, ops[..|ops| - 1]), ops[|ops| - 1]); last.Some? && last.value.coord == c
  }

  /** A state can come to deliver `c` before the next assignment. */
  ghost predicate CanSee(g: Group, records: set<Coord>, c: Coord) {
    exists ops :: BehavesAll(g, ops, records) && HandsOut(g, ops, c)
  }

  lemma BehavesFollows(g: Group, ops: seq<Op>, records: set<Coord>, p: nat, start: nat)
    requires BehavesAll(g, ops, records)
    ensures FollowsAll(g, ops, p, start)
  {
    forall i | 0 <= i < |ops| ensures FollowsAt(g, ops, p, start, i) {
      assert BehavesAt(g, ops, records, i);
      var mid := Exec(g, ops[..i]);
      if ops[i].OpRewind? && p in ops[i].rewind {
        var now :| LeastExpired(mid, now, ops[i].rewind);
        assert ExpiredAt(mid, now, Coord(p, ops[i].rewind[p]));
      }
    }
  }

  lemma BehavesFirst(g: Group, op: Op, ops: seq<Op>, records: set<Coord>, c: Coord)
    requires Behaves(g, op, records) && BehavesAll(Apply(g, op), ops, records) && HandsOut(Apply(g, op), ops, c)
    ensures BehavesAll(g, [op] + ops, records) && HandsOut(g, [op] + ops, c)
  {
    var all := [op] + ops;
    forall i | 0 <= i < |all| ensures BehavesAt(g, all, records, i) {
      if i == 0 {
        assert all[..0] == [];
      } else {
        FirstOp(g, op, ops[..i - 1]);
        assert all[..i] == [op] + ops[..i - 1] && BehavesAt(Apply(g, op), ops, records, i - 1);
      }
    }
    FirstOp(g, op, ops[..|ops| - 1]);
    assert all[..|all| - 1] == [op] + ops[..|ops| - 1];
  }

  lemma FirstOp(g: Group, op: Op, ops: seq<Op>)
    ensures Exec(g, [op] + ops) == Exec(Apply(g, op), ops)
  {
    ExecSplit(g, [op], ops);
    assert [op][..0] == [];
    assert Exec(g, [op]) == Apply(g, op);
  }

  /** A message that is taken at once, even where its partition is held back. */
  function Taken(g: Group, c: Coord): Op {
    OpDeliver(c, if c.partition in g.paused then g.paused[c.partition].resumeAt else 0, 0, true, true, true)
  }

  lemma TakenMeaning(g: Group, c: Coord)
    ensures Issues(g, Taken(g, c)).Some? && Issues(g, Taken(g, c)).value.coord == c
    ensures Apply(g, Taken(g, c)).fetch == g.fetch[c.partition := c.offset + 1]
  {
    var op := Taken(g, c);
    DeliverFetch(g, c, op.clock, op.expiresAt, op.decodable, op.minted, op.seekOk);
  }

  /** From a fetch position at or before a record the messages lead to it, one after the other. */
  lemma {:induction false} Reach(g: Group, records: set<Coord>, c: Coord, o: nat) returns (ops: seq<Op>)
    requires c in records && c.partition in g.fetch && g.fetch[c.partition] <= o <= c.offset
    requires forall x :: g.fetch[c.partition] <= x < o ==> Coord(c.partition, x) !in records
    ensures BehavesAll(g, ops, records) && HandsOut(g, ops, c)
    decreases c.offset - o
  {
    var d := Coord(c.partition, o);
    if o == c.offset {
      TakenMeaning(g, c);
      ops := [Taken(g, c)];
      assert ops[..0] == [] && c == d;
      assert BehavesAt(g, ops, records, 0);
    } else if d in records {
      var op := Taken(g, d);
      TakenMeaning(g, d);
      var rest := Reach(Apply(g, op), records, c, o + 1);
      BehavesFirst(g, op, rest, records, c);
      ops := [op] + rest;
    } else {
      ops := Reach(g, records, c, o + 1);
    }
  }

  lemma {:induction false} LeastOver(cs: set<Coord>) returns (r: map<nat, nat>)
    ensures forall c :: c in cs ==> c.partition in r && r[c.partition] <= c.offset
    ensures forall p :: p in r ==> Coord(p, r[p]) in cs
    decreases cs
  {
    r := map[];
    if cs != {} {
      var c :| c in cs;
      var rest := LeastOver(cs - {c});
      r := if c.partition in rest && rest[c.partition] <= c.offset then rest else rest[c.partition := c.offset];
    }
  }

  lemma LeastExists(g: Group, now: int) returns (r: map<nat, nat>)
    ensures LeastExpired(g, now, r)
  {
    var expired := set c | c in g.inflight && g.inflight[c].expiresAt <= now;
    r := LeastOver(expired);
    assert forall c :: ExpiredAt(g, now, c) <==> c in expired;
  }

  /** What is in flight or paused at or before an offset brings the client back to it. */
  lemma GoesBack(g: Group, records: set<Coord>, c: Coord) returns (op: Op)
    requires !AtOrAfter(g, c.partition, c.offset + 1)
    requires c.partition in g.fetch ==> c.offset < g.fetch[c.partition]
    ensures Behaves(g, op, records)
    ensures c.partition in Apply(g, op).fetch && Apply(g, op).fetch[c.partition] <= c.offset
  {
    var p := c.partition;
    if p in g.paused && g.paused[p].offset <= c.offset {
      op := OpResume({p}, {});
      assert p in PausedAt(g.paused, {p} + {});
    } else {
      var d :| d in g.inflight && d.partition == p && d.offset <= c.offset;
      var r := LeastExists(g, g.inflight[d].expiresAt);
      assert ExpiredAt(g, g.inflight[d].expiresAt, d);
      op := OpRewind(r);
    }
  }

  /** Before the next assignment a state can deliver a retained record iff its fetch position, something in flight or
      something paused in the partition lies at or before it. */
  lemma CanSeeIff(g: Group, records: set<Coord>, c: Coord)
    requires c in records
    ensures CanSee(g, records, c) <==> !AtOrAfter(g, c.partition, c.offset + 1)
  {
    var p := c.partition;
    if CanSee(g, records, c) && AtOrAfter(g, p, c.offset + 1) {
      var ops :| BehavesAll(g, ops, records) && HandsOut(g, ops, c);
      BehavesFollows(g, ops, records, p, c.offset + 1);
      NothingBefore(g, ops, |ops| - 1, p, c.offset + 1);
    }
    if !AtOrAfter(g, p, c.offset + 1) {
      if p in g.fetch && g.fetch[p] <= c.offset {
        var ops := Reach(g, records, c, g.fetch[p]);
      } else {
        var op := GoesBack(g, records, c);
        var g' := Apply(g, op);
        var rest := Reach(g', records, c, g'.fetch[p]);
        BehavesFirst(g, op, rest, records, c);
      }
    }
  }

  /** A new state can deliver a retained record of a partition that it starts at the committed offset iff that lies at
      or before the record. */
  lemma NewStateSeesIff(w: D.World, starts: map<nat, nat>, c: Coord)
    requires c in w.records && D.StartsAllowed(w, starts) && c.partition in starts && c.partition in w.committed
    ensures CanSee(ConsumerGroup.Assigned(FRESH, starts), w.records, c) <==> w.committed[c.partition] <= c.offset
  {
    CanSeeIff(ConsumerGroup.Assigned(FRESH, starts), w.records, c);
  }

  // ------------------------------------------------------------ outputs that are published again

  lemma OwnLive(s: Sys, step: Step)
    requires Good(s) && step.ConsumedAndPublished? && CanExecute(s, step.sid) && !s.sessions[step.sid].active
    requires OwnCommits(s, step)
    ensures Live(s, step.k).Some? && Live(Next(s, step), step.k) == Some(Ack(Live(s, step.k).value, step.t, true))
    ensures Current(Live(s, step.k).value, step.t)
  {
    var a := Attempted(s, step.sid, step.k, step.t, step.outputs, step.tx);
    AttemptLive(s, step, a);
    OwnNext(s, step, a);
    CommitLive(a, step.sid, step.k);
  }

  lemma AttemptLive(s: Sys, step: Step, a: Sys)
    requires step.ConsumedAndPublished? && CanExecute(s, step.sid) && !s.sessions[step.sid].active
    requires OwnCommits(s, step) && a == Attempted(s, step.sid, step.k, step.t, step.outputs, step.tx)
    ensures Live(s, step.k).Some? && Live(a, step.k) == Some(Ack(Live(s, step.k).value, step.t, true))
    ensures Current(Live(s, step.k).value, step.t) && a.sessions.Keys == s.sessions.Keys
  {
    var begun := s.(bridge := Begin(s.bridge, step.tx.beginOk));
    assert Live(begun, step.k) == Live(s, step.k);
  }

  lemma CommitLive(a: Sys, sid: nat, k: Key)
    requires sid in a.sessions
    ensures Live(Untouch(CommitTx(a), sid), k) == Live(a, k)
  {
  }

  /** A consume-publish of its own that committed. The state that did it can deliver its record again, and so publish
      its outputs again, iff it is not past the record with everything it has. A later state can iff the committed
      offset that it starts from is not past it, which it is after this step iff the step advanced the safe position or
      it was before. */
  lemma PublishedAgainIff(s: Sys, step: Step)
    requires Good(s) && step.ConsumedAndPublished? && step.k in s.worlds && step.t.coord in s.worlds[step.k].records
    requires CanExecute(s, step.sid) && !s.sessions[step.sid].active && OwnCommits(s, step)
    ensures var w, w', c := s.worlds[step.k], Next(s, step).worlds[step.k], step.t.coord;
            && w.live.Some? && w'.live == Some(Ack(w.live.value, step.t, true))
            && (CanSee(w'.live.value, w.records, c) <==>
                !AtOrAfter(Ack(w.live.value, step.t, true), c.partition, c.offset + 1))
            && (c.partition in w'.committed && c.offset < w'.committed[c.partition] <==>
                Advances(w.live.value, c) || (c.partition in w.committed && c.offset < w.committed[c.partition]))
  {
    var w, c := s.worlds[step.k], step.t.coord;
    OwnLive(s, step);
    SealedIff(s, step);
    CanSeeIff(Ack(w.live.value, step.t, true), w.records, c);
  }

  lemma SealedIff(s: Sys, step: Step)
    requires Good(s) && step.ConsumedAndPublished? && step.k in s.worlds
    requires CanExecute(s, step.sid) && !s.sessions[step.sid].active && OwnCommits(s, step) && Live(s, step.k).Some?
    ensures var w, w', c := s.worlds[step.k], Next(s, step).worlds[step.k], step.t.coord;
            c.partition in w'.committed && c.offset < w'.committed[c.partition] <==>
            Advances(w.live.value, c) || (c.partition in w.committed && c.offset < w.committed[c.partition])
  {
    var w, c := s.worlds[step.k], step.t.coord;
    OwnCommitted(s, step);
    assert D.Kept(w, TouchedBy(s.sessions, step.k), StagedFor(s.bridge, step.k));
    if Advances(w.live.value, c) {
      AdvanceAtSafe(w.live.value, step.t);
    }
  }

  // ------------------------------------------------------------ partitions that cannot move on

  /** The state has come back to a partition past its own safe position: it will see nothing that could advance it. */
  ghost predicate Stuck(g: Group, p: nat, start: nat) {
    Sound(g) && AtOrAfter(g, p, start) && p in g.safe && g.safe[p] < start
  }

  lemma StepStuck(g: Group, op: Op, p: nat, start: nat)
    requires Stuck(g, p, start) && Follows(g, op, p, start) && !op.OpMovedTo?
    ensures Stuck(Apply(g, op), p, start) && Apply(g, op).safe[p] == g.safe[p]
    ensures Commits(g, op).Some? ==> Commits(g, op).value.partition != p
  {
    ApplySound(g, op);
    StepAfter(g, op, p, start);
    if Quiet(g, op) {
      QuietEffect(g, op, p);
    } else {
      var (t, ok) := AckedToken(g, op);
      LoudEffect(g, op, p);
      AckStuck(g, t, ok, p, start);
    }
  }

  lemma AckStuck(g: Group, t: Token, ok: bool, p: nat, start: nat)
    requires Stuck(g, p, start) && Current(g, t)
    ensures p in Ack(g, t, ok).safe && Ack(g, t, ok).safe[p] == g.safe[p]
    ensures t.coord.partition == p ==> !Advances(g, t.coord)
  {
    if t.coord.partition == p && Advances(g, t.coord) { AdvanceAtSafe(g, t); }
  }

  lemma {:induction false} StuckRun(g: Group, ops: seq<Op>, p: nat, start: nat)
    requires Stuck(g, p, start) && FollowsAll(g, ops, p, start) && forall i :: 0 <= i < |ops| ==> !ops[i].OpMovedTo?
    ensures Stuck(Exec(g, ops), p, start) && Exec(g, ops).safe[p] == g.safe[p]
  {
    if ops != [] {
      var n := |ops| - 1;
      PrefixFollows(g, ops, n, p, start);
      StuckRun(g, ops[..n], p, start);
      assert FollowsAt(g, ops, p, start, n);
      StepStuck(Exec(g, ops[..n]), ops[n], p, start);
    }
  }

  /** From then on, and until a position is set, the safe position of the partition stays and nothing of it is
      committed. */
  lemma StuckForever(g: Group, ops: seq<Op>, p: nat, start: nat)
    requires Stuck(g, p, start) && FollowsAll(g, ops, p, start) && forall i :: 0 <= i < |ops| ==> !ops[i].OpMovedTo?
    ensures Stuck(Exec(g, ops), p, start) && Exec(g, ops).safe[p] == g.safe[p]
    ensures forall i :: 0 <= i < |ops| && CommitAt(g, ops, i).Some? ==> CommitAt(g, ops, i).value.partition != p
  {
    StuckRun(g, ops, p, start);
    forall i | 0 <= i < |ops| && CommitAt(g, ops, i).Some? ensures CommitAt(g, ops, i).value.partition != p {
      PrefixFollows(g, ops, i, p, start);
      StuckRun(g, ops[..i], p, start);
      assert FollowsAt(g, ops, p, start, i);
      StepStuck(Exec(g, ops[..i]), ops[i], p, start);
    }
  }
}
