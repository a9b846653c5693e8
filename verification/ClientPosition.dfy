/** What assignments, revokes and set positions leave to the client: which partitions the state owns, and which records
    it can still deliver. */
module ClientPosition {
  import opened Basics
  import opened ConsumerGroup
  import opened AckOrder
  import opened TokenLife
  import opened Redelivery

  // ------------------------------------------------------------ partitions

  /** Assignment i names the partition, there is none after it, and no revoke after it takes the partition away. */
  predicate OwnsSince(ops: seq<Op>, i: nat, p: nat)
    requires i < |ops|
  {
    && ops[i].OpAssigned? && p in ops[i].starts
    && forall j :: i < j < |ops| ==> !ops[j].OpAssigned? && !(ops[j].OpRevoked? && p in ops[j].partitions)
  }

  ghost predicate Owns(ops: seq<Op>, p: nat) {
    exists i :: 0 <= i < |ops| && OwnsSince(ops, i, p)
  }

  lemma OwnedStep(g: Group, op: Op, p: nat)
    ensures p in Apply(g, op).owned <==>
            if op.OpAssigned? then p in op.starts
            else p in g.owned && !(op.OpRevoked? && p in op.partitions)
  {
    match op
    case OpNack(t, policy, retryAfter, clock, env) =>
      assert NackOutcome(g, t, policy, retryAfter, env).DeadLettered? ==> Ack(g, t, env.commitOk).owned == g.owned;
    case _ =>
  }

  lemma OwnedAs(g: Group, op: Op, g': Group, p: nat)
    requires g' == Apply(g, op)
    ensures p in g'.owned <==>
            if op.OpAssigned? then p in op.starts else p in g.owned && !(op.OpRevoked? && p in op.partitions)
  {
    OwnedStep(g, op, p);
  }

  lemma OwnsStep(ops: seq<Op>, op: Op, p: nat)
    ensures Owns(ops + [op], p) <==>
            if op.OpAssigned? then p in op.starts else Owns(ops, p) && !(op.OpRevoked? && p in op.partitions)
  {
    var all, n := ops + [op], |ops|;
    assert all[n] == op && forall i :: 0 <= i < n ==> all[i] == ops[i];
    if op.OpAssigned? {
      assert OwnsSince(all, n, p) <==> p in op.starts;
    } else if Owns(ops, p) && !(op.OpRevoked? && p in op.partitions) {
      var i :| 0 <= i < n && OwnsSince(ops, i, p);
      assert OwnsSince(all, i, p);
    } else if Owns(all, p) {
      var i :| 0 <= i <= n && OwnsSince(all, i, p);
      assert i < n && OwnsSince(ops, i, p);
    }
  }

  /** The state owns what the last assignment named and no revoke has taken away since. */
  lemma {:induction false} OwnedIff(ops: seq<Op>, p: nat)
    ensures p in Exec(FRESH, ops).owned <==> Owns(ops, p)
  {
    if ops != [] {
      var rest, last := ops[..|ops| - 1], ops[|ops| - 1];
      OwnedIff(rest, p);
      OwnsStep(rest, last, p);
      assert ops == rest + [last];
      OwnedAs(Exec(FRESH, rest), last, Exec(FRESH, ops), p);
    }
  }

  /** A revoke takes every partition from the client, also those that the state keeps: the next call that matters to it
      is an assignment or a seek, no message comes before. */
  lemma NoMessageAfterRevoke(g: Group, partitions: set<nat>, op: Op, records: set<Coord>)
    requires Behaves(Revoked(g, partitions), op, records)
    ensures !op.OpDeliver?
  {
  }

  /** An assignment forgets where the client was. */
  lemma AssignedSeesIff(g: Group, starts: map<nat, nat>, records: set<Coord>, c: Coord)
    requires c in records && forall d :: d in g.inflight ==> d.partition != c.partition
    requires c.partition !in g.paused
    ensures CanSee(Assigned(g, starts), records, c) <==> c.partition in starts && starts[c.partition] <= c.offset
  {
    CanSeeIff(Assigned(g, starts), records, c);
  }

  // ------------------------------------------------------------ set positions

  /** Setting the position does not seek the client. Until the next assignment the state delivers a record iff it would
      have come to it anyway, from where it fetches or rests, whatever the target. */
  lemma SetPositionSeesIff(g: Group, target: map<nat, nat>, records: set<Coord>, c: Coord)
    requires c in records
    ensures CanSee(MovedTo(g, target), records, c) <==>
            || (c.partition in g.fetch && g.fetch[c.partition] <= c.offset)
            || (c.partition in g.paused && g.paused[c.partition].offset <= c.offset)
  {
    CanSeeIff(MovedTo(g, target), records, c);
  }

  /** So a position that is set back leaves the partition behind: until it is assigned at the new position or the
      position is set again, the state delivers nothing from there on, and commits nothing. */
  lemma SetBackIsStuck(g: Group, target: map<nat, nat>, p: nat, ops: seq<Op>)
    requires Sound(g) && p in target && p in g.fetch && target[p] < g.fetch[p]
    requires p in g.paused ==> g.fetch[p] <= g.paused[p].offset
    requires FollowsAll(MovedTo(g, target), ops, p, g.fetch[p]) && forall i :: 0 <= i < |ops| ==> !ops[i].OpMovedTo?
    ensures var g' := MovedTo(g, target);
            && p in Exec(g', ops).safe && Exec(g', ops).safe[p] == target[p]
            && (forall i :: 0 <= i < |ops| && CommitAt(g', ops, i).Some? ==>
                  CommitAt(g', ops, i).value.partition != p)
            && (forall i :: 0 <= i < |ops| && ops[i].OpDeliver? && ops[i].c.partition == p ==>
                  g.fetch[p] <= ops[i].c.offset)
  {
    var g', start := MovedTo(g, target), g.fetch[p];
    ApplySound(g, OpMovedTo(target));
    StuckForever(g', ops, p, start);
    forall i | 0 <= i < |ops| && ops[i].OpDeliver? && ops[i].c.partition == p ensures start <= ops[i].c.offset {
      NothingBefore(g', ops, i, p, start);
    }
  }

  /** Record 0 is delivered and acknowledged, and the position is set back to it: the state can never deliver it again
      before an assignment. */
  lemma SetBackCanStrand(c: Coord)
    ensures var ops := [OpAssigned(map[c.partition := c.offset]), OpDeliver(c, 0, 9, true, true, true),
                        OpAck(Token(c, 1, 1), true), OpMovedTo(map[c.partition := c.offset])];
            && CommitAt(FRESH, ops, 2) == Some(Coord(c.partition, c.offset + 1))
            && !CanSee(Exec(FRESH, ops), {c}, c)
  {
    var target := map[c.partition := c.offset];
    FourOps(OpAssigned(target), OpDeliver(c, 0, 9, true, true, true), OpAck(Token(c, 1, 1), true), OpMovedTo(target));
    var g3 := AcknowledgedOnce(c);
    SetPositionSeesIff(g3, target, {c}, c);
  }

  /** A state that was assigned at a record, delivered it and took its acknowledgement. */
  lemma AcknowledgedOnce(c: Coord) returns (g: Group)
    ensures var before := Deliver(Assigned(FRESH, map[c.partition := c.offset]), c, 0, 9, true, true, true);
            && g == Ack(before, Token(c, 1, 1), true) && AckOutcome(before, Token(c, 1, 1), true) == Accepted(true)
            && Drained(before, c).0 == c.offset + 1
    ensures g.fetch == map[c.partition := c.offset + 1] && g.paused == map[]
  {
    var before := Deliver(Assigned(FRESH, map[c.partition := c.offset]), c, 0, 9, true, true, true);
    DrainOne(c.offset);
    assert before.inflight == map[c := Inflight(1, 1, 9)] && before.fetch == map[c.partition := c.offset + 1];
    assert before.safe == map[c.partition := c.offset] && before.acked == map[] && before.paused == map[];
    g := Ack(before, Token(c, 1, 1), true);
  }

  lemma FourOps(a: Op, b: Op, c: Op, d: Op)
    ensures var ops := [a, b, c, d];
            && Exec(FRESH, ops[..2]) == Apply(Apply(FRESH, a), b)
            && Exec(FRESH, ops) == Apply(Apply(Exec(FRESH, ops[..2]), c), d)
  {
    var ops := [a, b, c, d];
    assert ops[..1][..0] == [] && ops[..2][..1] == ops[..1] && ops[..3][..2] == ops[..2] && ops[..4] == ops;
    assert Exec(FRESH, ops[..1]) == Apply(FRESH, a);
    assert Exec(FRESH, ops[..3]) == Apply(Exec(FRESH, ops[..2]), c);
  }

  lemma DrainOne(o: nat)
    ensures Drain(o, {o}) == (o + 1, {})
  {
    assert {o} - {o} == {};
  }
}
