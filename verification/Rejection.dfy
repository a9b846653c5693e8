/** What a negative acknowledgement brings about: when the record comes again, when not before a delay is over, and
    when a dead letter is written instead. */
module Rejection {
  import opened Basics
  import opened ConsumerGroup
  import opened AckOrder
  import opened TokenLife
  import opened Redelivery

  // ------------------------------------------------------------ the dead letter

  /** The rejection went to the dead-letter stream, or tried to. */
  predicate Letters(r: NackResult) {
    r.PublishFailed? || r.LetterTooLate? || r.DeadLettered?
  }

  /** A rejection of a delivery that this state has issued goes to the dead-letter stream, if there is one, from the
      attempt on that the policy names; attempts are counted along the run. */
  lemma LetterIff(ops: seq<Op>, i: nat, t: Token, policy: DeadLetterPolicy, retryAfter: nat, env: NackEnv)
    requires i < |ops| && IssuedAt(FRESH, ops, i) == Some(t) && Resolvable(Exec(FRESH, ops), t)
    ensures Letters(NackOutcome(Exec(FRESH, ops), t, policy, retryAfter, env)) <==>
            policy.hasStream && policy.maxAttempts <= Tries(ops[..i], t.coord) + 1
  {
    IssuedIff(ops[..i], ops[i], t);
  }

  /** The source is acknowledged only behind a letter that was written, and then as an acknowledgement would do it. */
  lemma LetterEffect(g: Group, t: Token, policy: DeadLetterPolicy, retryAfter: nat, clock: int, env: NackEnv)
    requires Letters(NackOutcome(g, t, policy, retryAfter, env))
    ensures var g', r := Nack(g, t, policy, retryAfter, clock, env), NackOutcome(g, t, policy, retryAfter, env);
            if !env.publishOk then r.PublishFailed? && g' == g
            else if !env.unexpired then r.LetterTooLate? && g' == g
            else r == DeadLettered(AckOutcome(g, t, env.commitOk)) && g' == Ack(g, t, env.commitOk)
  {
  }

  // ------------------------------------------------------------ the record comes again

  ghost predicate SameElsewhere<T>(a: map<nat, T>, b: map<nat, T>, p: nat) {
    forall q :: q != p ==> (q in a <==> q in b) && (q in a ==> a[q] == b[q])
  }

  /** A rejection that answers that the record will come again. */
  lemma ScheduledEffect(g: Group, t: Token, policy: DeadLetterPolicy, retryAfter: nat, clock: int, env: NackEnv)
    requires NackOutcome(g, t, policy, retryAfter, env).Scheduled?
    ensures var g', c, p := Nack(g, t, policy, retryAfter, clock, env), t.coord, t.coord.partition;
            && Resolvable(g, t) && env.seekOk && (retryAfter > 0 ==> env.pauseOk)
            && p in g'.fetch && g'.fetch[p] == c.offset
            && SameElsewhere(g'.fetch, g.fetch, p)
            && c !in g'.inflight
            && (forall d :: d != c ==> (d in g'.inflight <==> d in g.inflight))
            && (forall d :: d in g'.inflight ==> g'.inflight[d] == g.inflight[d])
            && (retryAfter == 0 ==> g'.paused == g.paused)
            && (retryAfter > 0 ==> Held(g', c, clock + retryAfter))
            && SameElsewhere(g'.paused, g.paused, p)
            && g'.attempts == g.attempts && g'.acked == g.acked && g'.safe == g.safe
            && g'.epoch == g.epoch && g'.owned == g.owned
  {
  }

  /** It does: before the next assignment the state can deliver the record. */
  lemma RejectedComesBack(g: Group, t: Token, policy: DeadLetterPolicy, retryAfter: nat, clock: int, env: NackEnv,
                          records: set<Coord>)
    requires NackOutcome(g, t, policy, retryAfter, env).Scheduled? && t.coord in records
    ensures CanSee(Nack(g, t, policy, retryAfter, clock, env), records, t.coord)
  {
    ScheduledEffect(g, t, policy, retryAfter, clock, env);
    CanSeeIff(Nack(g, t, policy, retryAfter, clock, env), records, t.coord);
  }

  /** If the seek or the pause raised, the delivery is gone all the same. The record comes again iff the seek went
      through, or something else in the partition lies at or before it. */
  lemma FailedRejectionIff(g: Group, t: Token, policy: DeadLetterPolicy, retryAfter: nat, clock: int, env: NackEnv,
                           records: set<Coord>)
    requires NackOutcome(g, t, policy, retryAfter, env).SeekFailed? && t.coord in records
    ensures var g', c := Nack(g, t, policy, retryAfter, clock, env), t.coord;
            && c !in g'.inflight && g'.paused == g.paused && g'.safe == g.safe
            && (CanSee(g', records, c) <==>
                env.seekOk || !AtOrAfter(g.(inflight := g.inflight - {c}), c.partition, c.offset + 1))
  {
    var g', c := Nack(g, t, policy, retryAfter, clock, env), t.coord;
    CanSeeIff(g', records, c);
    if !env.seekOk { assert g' == g.(inflight := g.inflight - {c}); }
  }

  /** A run in which the seek raises, and no run of the state delivers the record again. */
  lemma RejectedCanStrand(c: Coord, policy: DeadLetterPolicy, clock: int)
    requires policy.maxAttempts > 1
    ensures var t, env := Token(c, 1, 1), NackEnv(true, true, true, false, true);
            var g := Exec(FRESH, [OpAssigned(map[c.partition := c.offset]), OpDeliver(c, 0, 9, true, true, true)]);
            && NackOutcome(g, t, policy, 0, env).SeekFailed?
            && !CanSee(Nack(g, t, policy, 0, clock, env), {c}, c)
  {
    var t, env := Token(c, 1, 1), NackEnv(true, true, true, false, true);
    var ops := [OpAssigned(map[c.partition := c.offset]), OpDeliver(c, 0, 9, true, true, true)];
    assert ops[..1] == [OpAssigned(map[c.partition := c.offset])] && ops[..1][..0] == [];
    var g := Exec(FRESH, ops);
    assert Exec(FRESH, ops[..1]) == Assigned(FRESH, map[c.partition := c.offset]);
    assert g.inflight == map[c := Inflight(1, 1, 9)] && g.fetch == map[c.partition := c.offset + 1];
    FailedRejectionIff(g, t, policy, 0, clock, env, {c});
  }

  // ------------------------------------------------------------ not before the delay is over

  /** The partition rests at the record until `due`. */
  predicate Held(g: Group, c: Coord, due: int) {
    c.partition in g.paused && g.paused[c.partition] == Paused(c.offset, due)
  }

  /** A message is handed out iff it can be decoded and given a token, and its record is not held at that time. */
  lemma HandedIff(g: Group, op: Op)
    requires op.OpDeliver?
    ensures Issues(g, op).Some? <==>
            op.decodable && op.minted && !exists due :: Held(g, op.c, due) && op.clock < due
  {
    if op.c.partition in g.paused && g.paused[op.c.partition].offset == op.c.offset {
      assert Held(g, op.c, g.paused[op.c.partition].resumeAt);
    }
  }

  /** A message of a held record that comes too early counts for nothing and sends the client back to it. */
  lemma EarlyEffect(g: Group, op: Op, due: int)
    requires op.OpDeliver? && Held(g, op.c, due) && op.clock < due
    ensures var g', p := Apply(g, op), op.c.partition;
            && p in g'.fetch && g'.fetch[p] == (if op.seekOk then op.c.offset else op.c.offset + 1)
            && SameElsewhere(g'.fetch, g.fetch, p)
            && g' == g.(fetch := g'.fetch)
            && DeliverResult(g, op.c, op.clock, op.decodable, op.minted, op.seekOk) ==
               (if op.seekOk then Deferred else SeekRaised)
  {
  }

  /** What ends the rest: the record itself once it is due, a resume or a revoke of the partition, and a rejection of
      another delivery of the partition that asks for a delay of its own. */
  predicate Lifts(g: Group, op: Op, c: Coord, due: int) {
    match op
    case OpDeliver(d, clock, _, _, _, _) => d == c && due <= clock
    case OpNack(t, policy, retryAfter, clock, env) =>
      && t.coord.partition == c.partition && retryAfter > 0 && NackOutcome(g, t, policy, retryAfter, env).Scheduled?
      && (t.coord.offset != c.offset || clock + retryAfter != due)
    case OpResume(resumed, _) => c.partition in resumed
    case OpRevoked(partitions) => c.partition in partitions
    case _ => false
  }

  lemma StepHeldIff(g: Group, op: Op, c: Coord, due: int)
    requires Held(g, c, due)
    ensures Held(Apply(g, op), c, due) <==> !Lifts(g, op, c, due)
  {
    match op
    case OpDeliver(d, clock, expiresAt, decodable, minted, seekOk) =>
      DeliverFetch(g, d, clock, expiresAt, decodable, minted, seekOk);
    case OpNack(t, policy, retryAfter, clock, env) => NackHeldIff(g, op, c, due);
    case OpAck(t, ok) => assert Ack(g, t, ok).paused == g.paused;
    case _ =>
  }

  lemma NackHeldIff(g: Group, op: Op, c: Coord, due: int)
    requires op.OpNack? && Held(g, c, due)
    ensures Held(Apply(g, op), c, due) <==> !Lifts(g, op, c, due)
  {
    var r, g' := NackOutcome(g, op.t, op.policy, op.retryAfter, op.env), Apply(g, op);
    if r.Scheduled? {
      ScheduledEffect(g, op.t, op.policy, op.retryAfter, op.clock, op.env);
    } else if r.DeadLettered? {
      assert Ack(g, op.t, op.env.commitOk).paused == g.paused;
    } else {
      assert g'.paused == g.paused;
    }
  }

  ghost predicate LiftsAt(g: Group, ops: seq<Op>, c: Coord, due: int, i: nat)
    requires i < |ops|
  {
    Lifts(Exec(g, ops[..i]), ops[i], c, due)
  }

  /** Nothing lifts the rest before the i-th operation. */
  ghost predicate Rests(g: Group, ops: seq<Op>, c: Coord, due: int, i: nat)
    requires i <= |ops|
  {
    forall j :: 0 <= j < i ==> !LiftsAt(g, ops, c, due, j)
  }

  lemma {:induction false} RunHeld(g: Group, ops: seq<Op>, n: nat, c: Coord, due: int)
    requires Held(g, c, due) && n <= |ops| && Rests(g, ops, c, due, n)
    ensures Held(Exec(g, ops[..n]), c, due)
  {
    if n > 0 {
      RunHeld(g, ops, n - 1, c, due);
      assert !LiftsAt(g, ops, c, due, n - 1) && ops[..n][..n - 1] == ops[..n - 1];
      StepHeldIff(Exec(g, ops[..n - 1]), ops[n - 1], c, due);
    }
  }

  /** Over every run from a rejection with a delay: unless the rest of the partition is lifted on the way, no message of
      the record is handed out before the delay is over. */
  lemma NotBeforeDue(g: Group, t: Token, policy: DeadLetterPolicy, retryAfter: nat, clock: int, env: NackEnv,
                     ops: seq<Op>, i: nat)
    requires NackOutcome(g, t, policy, retryAfter, env).Scheduled? && retryAfter > 0
    requires var g' := Nack(g, t, policy, retryAfter, clock, env);
             && i < |ops| && ops[i].OpDeliver? && ops[i].c == t.coord && ops[i].clock < clock + retryAfter
             && Rests(g', ops, t.coord, clock + retryAfter, i)
    ensures IssuedAt(Nack(g, t, policy, retryAfter, clock, env), ops, i).None?
  {
    var g', due := Nack(g, t, policy, retryAfter, clock, env), clock + retryAfter;
    ScheduledEffect(g, t, policy, retryAfter, clock, env);
    RunHeld(g', ops, i, t.coord, due);
    HandedIff(Exec(g', ops[..i]), ops[i]);
  }

  /** The delay is not kept beside another one: a later rejection in the partition that asks for a delay too makes the
      first record due at once. */
  lemma DelayCanBeForgotten(g: Group, c: Coord, due: int, t: Token, policy: DeadLetterPolicy, retryAfter: nat,
                            clock: int,
                            env: NackEnv, op: Op)
    requires Held(g, c, due) && t.coord.partition == c.partition && t.coord.offset != c.offset && retryAfter > 0
    requires NackOutcome(g, t, policy, retryAfter, env).Scheduled?
    requires op.OpDeliver? && op.c == c && op.decodable && op.minted
    ensures Issues(Nack(g, t, policy, retryAfter, clock, env), op).Some?
  {
    ScheduledEffect(g, t, policy, retryAfter, clock, env);
    HandedIff(Nack(g, t, policy, retryAfter, clock, env), op);
  }
}
