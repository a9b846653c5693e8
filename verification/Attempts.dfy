/** How the attempt of a delivery in flight and the attempt counter of its coordinate hang together. */
module Attempts {
  import opened Basics
  import opened ConsumerGroup

  ghost predicate InStep(g: Group) {
    forall c {:trigger Matches(g, c)} :: c in g.inflight ==> Matches(g, c)
  }

  predicate Matches(g: Group, c: Coord)
    requires c in g.inflight
  {
    g.inflight[c].attempt == Attempts(g, c)
  }

  /** A message for an offset that is still in flight, for which no token could be made: it has been counted by then. */
  predicate Miscounts(g: Group, op: Op) {
    op.OpDeliver? && op.c in g.inflight && DeliverResult(g, op.c, op.clock, op.decodable, op.minted,
                                                         op.seekOk).Unminted?
  }

  /** Where nothing but a delivery counts: what stays in flight keeps its attempt and its counter. */
  lemma SameInStep(g: Group, g': Group)
    requires InStep(g)
    requires forall c :: c in g'.inflight ==>
        c in g.inflight && g'.inflight[c] == g.inflight[c] && Attempts(g', c) == Attempts(g, c)
    ensures InStep(g')
  {
    forall c | c in g'.inflight ensures Matches(g', c) { assert Matches(g, c); }
  }

  lemma DeliverInStep(g: Group, op: Op)
    requires InStep(g) && op.OpDeliver?
    ensures InStep(Apply(g, op)) <==> !Miscounts(g, op)
  {
    DeliverCounts(g, op.c, op.clock, op.expiresAt, op.decodable, op.minted, op.seekOk);
    CountedInStep(g, Apply(g, op), op.c, DeliverResult(g, op.c, op.clock, op.decodable, op.minted, op.seekOk));
  }

  lemma CountedInStep(g: Group, g': Group, c: Coord, r: Delivery)
    requires InStep(g)
    requires g'.attempts == if !Counts(r) then g.attempts else g.attempts[c := Attempts(g, c) + 1]
    requires r.Handed? ==>
        c in g'.inflight && g'.inflight[c].attempt == Attempts(g, c) + 1 && g'.inflight - {c} == g.inflight - {c}
    requires !r.Handed? ==> g'.inflight == g.inflight
    ensures InStep(g') <==> !(c in g.inflight && r.Unminted?)
  {
    if r.Handed? {
      assert forall d :: d in g'.inflight && d != c ==>
          d in g'.inflight - {c} && (g'.inflight - {c})[d] == g'.inflight[d];
      HandedInStep(g, g', c);
    } else if r.Unminted? && c in g.inflight {
      assert Matches(g, c) && !Matches(g', c);
    } else {
      SameInStep(g, g');
    }
  }

  lemma HandedInStep(g: Group, g': Group, c: Coord)
    requires InStep(g) && c in g'.inflight && Matches(g', c)
    requires forall d :: d in g'.inflight && d != c ==>
        d in g.inflight && g'.inflight[d] == g.inflight[d] && Attempts(g', d) == Attempts(g, d)
    ensures InStep(g')
  {
    forall d | d in g'.inflight ensures Matches(g', d) { assert d != c ==> Matches(g, d); }
  }

  /** Every transition keeps the two equal, whatever the broker answers, with that one exception. */
  lemma ApplyInStep(g: Group, op: Op)
    requires InStep(g)
    ensures InStep(Apply(g, op)) <==> !Miscounts(g, op)
  {
    match op
    case OpDeliver(_, _, _, _, _, _) => DeliverInStep(g, op);
    case OpAck(t, ok) => AckInStep(g, t, ok);
    case OpNack(t, policy, retryAfter, clock, env) => NackInStep(g, t, policy, retryAfter, clock, env);
    case OpRevoked(partitions) => SameInStep(g, Revoked(g, partitions));
    case OpRewind(rewind) => SameInStep(g, Rewind(g, rewind));
    case _ => SameInStep(g, Apply(g, op));
  }

  lemma AckInStep(g: Group, t: Token, ok: bool)
    requires InStep(g)
    ensures InStep(Ack(g, t, ok))
  {
    var g' := Ack(g, t, ok);
    if AckOutcome(g, t, ok).Accepted? {
      assert g'.inflight == g.inflight - {t.coord} && g'.attempts == g.attempts - {t.coord};
    } else {
      assert g'.inflight == g.inflight && g'.attempts == g.attempts;
    }
    SameInStep(g, g');
  }

  lemma NackInStep(g: Group, t: Token, policy: DeadLetterPolicy, retryAfter: nat, clock: int, env: NackEnv)
    requires InStep(g)
    ensures InStep(Nack(g, t, policy, retryAfter, clock, env))
  {
    if NackOutcome(g, t, policy, retryAfter, env).DeadLettered? {
      AckInStep(g, t, env.commitOk);
    } else {
      var g' := Nack(g, t, policy, retryAfter, clock, env);
      NackReleases(g, t, policy, retryAfter, clock, env);
      SameInStep(g, g');
    }
  }

  lemma NackReleases(g: Group, t: Token, policy: DeadLetterPolicy, retryAfter: nat, clock: int, env: NackEnv)
    requires !NackOutcome(g, t, policy, retryAfter, env).DeadLettered?
    ensures var g' := Nack(g, t, policy, retryAfter, clock, env);
            g'.attempts == g.attempts && (g'.inflight == g.inflight || g'.inflight == g.inflight - {t.coord})
  {
  }

  /** A run in which a token is made for every counted message keeps them equal throughout. */
  lemma {:induction false} ExecInStep(g: Group, ops: seq<Op>)
    requires InStep(g) && forall i :: 0 <= i < |ops| ==> !Miscounts(Exec(g, ops[..i]), ops[i])
    ensures InStep(Exec(g, ops))
  {
    if ops != [] {
      var rest := ops[..|ops| - 1];
      forall i | 0 <= i < |rest| ensures !Miscounts(Exec(g, rest[..i]), rest[i]) {
        assert rest[..i] == ops[..i];
      }
      ExecInStep(g, rest);
      ApplyInStep(Exec(g, rest), ops[|ops| - 1]);
    }
  }

  /** The exception happens: after a redelivery without a token, the older delivery is in flight with a counter that is
      ahead. */
  lemma CounterCanRunAhead(c: Coord)
    ensures var g := Exec(FRESH, [OpDeliver(c, 0, 1, true, true, true), OpDeliver(c, 0, 1, true, false, true)]);
            c in g.inflight && g.inflight[c].attempt == 1 && Attempts(g, c) == 2
  {
    var a, b := OpDeliver(c, 0, 1, true, true, true), OpDeliver(c, 0, 1, true, false, true);
    assert [a, b][..1] == [a] && [a][..0] == [];
    assert Exec(FRESH, [a]) == Apply(FRESH, a);
  }
}
