/** The incremental drain against a plain ledger of acknowledgements, over whole runs of one group state. */
module AckOrder {
  import opened Basics
  import opened ConsumerGroup

  /** `m` is the least offset at or above `base` that is not in `s`. */
  ghost predicate IsLeast(base: nat, s: set<nat>, m: nat) {
    base <= m && m !in s && forall x :: base <= x < m ==> x in s
  }

  function Least(base: nat, s: set<nat>): nat {
    Drain(base, s).0
  }

  lemma LeastMeaning(base: nat, s: set<nat>, m: nat)
    ensures IsLeast(base, s, m) <==> m == Least(base, s)
  {
    DrainMeaning(base, s);
  }

  // ------------------------------------------------------ order independence

  /** Acknowledging the offsets of one partition one after the other. */
  function AckOffsets(safe: nat, acked: set<nat>, xs: seq<nat>): (nat, set<nat>)
    decreases |xs|
  {
    if xs == [] then (safe, acked)
    else
      var d := Drain(safe, acked + {xs[0]});
      AckOffsets(d.0, d.1, xs[1..])
  }

  function Elements(xs: seq<nat>): set<nat> {
    set x | x in xs
  }

  /** One pass over the union gives the same safe position and the same pending offsets above it. */
  lemma {:induction false} AckOffsetsClosed(safe: nat, acked: set<nat>, xs: seq<nat>)
    requires safe !in acked
    ensures var r := AckOffsets(safe, acked, xs);
            && r.0 == Least(safe, acked + Elements(xs))
            && (forall o :: o >= r.0 ==> (o in r.1 <==> o in acked + Elements(xs)))
    decreases |xs|
  {
    if xs == [] {
      LeastMeaning(safe, acked + Elements(xs), safe);
    } else {
      var all := acked + Elements(xs);
      var d := Drain(safe, acked + {xs[0]});
      DrainMeaning(safe, acked + {xs[0]});
      AckOffsetsClosed(d.0, d.1, xs[1..]);
      var r := AckOffsets(d.0, d.1, xs[1..]);
      var later := d.1 + Elements(xs[1..]);
      DrainMeaning(d.0, later);
      assert forall x :: x in Elements(xs) <==> x == xs[0] || x in Elements(xs[1..]);
      assert forall x :: x >= d.0 ==> (x in later <==> x in all);
      assert IsLeast(safe, all, r.0);
      LeastMeaning(safe, all, r.0);
    }
  }

  /** Whatever the order, acknowledging the same offsets ends at the same safe position with the same pending set. */
  lemma AckOrderIrrelevant(safe: nat, acked: set<nat>, xs: seq<nat>, ys: seq<nat>)
    requires safe !in acked
    requires Elements(xs) == Elements(ys)
    ensures var r, q := AckOffsets(safe, acked, xs), AckOffsets(safe, acked, ys);
            r.0 == q.0 && forall o :: o >= r.0 ==> (o in r.1 <==> o in q.1)
  {
    AckOffsetsClosed(safe, acked, xs);
    AckOffsetsClosed(safe, acked, ys);
  }

  function AckAll(g: Group, ts: seq<Token>): Group
    decreases |ts|
  {
    if ts == [] then g else AckAll(Ack(g, ts[0], true), ts[1..])
  }

  function Offsets(ts: seq<Token>, p: nat): seq<nat> {
    if ts == [] then []
    else (if ts[0].coord.partition == p then [ts[0].coord.offset] else []) + Offsets(ts[1..], p)
  }

  function Coords(ts: seq<Token>): set<Coord> {
    set t | t in ts :: t.coord
  }

  ghost predicate Ackable(g: Group, ts: seq<Token>) {
    && (forall i :: 0 <= i < |ts| ==> Current(g, ts[i]))
    && (forall i, j :: 0 <= i < j < |ts| ==> ts[i].coord != ts[j].coord)
  }

  lemma AckStepEffect(g: Group, t: Token, p: nat)
    requires Sound(g) && Current(g, t) && p in g.safe
    ensures var g' := Ack(g, t, true);
            && g'.inflight == g.inflight - {t.coord} && g'.attempts == g.attempts - {t.coord} && g'.epoch == g.epoch
            && p in g'.safe
            && (g'.safe[p], Acked(g', p)) ==
               if t.coord.partition == p then Drain(g.safe[p], Acked(g, p) + {t.coord.offset})
               else (g.safe[p], Acked(g, p))
  {
  }

  /** Acknowledging a list of deliveries drains every partition as `AckOffsets` does. */
  lemma {:induction false} AckAllPerPartition(g: Group, ts: seq<Token>, p: nat)
    requires Sound(g) && Ackable(g, ts) && p in g.safe
    ensures var g' := AckAll(g, ts);
            && p in g'.safe && (g'.safe[p], Acked(g', p)) == AckOffsets(g.safe[p], Acked(g, p), Offsets(ts, p))
            && g'.inflight == g.inflight - Coords(ts) && g'.attempts == g.attempts - Coords(ts)
    decreases |ts|
  {
    if ts != [] {
      var g1 := Ack(g, ts[0], true);
      AckSound(g, ts[0], true);
      AckStepEffect(g, ts[0], p);
      StillAckable(g, g1, ts);
      AckAllPerPartition(g1, ts[1..], p);
      CoordsSplit(ts);
      AckOffsetsSplit(g.safe[p], Acked(g, p), ts, p);
    }
  }

  lemma StillAckable(g: Group, g1: Group, ts: seq<Token>)
    requires ts != [] && Ackable(g, ts) && g1.epoch == g.epoch && g1.inflight == g.inflight - {ts[0].coord}
    ensures Ackable(g1, ts[1..])
  {
    forall i | 0 <= i < |ts[1..]| ensures Current(g1, ts[1..][i]) {
      assert Current(g, ts[i + 1]) && ts[0].coord != ts[i + 1].coord;
    }
  }

  lemma CoordsSplit(ts: seq<Token>)
    requires ts != []
    ensures Coords(ts) == {ts[0].coord} + Coords(ts[1..])
  {
    assert ts == [ts[0]] + ts[1..];
  }

  lemma AckOffsetsSplit(safe: nat, acked: set<nat>, ts: seq<Token>, p: nat)
    requires ts != []
    ensures AckOffsets(safe, acked, Offsets(ts, p)) ==
            var d := if ts[0].coord.partition == p then Drain(safe, acked + {ts[0].coord.offset}) else (safe, acked);
            AckOffsets(d.0, d.1, Offsets(ts[1..], p))
  {
    var xs, rest := Offsets(ts, p), Offsets(ts[1..], p);
    if ts[0].coord.partition == p {
      assert xs[0] == ts[0].coord.offset && xs[1..] == rest;
    } else {
      assert xs == rest;
    }
  }

  lemma {:induction false} OffsetsElements(ts: seq<Token>, p: nat)
    ensures forall o :: o in Offsets(ts, p) <==> Coord(p, o) in Coords(ts)
  {
    if ts != [] {
      OffsetsElements(ts[1..], p);
      CoordsSplit(ts);
    }
  }

  /** Any two orders of acknowledging the same deliveries agree on what is committed, in flight and pending. */
  lemma PermutedAcksAgree(g: Group, ts: seq<Token>, us: seq<Token>, p: nat)
    requires Sound(g) && Ackable(g, ts) && Ackable(g, us) && p in g.safe
    requires forall t :: t in ts <==> t in us
    ensures var a, b := AckAll(g, ts), AckAll(g, us);
            && p in a.safe && p in b.safe && a.safe[p] == b.safe[p]
            && (forall o :: o >= a.safe[p] ==> (o in Acked(a, p) <==> o in Acked(b, p)))
            && a.inflight == b.inflight && a.attempts == b.attempts
  {
    AckAllPerPartition(g, ts, p);
    AckAllPerPartition(g, us, p);
    OffsetsElements(ts, p);
    OffsetsElements(us, p);
    assert p in g.acked ==> PendingSound(g, p);
    assert Coords(ts) == Coords(us);
    AckOrderIrrelevant(g.safe[p], Acked(g, p), Offsets(ts, p), Offsets(us, p));
  }

  // ------------------------------------------------------ the ledger refinement

  /** The simple specification: a starting offset and the set of acknowledgements still remembered. */
  datatype Ledger = Ledger(base: Option<nat>, remembered: set<nat>)

  datatype Note = Nothing | First(offset: nat) | Acknowledged(o: nat) | Lost(failed: nat) | Rewound(to: nat) |
    Moved(at: Option<nat>)

  /** What an operation means for partition `p`: only whether a token is accepted is read from the state. */
  function Heard(g: Group, op: Op, p: nat): Note {
    match op
    case OpDeliver(c, clock, _, decodable, minted, seekOk) =>
      var r := DeliverResult(g, c, clock, decodable, minted, seekOk);
      if c.partition == p && p !in g.safe && (r.Unminted? || r.Handed?) then First(c.offset) else Nothing
    case OpAck(t, ok) => if t.coord.partition == p then HeardAck(AckOutcome(g, t, ok), t.coord.offset) else Nothing
    case OpNack(t, policy, retryAfter, _, env) =>
      var r := NackOutcome(g, t, policy, retryAfter, env);
      if t.coord.partition == p && r.DeadLettered? then HeardAck(r.ack, t.coord.offset) else Nothing
    case OpRewind(rewind) => if p in rewind then Rewound(rewind[p]) else Nothing
    case OpResume(_, _) => Nothing
    case OpAssigned(_) => Nothing
    case OpRevoked(partitions) => if p in partitions then Rewound(0) else Nothing
    case OpMovedTo(target) => Moved(if p in target then Some(target[p]) else None)
  }

  function HeardAck(r: AckResult, o: nat): Note {
    if r.Accepted? then Acknowledged(o) else if r.CommitFailed? then Lost(o) else Nothing
  }

  /** Acknowledgements below the safe position stay; a rewind forgets the others at or after its target,
      and a failed commit forgets the run it had drained. */
  function Record(l: Ledger, note: Note): Ledger {
    match note
    case Nothing => l
    case First(o) => Ledger(Some(o), l.remembered)
    case Acknowledged(o) => l.(remembered := l.remembered + {o})
    case Lost(o) =>
      if l.base.None? then l else
        var safe, run := Least(l.base.value, l.remembered), Least(l.base.value, l.remembered + {o});
        l.(remembered := set x | x in l.remembered && !(safe <= x < run))
    case Rewound(to) =>
      if l.base.None? then l else
        var safe := Least(l.base.value, l.remembered);
        l.(remembered := set x | x in l.remembered && (x < safe || x < to))
    case Moved(at) => Ledger(at, {})
  }

  function Ledgers(g: Group, ops: seq<Op>, p: nat, l: Ledger): Ledger {
    if ops == [] then l
    else
      var rest := ops[..|ops| - 1];
      Record(Ledgers(g, rest, p, l), Heard(Exec(g, rest), ops[|ops| - 1], p))
  }

  /** The safe position is the least offset not remembered, and the pending set holds what is remembered above it. */
  ghost predicate Refines(g: Group, p: nat, l: Ledger) {
    if p in g.safe then
      && l.base.Some?
      && IsLeast(l.base.value, l.remembered, g.safe[p])
      && (forall o :: o >= g.safe[p] ==> (o in Acked(g, p) <==> o in l.remembered))
    else
      l == Ledger(None, {}) && Acked(g, p) == {}
  }

  lemma AckRefines(g: Group, t: Token, ok: bool, l: Ledger)
    requires Sound(g) && Refines(g, t.coord.partition, l)
    ensures Refines(Ack(g, t, ok), t.coord.partition, Record(l, HeardAck(AckOutcome(g, t, ok), t.coord.offset)))
  {
    var p, o := t.coord.partition, t.coord.offset;
    if Current(g, t) {
      assert InflightSound(g, t.coord);
      var safe, all := g.safe[p], Acked(g, p) + {o};
      var d := Drain(safe, all);
      DrainMeaning(safe, all);
      LeastMeaning(l.base.value, l.remembered, safe);
      var both := l.remembered + {o};
      assert IsLeast(l.base.value, both, d.0) by {
        assert forall x :: x >= safe ==> (x in all <==> x in both);
      }
      LeastMeaning(l.base.value, both, d.0);
      if AckOutcome(g, t, ok).CommitFailed? {
        var l' := Record(l, Lost(o));
        assert forall x :: x in l'.remembered <==> x in l.remembered && !(safe <= x < d.0);
        assert safe <= o < d.0;
      }
    }
  }

  function SafeAt(g: Group, p: nat): Option<nat> {
    if p in g.safe then Some(g.safe[p]) else None
  }

  /** The safe position of `p` after an operation that acknowledges nothing. */
  function QuietSafe(g: Group, op: Op, p: nat): Option<nat> {
    match Heard(g, op, p)
    case First(o) => Some(o)
    case Moved(at) => at
    case _ => SafeAt(g, p)
  }

  function QuietAcked(g: Group, op: Op, p: nat): set<nat> {
    match Heard(g, op, p)
    case Rewound(to) => set o | o in Acked(g, p) && o < to
    case Moved(_) => {}
    case _ => Acked(g, p)
  }

  predicate Quiet(g: Group, op: Op) {
    match op
    case OpAck(t, ok) => !Current(g, t)
    case OpNack(t, policy, retryAfter, _, env) =>
      !NackOutcome(g, t, policy, retryAfter, env).DeadLettered? || !Current(g, t)
    case _ => true
  }

  lemma DeliverEffect(g: Group, op: Op, p: nat)
    requires op.OpDeliver?
    ensures SafeAt(Apply(g, op), p) == QuietSafe(g, op, p)
    ensures Acked(Apply(g, op), p) == Acked(g, p)
  {
    DeliverSafe(g, op.c, op.clock, op.expiresAt, op.decodable, op.minted, op.seekOk);
  }

  lemma QuietEffect(g: Group, op: Op, p: nat)
    requires Quiet(g, op)
    ensures SafeAt(Apply(g, op), p) == QuietSafe(g, op, p)
    ensures Acked(Apply(g, op), p) == QuietAcked(g, op, p)
  {
    match op
    case OpDeliver(_, _, _, _, _, _) => DeliverEffect(g, op, p);
    case OpRewind(rewind) =>
      assert Acked(Rewind(g, rewind), p) == Below(Acked(g, p), rewind, p);
    case OpRevoked(partitions) =>
      assert Acked(Revoked(g, partitions), p) == if p in partitions then {} else Acked(g, p);
    case _ =>
  }

  /** The token an operation acknowledges; `Quiet` says when there is none. */
  function AckedToken(g: Group, op: Op): (Token, bool)
    requires !Quiet(g, op)
  {
    match op
    case OpAck(t, ok) => (t, ok)
    case OpNack(t, _, _, _, env) => (t, env.commitOk)
  }

  lemma LoudEffect(g: Group, op: Op, p: nat)
    requires !Quiet(g, op)
    ensures var (t, ok) := AckedToken(g, op);
            && Apply(g, op) == Ack(g, t, ok)
            && Heard(g, op, t.coord.partition) == HeardAck(AckOutcome(g, t, ok), t.coord.offset)
            && (p != t.coord.partition ==>
                  && Heard(g, op, p) == Nothing
                  && SafeAt(Apply(g, op), p) == SafeAt(g, p)
                  && Acked(Apply(g, op), p) == Acked(g, p))
  {
  }

  lemma ApplyRefines(g: Group, op: Op, p: nat, l: Ledger)
    requires Sound(g) && Refines(g, p, l)
    ensures Refines(Apply(g, op), p, Record(l, Heard(g, op, p)))
  {
    if p in g.safe { LeastMeaning(l.base.value, l.remembered, g.safe[p]); }
    if Quiet(g, op) {
      QuietEffect(g, op, p);
      QuietRefines(g, Apply(g, op), op, p, l);
    } else {
      LoudEffect(g, op, p);
      var (t, ok) := AckedToken(g, op);
      if t.coord.partition == p { AckRefines(g, t, ok, l); }
    }
  }

  lemma QuietRefines(g: Group, g': Group, op: Op, p: nat, l: Ledger)
    requires Quiet(g, op) && Refines(g, p, l)
    requires p in g.safe ==> g.safe[p] == Least(l.base.value, l.remembered)
    requires SafeAt(g', p) == QuietSafe(g, op, p) && Acked(g', p) == QuietAcked(g, op, p)
    ensures Refines(g', p, Record(l, Heard(g, op, p)))
  {
    var note := Heard(g, op, p);
    assert SafeAt(g', p).Some? <==> p in g'.safe;
    if note.Rewound? && p in g.safe {
      var l' := Record(l, note);
      assert forall x :: x in l'.remembered <==> x in l.remembered && (x < g.safe[p] || x < note.to);
    }
  }

  /** Over every run, with failed commits, rewinds and rebalances, the state refines the ledger. */
  lemma {:induction false} ExecRefines(g: Group, ops: seq<Op>, p: nat, l: Ledger)
    requires Sound(g) && Refines(g, p, l)
    ensures Refines(Exec(g, ops), p, Ledgers(g, ops, p, l))
  {
    if ops != [] {
      var rest := ops[..|ops| - 1];
      ExecSound(g, rest);
      ExecRefines(g, rest, p, l);
      ApplyRefines(Exec(g, rest), ops[|ops| - 1], p, Ledgers(g, rest, p, l));
    }
  }

  // ------------------------------------------------------ monotone commits

  /** The offset that an operation makes the broker commit, or a transaction stage, successfully. */
  function Commits(g: Group, op: Op): Option<Coord> {
    match op
    case OpAck(t, ok) => CommitOf(g, t, AckOutcome(g, t, ok))
    case OpNack(t, policy, retryAfter, _, env) =>
      var r := NackOutcome(g, t, policy, retryAfter, env);
      if r.DeadLettered? then CommitOf(g, t, r.ack) else None
    case _ => None
  }

  function CommitOf(g: Group, t: Token, r: AckResult): Option<Coord> {
    if r == Accepted(true) then Some(Coord(t.coord.partition, Drained(g, t.coord).0)) else None
  }

  lemma {:induction false} ExecSplit(g: Group, ops: seq<Op>, more: seq<Op>)
    ensures Exec(g, ops + more) == Exec(Exec(g, ops), more)
  {
    if more == [] {
      assert ops + more == ops;
    } else {
      var rest := more[..|more| - 1];
      assert (ops + more)[..|ops + more| - 1] == ops + rest;
      ExecSplit(g, ops, rest);
    }
  }

  lemma ApplyMonotone(g: Group, op: Op, p: nat)
    requires p in g.safe && !op.OpMovedTo?
    ensures p in Apply(g, op).safe && g.safe[p] <= Apply(g, op).safe[p]
  {
    match op
    case OpAck(t, ok) => AckMonotone(g, t, ok, p);
    case OpNack(t, _, _, _, env) => AckMonotone(g, t, env.commitOk, p);
    case OpDeliver(c, clock, expiresAt, decodable, minted, seekOk) =>
      DeliverSafe(g, c, clock, expiresAt, decodable, minted, seekOk);
    case _ =>
  }

  lemma AckMonotone(g: Group, t: Token, ok: bool, p: nat)
    requires p in g.safe
    ensures p in Ack(g, t, ok).safe && g.safe[p] <= Ack(g, t, ok).safe[p]
  {
    DrainMeaning(SafeOr(g, p, t.coord.offset), Acked(g, p) + {t.coord.offset});
  }

  lemma {:induction false} ExecMonotone(g: Group, ops: seq<Op>, p: nat)
    requires p in g.safe && forall i :: 0 <= i < |ops| ==> !ops[i].OpMovedTo?
    ensures p in Exec(g, ops).safe && g.safe[p] <= Exec(g, ops).safe[p]
  {
    if ops != [] {
      ExecMonotone(g, ops[..|ops| - 1], p);
      ApplyMonotone(Exec(g, ops[..|ops| - 1]), ops[|ops| - 1], p);
    }
  }

  lemma CommitMovesSafe(g: Group, op: Op)
    requires Sound(g) && Commits(g, op).Some?
    ensures var c := Commits(g, op).value;
            && c.partition in g.safe && g.safe[c.partition] < c.offset
            && c.partition in Apply(g, op).safe && Apply(g, op).safe[c.partition] == c.offset
  {
    assert op.OpAck? || op.OpNack?;
    assert InflightSound(g, op.t.coord);
  }

  /** The offset committed at step `i`, if any. */
  function CommitAt(g: Group, ops: seq<Op>, i: nat): Option<Coord>
    requires i < |ops|
  {
    Commits(Exec(g, ops[..i]), ops[i])
  }

  lemma CommitLeaves(g: Group, ops: seq<Op>, i: nat)
    requires Sound(g) && i < |ops| && CommitAt(g, ops, i).Some?
    ensures var c, before, after := CommitAt(g, ops, i).value, Exec(g, ops[..i]), Exec(g, ops[..i + 1]);
            && c.partition in before.safe && before.safe[c.partition] < c.offset
            && c.partition in after.safe && after.safe[c.partition] == c.offset
  {
    ExecSound(g, ops[..i]);
    assert ops[..i + 1][..i] == ops[..i];
    CommitMovesSafe(Exec(g, ops[..i]), ops[i]);
  }

  lemma SafeBetween(g: Group, ops: seq<Op>, i: nat, j: nat, p: nat)
    requires i <= j <= |ops| && (forall k :: i <= k < j ==> !ops[k].OpMovedTo?)
    requires p in Exec(g, ops[..i]).safe
    ensures p in Exec(g, ops[..j]).safe && Exec(g, ops[..i]).safe[p] <= Exec(g, ops[..j]).safe[p]
  {
    assert ops[..j] == ops[..i] + ops[i..j];
    ExecSplit(g, ops[..i], ops[i..j]);
    ExecMonotone(Exec(g, ops[..i]), ops[i..j], p);
  }

  /** Between two explicit group positions, the offsets committed or staged for a partition strictly increase. */
  lemma CommitsIncrease(g: Group, ops: seq<Op>, i: nat, j: nat)
    requires Sound(g) && i < j < |ops|
    requires forall k :: i < k < j ==> !ops[k].OpMovedTo?
    requires CommitAt(g, ops, i).Some? && CommitAt(g, ops, j).Some?
    ensures var a, b := CommitAt(g, ops, i).value, CommitAt(g, ops, j).value;
            a.partition == b.partition ==> a.offset < b.offset
  {
    CommitLeaves(g, ops, i);
    CommitLeaves(g, ops, j);
    SafeBetween(g, ops, i + 1, j, CommitAt(g, ops, i).value.partition);
  }

  // ------------------------------------------------------ nothing is skipped

  /** The operation resolves coordinate `c`: an accepted acknowledgement, or one that follows a dead letter. */
  predicate Resolves(g: Group, op: Op, c: Coord) {
    match op
    case OpAck(t, ok) => t.coord == c && AckOutcome(g, t, ok).Accepted?
    case OpNack(t, policy, retryAfter, _, env) =>
      var r := NackOutcome(g, t, policy, retryAfter, env);
      t.coord == c && r.DeadLettered? && r.ack.Accepted?
    case _ => false
  }

  lemma StepSkipsNothing(g: Group, op: Op, c: Coord)
    requires Sound(g) && c.partition in g.safe && !op.OpMovedTo?
    requires g.safe[c.partition] <= c.offset && c.offset !in Acked(g, c.partition)
    requires !Resolves(g, op, c)
    ensures var g' := Apply(g, op);
            c.partition in g'.safe && g'.safe[c.partition] <= c.offset && c.offset !in Acked(g', c.partition)
  {
    ApplyMonotone(g, op, c.partition);
    if Quiet(g, op) {
      QuietEffect(g, op, c.partition);
    } else {
      LoudEffect(g, op, c.partition);
      var (t, ok) := AckedToken(g, op);
      if t.coord.partition == c.partition {
        DrainMeaning(SafeOr(g, c.partition, t.coord.offset), Acked(g, c.partition) + {t.coord.offset});
      }
    }
  }

  /** The safe position passes an offset only if some operation resolved exactly that offset. An offset that is
      never delivered, such as a gap left by compaction, therefore holds the safe position for ever. */
  lemma {:induction false} NothingSkipped(g: Group, ops: seq<Op>, c: Coord)
    requires Sound(g) && c.partition in g.safe && forall i :: 0 <= i < |ops| ==> !ops[i].OpMovedTo?
    requires g.safe[c.partition] <= c.offset && c.offset !in Acked(g, c.partition)
    requires forall i :: 0 <= i < |ops| ==> !Resolves(Exec(g, ops[..i]), ops[i], c)
    ensures var g' := Exec(g, ops);
            c.partition in g'.safe && g'.safe[c.partition] <= c.offset && c.offset !in Acked(g', c.partition)
  {
    if ops != [] {
      var rest := ops[..|ops| - 1];
      forall i | 0 <= i < |rest| ensures !Resolves(Exec(g, rest[..i]), rest[i], c) {
        assert rest[..i] == ops[..i];
      }
      NothingSkipped(g, rest, c);
      ExecSound(g, rest);
      StepSkipsNothing(Exec(g, rest), ops[|ops| - 1], c);
    }
  }

  // ------------------------------------------------------------ the price of a failed commit

  /** An advance comes from the delivery at the safe position. */
  lemma AdvanceAtSafe(g: Group, t: Token)
    requires Sound(g) && Current(g, t) && Advances(g, t.coord)
    ensures t.coord.partition in g.safe && g.safe[t.coord.partition] == t.coord.offset
    ensures t.coord.offset !in Acked(g, t.coord.partition)
  {
    assert InflightSound(g, t.coord);
    if t.coord.partition in g.acked { assert PendingSound(g, t.coord.partition); }
  }

  /** The run was drained before the commit failed. A retry of the acknowledgement commits one offset only: the safe
      position comes out as without the failure iff the next offset was not acknowledged yet, and else the run in
      between is forgotten. */
  lemma FailedCommitCostsIff(g: Group, t: Token)
    requires Sound(g) && Current(g, t) && Advances(g, t.coord)
    ensures var p, o := t.coord.partition, t.coord.offset;
            var retried, direct := Ack(Ack(g, t, false), t, true), Ack(g, t, true);
            && p in retried.safe && p in direct.safe && retried.safe[p] == o + 1
            && (retried.safe[p] == direct.safe[p] <==> o + 1 !in Acked(g, p))
            && forall x :: o < x < direct.safe[p] ==> x in Acked(g, p) && x !in Acked(retried, p)
  {
    var p, o := t.coord.partition, t.coord.offset;
    AdvanceAtSafe(g, t);
    var d, failed := Drained(g, t.coord), Ack(g, t, false);
    DrainMeaning(o, Acked(g, p) + {o});
    assert Acked(failed, p) == d.1 && failed.safe[p] == o && Current(failed, t);
    DrainMeaning(o, d.1 + {o});
    var again := Drained(failed, t.coord);
    assert again == Drain(o, d.1 + {o}) && again.0 == o + 1;
    assert Acked(Ack(failed, t, true), p) == again.1;
  }
}
