/** Which delivery tokens a group state still accepts, over its whole life. */
module TokenLife {
  import opened Basics
  import opened ConsumerGroup
  import opened AckOrder

  /** The steps after which every earlier token is stale. */
  predicate Bumps(op: Op) {
    op.OpAssigned? || op.OpRevoked? || op.OpMovedTo?
  }

  function Issues(g: Group, op: Op): Option<Token> {
    match op
    case OpDeliver(c, clock, _, decodable, minted, seekOk) =>
      var r := DeliverResult(g, c, clock, decodable, minted, seekOk);
      if r.Handed? then Some(r.token) else None
    case _ => None
  }

  predicate IssuesFor(g: Group, op: Op, c: Coord) {
    Issues(g, op).Some? && Issues(g, op).value.coord == c
  }

  /** What is known of a token since it was issued. */
  ghost predicate Fate(g: Group, t: Token, bumped: bool, resolved: bool, reissued: bool) {
    && t.epoch <= g.epoch
    && (bumped ==> t.epoch < g.epoch)
    && (!bumped && !resolved ==>
          && t.attempt <= Attempts(g, t.coord)
          && (reissued ==>
                && t.attempt < Attempts(g, t.coord)
                && (t.coord in g.inflight ==> t.attempt < g.inflight[t.coord].attempt)))
  }

  lemma DeliverFate(g: Group, t: Token, op: Op, bumped: bool, resolved: bool, reissued: bool)
    requires op.OpDeliver? && Fate(g, t, bumped, resolved, reissued)
    ensures Fate(Apply(g, op), t, bumped, resolved, reissued || IssuesFor(g, op, t.coord))
  {
    DeliverCounts(g, op.c, op.clock, op.expiresAt, op.decodable, op.minted, op.seekOk);
    CountedFate(g, Apply(g, op), t, op.c, DeliverResult(g, op.c, op.clock, op.decodable, op.minted, op.seekOk), bumped,
                resolved, reissued);
  }

  lemma CountedFate(g: Group, g': Group, t: Token, c: Coord, r: Delivery, bumped: bool, resolved: bool, reissued: bool)
    requires Fate(g, t, bumped, resolved, reissued) && g'.epoch == g.epoch
    requires g'.attempts == if !Counts(r) then g.attempts else g.attempts[c := Attempts(g, c) + 1]
    requires r.Handed? ==>
        c in g'.inflight && g'.inflight == g.inflight[c := g'.inflight[c]]
        && g'.inflight[c].attempt == Attempts(g, c) + 1
    requires !r.Handed? ==> g'.inflight == g.inflight
    ensures Fate(g', t, bumped, resolved, reissued || (r.Handed? && c == t.coord))
  {
  }

  lemma StepFate(g: Group, t: Token, op: Op, bumped: bool, resolved: bool, reissued: bool)
    requires Fate(g, t, bumped, resolved, reissued)
    ensures Fate(Apply(g, op), t, bumped || Bumps(op), resolved || Resolves(g, op, t.coord),
                 reissued || IssuesFor(g, op, t.coord))
  {
    match op
    case OpDeliver(_, _, _, _, _, _) => DeliverFate(g, t, op, bumped, resolved, reissued);
    case OpNack(_, _, _, _, _) => NackFate(g, t, op, bumped, resolved, reissued);
    case OpAck(_, _) =>
    case OpRewind(_) =>
    case OpResume(_, _) =>
    case OpAssigned(_) =>
    case OpRevoked(_) =>
    case OpMovedTo(_) =>
  }

  lemma ReleaseFate(g: Group, g': Group, t: Token, op: Op, bumped: bool, resolved: bool, reissued: bool)
    requires op.OpNack? && Fate(g, t, bumped, resolved, reissued) && g' == Apply(g, op)
    requires !NackOutcome(g, op.t, op.policy, op.retryAfter, op.env).DeadLettered?
    ensures Fate(g', t, bumped, resolved, reissued) && !Resolves(g, op, t.coord)
  {
    assert g'.attempts == g.attempts;
  }

  lemma NackFate(g: Group, t: Token, op: Op, bumped: bool, resolved: bool, reissued: bool)
    requires op.OpNack? && Fate(g, t, bumped, resolved, reissued)
    ensures Fate(Apply(g, op), t, bumped, resolved || Resolves(g, op, t.coord), reissued)
  {
    match NackOutcome(g, op.t, op.policy, op.retryAfter, op.env)
    case DeadLettered(_) =>
    case _ => ReleaseFate(g, Apply(g, op), t, op, bumped, resolved, reissued);
  }

  /** Step by step, whether the run resolves `c`. */
  ghost function Resolutions(g: Group, ops: seq<Op>, c: Coord): (r: seq<bool>)
    ensures |r| == |ops|
  {
    if ops == [] then []
    else
      var rest := ops[..|ops| - 1];
      Resolutions(g, rest, c) + [Resolves(Exec(g, rest), ops[|ops| - 1], c)]
  }

  /** Step by step, whether the run hands out `c`. */
  ghost function Handouts(g: Group, ops: seq<Op>, c: Coord): (r: seq<bool>)
    ensures |r| == |ops|
  {
    if ops == [] then []
    else
      var rest := ops[..|ops| - 1];
      Handouts(g, rest, c) + [IssuesFor(Exec(g, rest), ops[|ops| - 1], c)]
  }

  ghost function Rebalances(ops: seq<Op>): seq<bool> {
    seq(|ops|, j requires 0 <= j < |ops| => Bumps(ops[j]))
  }

  ghost predicate After(marks: seq<bool>, i: nat) {
    exists j :: i < j < |marks| && marks[j]
  }

  lemma AfterLast(marks: seq<bool>, last: bool, i: nat)
    requires i < |marks|
    ensures After(marks + [last], i) <==> After(marks, i) || last
  {
    var all := marks + [last];
    assert last ==> all[|marks|];
    if After(marks, i) {
      var j :| i < j < |marks| && marks[j];
      assert all[j];
    }
    if After(all, i) && !last {
      var j :| i < j < |all| && all[j];
      assert marks[j];
    }
  }

  lemma {:induction false} RunFate(g: Group, ops: seq<Op>, i: nat, t: Token)
    requires i < |ops| && Issues(Exec(g, ops[..i]), ops[i]) == Some(t)
    ensures Fate(Exec(g, ops), t, After(Rebalances(ops), i), After(Resolutions(g, ops, t.coord), i),
                 After(Handouts(g, ops, t.coord), i))
    decreases |ops|
  {
    var rest, last := ops[..|ops| - 1], ops[|ops| - 1];
    var g' := Exec(g, rest);
    if i < |rest| {
      assert rest[..i] == ops[..i];
      RunFate(g, rest, i, t);
      var bumps, resolved, handed := Rebalances(rest), Resolutions(g, rest, t.coord), Handouts(g, rest, t.coord);
      StepFate(g', t, last, After(bumps, i), After(resolved, i), After(handed, i));
      MarksGrow(g, ops, i, t.coord);
    } else {
      assert ops[..i] == rest;
      IssueFate(g', last, t);
    }
  }

  lemma MarksGrow(g: Group, ops: seq<Op>, i: nat, c: Coord)
    requires ops != [] && i < |ops| - 1
    ensures var rest, last := ops[..|ops| - 1], ops[|ops| - 1];
            && (After(Rebalances(ops), i) <==> After(Rebalances(rest), i) || Bumps(last))
            && (After(Resolutions(g, ops, c), i) <==>
                After(Resolutions(g, rest, c), i) || Resolves(Exec(g, rest), last, c))
            && (After(Handouts(g, ops, c), i) <==> After(Handouts(g, rest, c), i) || IssuesFor(Exec(g, rest), last, c))
  {
    var rest, last := ops[..|ops| - 1], ops[|ops| - 1];
    assert Rebalances(ops) == Rebalances(rest) + [Bumps(last)];
    AfterLast(Rebalances(rest), Bumps(last), i);
    AfterLast(Resolutions(g, rest, c), Resolves(Exec(g, rest), last, c), i);
    AfterLast(Handouts(g, rest, c), IssuesFor(Exec(g, rest), last, c), i);
  }

  lemma IssueFate(g: Group, op: Op, t: Token)
    requires Issues(g, op) == Some(t)
    ensures Fate(Apply(g, op), t, false, false, false)
  {
  }

  /** A token that is still accepted was issued after the last rebalance or group-position step, and it names the
      latest delivery of its offset unless that offset was resolved since. */
  lemma StaleTokensRejected(g: Group, ops: seq<Op>, i: nat, t: Token)
    requires i < |ops| && Issues(Exec(g, ops[..i]), ops[i]) == Some(t)
    requires Resolvable(Exec(g, ops), t)
    ensures !After(Rebalances(ops), i)
    ensures After(Handouts(g, ops, t.coord), i) ==> After(Resolutions(g, ops, t.coord), i)
  {
    RunFate(g, ops, i, t);
  }

  // ------------------------------------------------------------ which tokens a state accepts

  ghost function IssuedAt(g: Group, ops: seq<Op>, i: nat): Option<Token>
    requires i < |ops|
  {
    Issues(Exec(g, ops[..i]), ops[i])
  }

  /** The operation takes the delivery of `c` out of flight, or replaces it. */
  predicate Leaves(g: Group, op: Op, c: Coord) {
    match op
    case OpDeliver(_, _, _, _, _, _) => IssuesFor(g, op, c)
    case OpAck(t, ok) => t.coord == c && AckOutcome(g, t, ok).Accepted?
    case OpNack(t, policy, retryAfter, _, env) => t.coord == c && Releases(NackOutcome(g, t, policy, retryAfter, env))
    case OpRewind(rewind) => !Survives(rewind, c)
    case OpResume(_, _) => false
    case OpAssigned(_) => false
    case OpRevoked(partitions) => c.partition in partitions
    case OpMovedTo(_) => true
  }

  predicate Releases(r: NackResult) {
    r.SeekFailed? || r.Scheduled? || (r.DeadLettered? && r.ack.Accepted?)
  }

  /** Step by step, whether the delivery of `c` leaves. */
  ghost function Departures(g: Group, ops: seq<Op>, c: Coord): (r: seq<bool>)
    ensures |r| == |ops|
  {
    if ops == [] then []
    else
      var rest := ops[..|ops| - 1];
      Departures(g, rest, c) + [Leaves(Exec(g, rest), ops[|ops| - 1], c)]
  }

  predicate InFlight(g: Group, t: Token) {
    t.coord in g.inflight && g.inflight[t.coord].attempt == t.attempt && g.inflight[t.coord].epoch == t.epoch
  }

  /** The run itself issued exactly this token, and its delivery has not left since. */
  ghost predicate Holds(g: Group, ops: seq<Op>, t: Token) {
    exists i :: 0 <= i < |ops| && HoldsFrom(g, ops, t, i)
  }

  ghost predicate HoldsFrom(g: Group, ops: seq<Op>, t: Token, i: nat)
    requires i < |ops|
  {
    IssuedAt(g, ops, i) == Some(t) && !After(Departures(g, ops, t.coord), i)
  }

  lemma StepInFlight(g: Group, op: Op, t: Token)
    ensures InFlight(Apply(g, op), t) <==> Issues(g, op) == Some(t) || (InFlight(g, t) && !Leaves(g, op, t.coord))
  {
    match op
    case OpDeliver(c, clock, expiresAt, decodable, minted, seekOk) =>
      DeliverCounts(g, c, clock, expiresAt, decodable, minted, seekOk);
    case OpNack(u, policy, retryAfter, clock, env) => NackInFlight(g, u, policy, retryAfter, clock, env, t);
    case _ =>
  }

  lemma NackInFlight(g: Group, u: Token, policy: DeadLetterPolicy, retryAfter: nat, clock: int, env: NackEnv, t: Token)
    ensures InFlight(Nack(g, u, policy, retryAfter, clock, env), t) <==>
            InFlight(g, t) && !(u.coord == t.coord && Releases(NackOutcome(g, u, policy, retryAfter, env)))
  {
    var r, g' := NackOutcome(g, u, policy, retryAfter, env), Nack(g, u, policy, retryAfter, clock, env);
    assert g'.inflight == if Releases(r) then g.inflight - {u.coord} else g.inflight;
  }

  lemma HoldsStep(g: Group, ops: seq<Op>, t: Token)
    requires ops != []
    ensures var rest, last := ops[..|ops| - 1], ops[|ops| - 1];
            Holds(g, ops, t) <==>
                Issues(Exec(g, rest), last) == Some(t) || (Holds(g, rest, t) && !Leaves(Exec(g, rest), last, t.coord))
  {
    var n := |ops| - 1;
    var rest, last := ops[..n], ops[n];
    var marks, leaves := Departures(g, rest, t.coord), Leaves(Exec(g, rest), last, t.coord);
    assert Departures(g, ops, t.coord) == marks + [leaves];
    forall i | 0 <= i < n ensures HoldsFrom(g, ops, t, i) <==> HoldsFrom(g, rest, t, i) && !leaves {
      assert rest[..i] == ops[..i] && rest[i] == ops[i];
      AfterLast(marks, leaves, i);
    }
    assert HoldsFrom(g, ops, t, n) <==> Issues(Exec(g, rest), last) == Some(t);
  }

  /** In flight are exactly the deliveries that the state itself issued and that have not left. */
  lemma {:induction false} InFlightIff(ops: seq<Op>, t: Token)
    ensures InFlight(Exec(FRESH, ops), t) <==> Holds(FRESH, ops, t)
  {
    if ops != [] {
      var rest, last := ops[..|ops| - 1], ops[|ops| - 1];
      InFlightIff(rest, t);
      StepInFlight(Exec(FRESH, rest), last, t);
      HoldsStep(FRESH, ops, t);
    }
  }

  /** An acknowledgement accepts a token iff this very state issued it, its delivery has not left, and the epoch is
      still the same. A token of an earlier state is accepted on the same terms, that is, iff this state has issued it
      again. */
  lemma AcknowledgedIff(ops: seq<Op>, t: Token)
    ensures Current(Exec(FRESH, ops), t) <==> t.epoch == Exec(FRESH, ops).epoch && Holds(FRESH, ops, t)
  {
    InFlightIff(ops, t);
  }

  /** A negative acknowledgement does not look at the epoch of the delivery, so it also accepts a token that this state
      never issued, if it issued one with another epoch for the same attempt. */
  lemma NegativelyAcknowledgedIff(ops: seq<Op>, t: Token)
    ensures Resolvable(Exec(FRESH, ops), t) <==>
            t.epoch == Exec(FRESH, ops).epoch && exists e :: Holds(FRESH, ops, Token(t.coord, e, t.attempt))
  {
    var g := Exec(FRESH, ops);
    if t.coord in g.inflight { InFlightIff(ops, Token(t.coord, g.inflight[t.coord].epoch, t.attempt)); }
    forall e | Holds(FRESH, ops, Token(t.coord, e, t.attempt))
      ensures t.coord in g.inflight && g.inflight[t.coord].attempt == t.attempt
    {
      InFlightIff(ops, Token(t.coord, e, t.attempt));
    }
  }

  // ------------------------------------------------------------ tokens that come twice

  /** Across states: the old state has seen the token acknowledged, and the one that replaces it issues it again. */
  lemma RecoveredStateAcceptsOldToken(c: Coord, starts: map<nat, nat>)
    ensures var t := Token(c, 1, 1);
            var ops := [OpAssigned(starts), OpDeliver(c, 0, 1, true, true, true)];
            && IssuedAt(FRESH, ops, 1) == Some(t)
            && !Resolvable(Exec(FRESH, ops + [OpAck(t, true)]), t)
            && Current(Exec(FRESH, ops), t)
  {
    var t := Token(c, 1, 1);
    var ops := [OpAssigned(starts), OpDeliver(c, 0, 1, true, true, true)];
    assert ops[..1] == [OpAssigned(starts)] && ops[..1][..0] == [];
    assert Exec(FRESH, ops[..1]) == Assigned(FRESH, starts);
    assert (ops + [OpAck(t, true)])[..2] == ops;
    assert Exec(FRESH, ops + [OpAck(t, true)]) == Ack(Exec(FRESH, ops), t, true);
  }

  /** The state accepts, for a negative acknowledgement only, a token that it never issued: the delivery has survived an
      assignment, and the token is that of an earlier state. */
  lemma UnissuedTokenAccepted(c: Coord, starts: map<nat, nat>)
    ensures var t := Token(c, 2, 1);
            var ops := [OpAssigned(starts), OpDeliver(c, 0, 1, true, true, true), OpAssigned(starts)];
            var g := Exec(FRESH, ops);
            && Resolvable(g, t) && !Current(g, t) && !Holds(FRESH, ops, t)
  {
    var ops := [OpAssigned(starts), OpDeliver(c, 0, 1, true, true, true), OpAssigned(starts)];
    assert ops[..2] == [OpAssigned(starts), OpDeliver(c, 0, 1, true, true, true)];
    assert ops[..2][..1] == [OpAssigned(starts)] && ops[..2][..1][..0] == [];
    assert Exec(FRESH, ops[..2][..1]) == Assigned(FRESH, starts);
    AcknowledgedIff(ops, Token(c, 2, 1));
  }

  /** The operation counts a message of `c` as an attempt. */
  predicate CountsFor(g: Group, op: Op, c: Coord) {
    op.OpDeliver? && op.c == c && Counts(DeliverResult(g, c, op.clock, op.decodable, op.minted, op.seekOk))
  }

  /** The messages of `c` that were counted since `c` was last resolved or its partition revoked. */
  ghost function Tries(ops: seq<Op>, c: Coord): nat {
    if ops == [] then 0
    else
      var rest, last := ops[..|ops| - 1], ops[|ops| - 1];
      var g := Exec(FRESH, rest);
      if Resolves(g, last, c) || (last.OpRevoked? && c.partition in last.partitions) then 0
      else if CountsFor(g, last, c) then Tries(rest, c) + 1
      else Tries(rest, c)
  }

  /** The rebalances and set positions of a run. */
  function Epochs(ops: seq<Op>): nat {
    if ops == [] then 0 else Epochs(ops[..|ops| - 1]) + if Bumps(ops[|ops| - 1]) then 1 else 0
  }

  lemma StepTries(g: Group, op: Op, c: Coord)
    ensures Attempts(Apply(g, op), c) ==
            if Resolves(g, op, c) || (op.OpRevoked? && c.partition in op.partitions) then 0
            else if CountsFor(g, op, c) then Attempts(g, c) + 1
            else Attempts(g, c)
  {
    match op
    case OpDeliver(d, clock, expiresAt, decodable, minted, seekOk) =>
      DeliverCounts(g, d, clock, expiresAt, decodable, minted, seekOk);
    case OpNack(t, policy, retryAfter, clock, env) =>
      if !NackOutcome(g, t, policy, retryAfter, env).DeadLettered? {
        assert Nack(g, t, policy, retryAfter, clock, env).attempts == g.attempts;
      }
    case _ =>
  }

  lemma StepEpoch(g: Group, op: Op)
    ensures Apply(g, op).epoch == g.epoch + if Bumps(op) then 1 else 0
  {
    if op.OpDeliver? { DeliverCounts(g, op.c, op.clock, op.expiresAt, op.decodable, op.minted, op.seekOk); }
  }

  lemma {:induction false} RunCounts(ops: seq<Op>, c: Coord)
    ensures Attempts(Exec(FRESH, ops), c) == Tries(ops, c) && Exec(FRESH, ops).epoch == Epochs(ops)
  {
    if ops != [] {
      var rest, last := ops[..|ops| - 1], ops[|ops| - 1];
      RunCounts(rest, c);
      StepTries(Exec(FRESH, rest), last, c);
      StepEpoch(Exec(FRESH, rest), last);
    }
  }

  lemma TokenIssued(g: Group, op: Op, t: Token)
    requires Issues(g, op).Some? && op.c == t.coord
    ensures Issues(g, op) == Some(t) <==> t.epoch == g.epoch && t.attempt == Attempts(g, t.coord) + 1
  {
  }

  /** The token that a delivery issues is told by the run alone: how many rebalances there were, and how many messages
      of the offset since it was last resolved or revoked. */
  lemma IssuedIff(ops: seq<Op>, op: Op, t: Token)
    requires Issues(Exec(FRESH, ops), op).Some? && op.c == t.coord
    ensures Issues(Exec(FRESH, ops), op) == Some(t) <==> t.epoch == Epochs(ops) && t.attempt == Tries(ops, t.coord) + 1
  {
    RunCounts(ops, t.coord);
    TokenIssued(Exec(FRESH, ops), op, t);
  }

  /** Inside one state a token comes again, at any later delivery of its offset, iff there was no rebalance in between
      and the messages since the last resolution are as many as before. */
  lemma ReissuedIff(ops: seq<Op>, i: nat, j: nat, t: Token)
    requires i < j < |ops| && IssuedAt(FRESH, ops, i) == Some(t)
    requires IssuedAt(FRESH, ops, j).Some? && ops[j].c == t.coord
    ensures IssuedAt(FRESH, ops, j) == Some(t) <==>
            Epochs(ops[..j]) == Epochs(ops[..i]) && Tries(ops[..j], t.coord) == Tries(ops[..i], t.coord)
  {
    IssuedIff(ops[..i], ops[i], t);
    IssuedIff(ops[..j], ops[j], t);
  }

  lemma OneMoreOp(g: Group, ops: seq<Op>, op: Op)
    ensures Exec(g, ops + [op]) == Apply(Exec(g, ops), op) && IssuedAt(g, ops + [op], |ops|) == Issues(Exec(g, ops), op)
  {
    assert (ops + [op])[..|ops|] == ops;
  }

  const BACK: Op := OpNack(Token(Coord(0, 0), 1, 1), DeadLetterPolicy(2, false), 0, 0,
                           NackEnv(true, true, true, true, true))

  function Message(offset: nat): Op {
    OpDeliver(Coord(0, offset), 0, 9, true, true, true)
  }

  /** Two deliveries, the second one acknowledged, the first one rejected, which takes the client back to it. */
  function Rejected(): seq<Op> {
    [] + [OpAssigned(map[0 := 0])] + [Message(0)] + [Message(1)] + [OpAck(Token(Coord(0, 1), 1, 1), true)] + [BACK]
  }

  lemma RejectedMeaning()
    ensures var g := Exec(FRESH, Rejected());
            g.epoch == 1 && g.attempts == map[Coord(0, 0) := 1] && g.paused == map[] && g.fetch == map[0 := 0]
    ensures IssuedAt(FRESH, Rejected(), 2) == Some(Token(Coord(0, 1), 1, 1))
  {
    var o0 := [] + [OpAssigned(map[0 := 0])];
    var o1 := o0 + [Message(0)];
    var o2 := o1 + [Message(1)];
    var o3 := o2 + [OpAck(Token(Coord(0, 1), 1, 1), true)];
    OneMoreOp(FRESH, [], OpAssigned(map[0 := 0]));
    OneMoreOp(FRESH, o0, Message(0));
    OneMoreOp(FRESH, o1, Message(1));
    OneMoreOp(FRESH, o2, OpAck(Token(Coord(0, 1), 1, 1), true));
    OneMoreOp(FRESH, o3, BACK);
    TwoInFlight(Exec(FRESH, o0), Exec(FRESH, o1), Exec(FRESH, o2));
    OneResolved(Exec(FRESH, o2), Exec(FRESH, o3), Exec(FRESH, Rejected()));
    assert Rejected()[..2] == o1 && Rejected()[2] == Message(1);
  }

  lemma TwoInFlight(g0: Group, g1: Group, g2: Group)
    requires g0 == Assigned(FRESH, map[0 := 0]) && g1 == Apply(g0, Message(0)) && g2 == Apply(g1, Message(1))
    ensures Issues(g1, Message(1)) == Some(Token(Coord(0, 1), 1, 1))
    ensures g2.epoch == 1 && g2.attempts == map[Coord(0, 0) := 1, Coord(0, 1) := 1] && g2.paused == map[]
    ensures g2.fetch == map[0 := 2]
    ensures g2.inflight == map[Coord(0, 0) := Inflight(1, 1, 9), Coord(0, 1) := Inflight(1, 1, 9)]
    ensures g2.safe == map[0 := 0] && g2.acked == map[]
  {
    assert g1.attempts == map[Coord(0, 0) := 1] && g1.safe == map[0 := 0];
    assert g1.inflight == map[Coord(0, 0) := Inflight(1, 1, 9)];
  }

  lemma OneResolved(g2: Group, g3: Group, g4: Group)
    requires g2.epoch == 1 && g2.attempts == map[Coord(0, 0) := 1, Coord(0, 1) := 1] && g2.paused == map[]
    requires g2.inflight == map[Coord(0, 0) := Inflight(1, 1, 9), Coord(0, 1) := Inflight(1, 1, 9)]
    requires g2.safe == map[0 := 0] && g2.acked == map[] && g2.fetch == map[0 := 2]
    requires g3 == Ack(g2, Token(Coord(0, 1), 1, 1), true) && g4 == Apply(g3, BACK)
    ensures g4.epoch == 1 && g4.attempts == map[Coord(0, 0) := 1] && g4.paused == map[] && g4.fetch == map[0 := 0]
  {
    assert {} + {1} == {1} && Drained(g2, Coord(0, 1)) == Drain(0, {1});
    assert g3.attempts == map[Coord(0, 0) := 1] && g3.inflight == map[Coord(0, 0) := Inflight(1, 1, 9)];
  }

  /** So a token can come a second time within one state, after its first delivery was acknowledged. */
  lemma TokenRepeatsWithinState()
    ensures var t, ops := Token(Coord(0, 1), 1, 1), Rejected() + [Message(0)] + [Message(1)];
            && IssuedAt(FRESH, ops, 2) == Some(t) && IssuedAt(FRESH, ops, 6) == Some(t)
            && Current(Exec(FRESH, ops), t)
  {
    var r := Rejected();
    var mid, ops := r + [Message(0)], r + [Message(0)] + [Message(1)];
    RejectedMeaning();
    OneMoreOp(FRESH, r, Message(0));
    OneMoreOp(FRESH, mid, Message(1));
    assert ops[..2] == r[..2] && ops[2] == r[2] && ops[..6] == mid && ops[6] == Message(1);
    var g := Exec(FRESH, mid);
    assert g.epoch == 1 && Coord(0, 1) !in g.attempts && g.paused == map[];
  }
}
