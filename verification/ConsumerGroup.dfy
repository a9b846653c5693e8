/** The acknowledgement state of one consumer group as a value, and each transition as a function of it.

    `Group` holds the dictionaries of `_GroupState` together with the fetch position of the client the state owns:
    `fetch[p]` is the next offset the client hands out for the assigned partition `p`. Answers of the broker and the
    client (did the commit go through, did the seek raise) are parameters. */
module ConsumerGroup {
  import opened Basics

  datatype Coord = Coord(partition: nat, offset: nat)

  /** The coordinates that a delivery token carries. */
  datatype Token = Token(coord: Coord, epoch: nat, attempt: nat)

  datatype Inflight = Inflight(attempt: nat, epoch: nat, expiresAt: int)

  datatype Paused = Paused(offset: nat, resumeAt: int)

  datatype Group = Group(
    epoch: nat,
    owned: set<nat>,
    inflight: map<Coord, Inflight>,
    attempts: map<Coord, nat>,
    acked: map<nat, set<nat>>,
    safe: map<nat, nat>,
    paused: map<nat, Paused>,
    fetch: map<nat, nat>)

  const FRESH: Group := Group(0, {}, map[], map[], map[], map[], map[], map[])

  function Acked(g: Group, p: nat): set<nat> {
    if p in g.acked then g.acked[p] else {}
  }

  function Attempts(g: Group, c: Coord): nat {
    if c in g.attempts then g.attempts[c] else 0
  }

  function SafeOr(g: Group, p: nat, offset: nat): nat {
    if p in g.safe then g.safe[p] else offset
  }

  // ---------------------------------------------------------------- delivery

  datatype Delivery = Deferred | SeekRaised | Undecodable | Unminted | Handed(token: Token)

  /** The message was counted as an attempt. */
  predicate Counts(r: Delivery) {
    r.Unminted? || r.Handed?
  }

  /** What the caller sees of a message that the client handed out. */
  function DeliverResult(g: Group, c: Coord, clock: int, decodable: bool, minted: bool, seekOk: bool): Delivery {
    if HeldBack(g, c) && g.paused[c.partition].resumeAt > clock then (if seekOk then Deferred else SeekRaised)
    else if !decodable then Undecodable
    else if !minted then Unminted
    else Handed(Token(c, g.epoch, Attempts(g, c) + 1))
  }

  predicate HeldBack(g: Group, c: Coord) {
    c.partition in g.paused && g.paused[c.partition].offset == c.offset
  }

  /** The state after a message: held back again, skipped as undecodable, or handed out under a new attempt. */
  function Deliver(g: Group, c: Coord, clock: int, expiresAt: int, decodable: bool, minted: bool, seekOk: bool): Group {
    match DeliverResult(g, c, clock, decodable, minted, seekOk)
    case Deferred => g.(fetch := g.fetch[c.partition := c.offset])
    case SeekRaised => g.(fetch := g.fetch[c.partition := c.offset + 1])
    case Undecodable => Received(g, c)
    case Unminted => Counted(g, c)
    case Handed(t) => Counted(g, c).(inflight := g.inflight[c := Inflight(t.attempt, t.epoch, expiresAt)])
  }

  function Received(g: Group, c: Coord): Group {
    g.(fetch := g.fetch[c.partition := c.offset + 1],
       paused := if HeldBack(g, c) then g.paused - {c.partition} else g.paused)
  }

  function Counted(g: Group, c: Coord): Group {
    Received(g, c).(attempts := g.attempts[c := Attempts(g, c) + 1],
                    safe := g.safe[c.partition := SafeOr(g, c.partition, c.offset)])
  }

  /** What a message does to the attempts and to what is in flight. */
  lemma DeliverCounts(g: Group, c: Coord, clock: int, expiresAt: int, decodable: bool, minted: bool, seekOk: bool)
    ensures var g' := Deliver(g, c, clock, expiresAt, decodable, minted, seekOk);
            var r := DeliverResult(g, c, clock, decodable, minted, seekOk);
            && g'.epoch == g.epoch
            && g'.attempts == (if !Counts(r) then g.attempts else g.attempts[c := Attempts(g, c) + 1])
            && g'.inflight == (if r.Handed? then g.inflight[c := Inflight(Attempts(g, c) + 1, g.epoch, expiresAt)]
                               else g.inflight)
  {
  }

  /** What it does to the positions. */
  lemma DeliverSafe(g: Group, c: Coord, clock: int, expiresAt: int, decodable: bool, minted: bool, seekOk: bool)
    ensures var g' := Deliver(g, c, clock, expiresAt, decodable, minted, seekOk);
            var r := DeliverResult(g, c, clock, decodable, minted, seekOk);
            && g'.acked == g.acked
            && g'.safe == if !Counts(r) then g.safe else g.safe[c.partition := SafeOr(g, c.partition, c.offset)]
  {
  }

  /** What it does to the client. */
  lemma DeliverFetch(g: Group, c: Coord, clock: int, expiresAt: int, decodable: bool, minted: bool, seekOk: bool)
    ensures var g' := Deliver(g, c, clock, expiresAt, decodable, minted, seekOk);
            var r := DeliverResult(g, c, clock, decodable, minted, seekOk);
            && g'.fetch == g.fetch[c.partition := if r.Deferred? then c.offset else c.offset + 1]
            && g'.paused == if HeldBack(g, c) && !r.Deferred? && !r.SeekRaised? then g.paused - {c.partition}
                            else g.paused
  {
  }

  // --------------------------------------------------------- acknowledgement

  /** Remove the contiguous run of acknowledged offsets that starts at `safe`. */
  function Drain(safe: nat, acked: set<nat>): (r: (nat, set<nat>))
    decreases acked
  {
    if safe in acked then Drain(safe + 1, acked - {safe}) else (safe, acked)
  }

  datatype AckResult = RebalanceConflict | DeliveryRejected | CommitFailed | Accepted(committed: bool)

  predicate Current(g: Group, t: Token) {
    && t.epoch == g.epoch
    && t.coord in g.inflight
    && g.inflight[t.coord].epoch == g.epoch
    && g.inflight[t.coord].attempt == t.attempt
  }

  /** The safe position and pending acknowledgements after draining with the token's offset added. */
  function Drained(g: Group, c: Coord): (nat, set<nat>) {
    Drain(SafeOr(g, c.partition, c.offset), Acked(g, c.partition) + {c.offset})
  }

  predicate Advances(g: Group, c: Coord) {
    Drained(g, c).0 > SafeOr(g, c.partition, c.offset)
  }

  function AckOutcome(g: Group, t: Token, brokerOk: bool): AckResult {
    if t.epoch != g.epoch then RebalanceConflict
    else if !Current(g, t) then DeliveryRejected
    else if Advances(g, t.coord) && !brokerOk then CommitFailed
    else Accepted(Advances(g, t.coord))
  }

  /** The drain happens before the commit outcome is known and is not undone when the commit fails. */
  function Ack(g: Group, t: Token, brokerOk: bool): Group {
    var p := t.coord.partition;
    var d := Drained(g, t.coord);
    match AckOutcome(g, t, brokerOk)
    case RebalanceConflict => g
    case DeliveryRejected => g
    case CommitFailed => g.(acked := g.acked[p := d.1], safe := g.safe[p := SafeOr(g, p, t.coord.offset)])
    case Accepted(_) =>
      g.(acked := g.acked[p := d.1], safe := g.safe[p := d.0],
         inflight := g.inflight - {t.coord}, attempts := g.attempts - {t.coord})
  }

  // ------------------------------------------------- negative acknowledgement

  datatype DeadLetterPolicy = DeadLetterPolicy(maxAttempts: nat, hasStream: bool)

  datatype NackEnv = NackEnv(publishOk: bool, unexpired: bool, commitOk: bool, seekOk: bool, pauseOk: bool)

  datatype NackResult =
    NackConflict | NackRejected | PublishFailed | LetterTooLate | DeadLettered(ack: AckResult) | SeekFailed | Scheduled

  predicate Resolvable(g: Group, t: Token) {
    t.epoch == g.epoch && t.coord in g.inflight && g.inflight[t.coord].attempt == t.attempt
  }

  function NackOutcome(g: Group, t: Token, policy: DeadLetterPolicy, retryAfter: nat, env: NackEnv): NackResult {
    if t.epoch != g.epoch then NackConflict
    else if !Resolvable(g, t) then NackRejected
    else if t.attempt >= policy.maxAttempts && policy.hasStream then
      if !env.publishOk then PublishFailed
      else if !env.unexpired then LetterTooLate
      else DeadLettered(AckOutcome(g, t, env.commitOk))
    else if !env.seekOk || (retryAfter > 0 && !env.pauseOk) then SeekFailed
    else Scheduled
  }

  function Nack(g: Group, t: Token, policy: DeadLetterPolicy, retryAfter: nat, clock: int, env: NackEnv): Group {
    match NackOutcome(g, t, policy, retryAfter, env)
    case NackConflict => g
    case NackRejected => g
    case PublishFailed => g
    case LetterTooLate => g
    case DeadLettered(_) => Ack(g, t, env.commitOk)
    case SeekFailed =>
      if env.seekOk then Released(g, t.coord) else g.(inflight := g.inflight - {t.coord})
    case Scheduled =>
      if retryAfter > 0 then
        Released(g, t.coord).(paused := g.paused[t.coord.partition := Paused(t.coord.offset, clock + retryAfter)])
      else
        Released(g, t.coord)
  }

  function Released(g: Group, c: Coord): Group {
    g.(inflight := g.inflight - {c}, fetch := g.fetch[c.partition := c.offset])
  }

  // -------------------------------------------------------- expiry and resume

  predicate ExpiredAt(g: Group, now: int, c: Coord) {
    c in g.inflight && g.inflight[c].expiresAt <= now
  }

  /** `rewind` sends every partition that holds an expired delivery to the least expired offset, and no other. */
  ghost predicate LeastExpired(g: Group, now: int, rewind: map<nat, nat>) {
    && (forall c :: ExpiredAt(g, now, c) ==> c.partition in rewind && rewind[c.partition] <= c.offset)
    && (forall p :: p in rewind ==> ExpiredAt(g, now, Coord(p, rewind[p])))
  }

  predicate Survives(rewind: map<nat, nat>, c: Coord) {
    c.partition !in rewind || c.offset < rewind[c.partition]
  }

  /** Seek each partition of `rewind` back and forget what lies at or after the new fetch position. */
  function Rewind(g: Group, rewind: map<nat, nat>): Group {
    g.(fetch := g.fetch + rewind,
       inflight := map c | c in g.inflight && Survives(rewind, c) :: g.inflight[c],
       acked := map p | p in g.acked.Keys + rewind.Keys :: Below(Acked(g, p), rewind, p))
  }

  function Below(s: set<nat>, rewind: map<nat, nat>, p: nat): set<nat> {
    if p in rewind then Cut(s, rewind[p]) else s
  }

  function Cut(s: set<nat>, end: nat): set<nat> {
    set o | o in s && o < end
  }

  /** Seek every partition of `due` to its paused offset and resume it. A partition of `sought` was sought too, and then
      its resume raised. */
  function Resume(g: Group, due: set<nat>, sought: set<nat>): Group {
    g.(fetch := g.fetch + PausedAt(g.paused, due + sought), paused := g.paused - due)
  }

  function PausedAt(paused: map<nat, Paused>, due: set<nat>): map<nat, nat> {
    map p | p in paused && p in due :: paused[p].offset
  }

  // ------------------------------------------------- rebalance, group position

  /** The assigned callback: `starts` is where the client begins to fetch each partition. */
  function Assigned(g: Group, starts: map<nat, nat>): Group {
    g.(epoch := g.epoch + 1, owned := starts.Keys, fetch := starts)
  }

  function Revoked(g: Group, partitions: set<nat>): Group {
    g.(epoch := g.epoch + 1,
       owned := g.owned - partitions,
       inflight := map c | c in g.inflight && c.partition !in partitions :: g.inflight[c],
       attempts := map c | c in g.attempts && c.partition !in partitions :: g.attempts[c],
       acked := g.acked - partitions,
       paused := g.paused - partitions,
       fetch := map[])
  }

  function MovedTo(g: Group, target: map<nat, nat>): Group {
    g.(epoch := g.epoch + 1, inflight := map[], acked := map[], safe := target)
  }

  // ------------------------------------------------------------------ the run

  datatype Op =
    | OpDeliver(c: Coord, clock: int, expiresAt: int, decodable: bool, minted: bool, seekOk: bool)
    | OpAck(t: Token, brokerOk: bool)
    | OpNack(t: Token, policy: DeadLetterPolicy, retryAfter: nat, clock: int, env: NackEnv)
    | OpRewind(rewind: map<nat, nat>)
    | OpResume(due: set<nat>, sought: set<nat>)
    | OpAssigned(starts: map<nat, nat>)
    | OpRevoked(partitions: set<nat>)
    | OpMovedTo(target: map<nat, nat>)

  function Apply(g: Group, op: Op): Group {
    match op
    case OpDeliver(c, clock, expiresAt, decodable, minted, seekOk) =>
      Deliver(g, c, clock, expiresAt, decodable, minted, seekOk)
    case OpAck(t, ok) => Ack(g, t, ok)
    case OpNack(t, policy, retryAfter, clock, env) => Nack(g, t, policy, retryAfter, clock, env)
    case OpRewind(rewind) => Rewind(g, rewind)
    case OpResume(due, sought) => Resume(g, due, sought)
    case OpAssigned(starts) => Assigned(g, starts)
    case OpRevoked(partitions) => Revoked(g, partitions)
    case OpMovedTo(target) => MovedTo(g, target)
  }

  function Exec(g: Group, ops: seq<Op>): Group {
    if ops == [] then g else Apply(Exec(g, ops[..|ops| - 1]), ops[|ops| - 1])
  }

  // ------------------------------------------------------- the state invariant

  /** What every transition keeps, whatever the broker answers. */
  ghost predicate Sound(g: Group) {
    && (forall c :: c in g.inflight ==> InflightSound(g, c))
    && (forall p :: p in g.acked ==> PendingSound(g, p))
  }

  ghost predicate InflightSound(g: Group, c: Coord)
    requires c in g.inflight
  {
    && 1 <= g.inflight[c].attempt <= Attempts(g, c)
    && g.inflight[c].epoch <= g.epoch
    && c.partition in g.safe
  }

  ghost predicate PendingSound(g: Group, p: nat) {
    if p in g.safe then g.safe[p] !in Acked(g, p) else Acked(g, p) == {}
  }

  lemma {:induction false} DrainMeaning(safe: nat, acked: set<nat>)
    ensures var r := Drain(safe, acked);
            && safe <= r.0 && r.0 !in acked
            && (forall x :: safe <= x < r.0 ==> x in acked)
            && (forall x :: x in r.1 <==> x in acked && !(safe <= x < r.0))
    decreases acked
  {
    if safe in acked {
      DrainMeaning(safe + 1, acked - {safe});
    }
  }

  lemma ApplySound(g: Group, op: Op)
    requires Sound(g)
    ensures Sound(Apply(g, op))
  {
    match op
    case OpAck(t, ok) => AckSound(g, t, ok);
    case OpNack(t, policy, retryAfter, clock, env) => NackSound(g, t, policy, retryAfter, clock, env);
    case OpRewind(rewind) => RewindSound(g, rewind);
    case OpDeliver(c, clock, expiresAt, decodable, minted, seekOk) =>
      DeliverSound(g, c, clock, expiresAt, decodable, minted, seekOk);
    case OpRevoked(partitions) => RevokedSound(g, partitions);
    case _ => QuietSound(g, Apply(g, op));
  }

  /** Losing deliveries and gaining an epoch changes nothing that matters. */
  lemma QuietSound(g: Group, g': Group)
    requires Sound(g) && g.epoch <= g'.epoch
    requires (g'.safe == g.safe && g'.acked == g.acked) || g'.acked == map[]
    requires (g'.safe == g.safe && g'.attempts == g.attempts) || g'.inflight == map[]
    requires forall c :: c in g'.inflight ==> c in g.inflight && g'.inflight[c] == g.inflight[c]
    ensures Sound(g')
  {
    forall c | c in g'.inflight ensures InflightSound(g', c) {
      assert InflightSound(g, c);
    }
    forall p | p in g'.acked ensures PendingSound(g', p) {
      assert PendingSound(g, p);
    }
  }

  lemma RevokedSound(g: Group, partitions: set<nat>)
    requires Sound(g)
    ensures Sound(Revoked(g, partitions))
  {
    var g' := Revoked(g, partitions);
    forall c | c in g'.inflight ensures InflightSound(g', c) {
      assert InflightSound(g, c);
    }
    forall p | p in g'.acked ensures PendingSound(g', p) {
      assert PendingSound(g, p);
    }
  }

  lemma NackSound(g: Group, t: Token, policy: DeadLetterPolicy, retryAfter: nat, clock: int, env: NackEnv)
    requires Sound(g)
    ensures Sound(Nack(g, t, policy, retryAfter, clock, env))
  {
    match NackOutcome(g, t, policy, retryAfter, env)
    case DeadLettered(_) => AckSound(g, t, env.commitOk);
    case SeekFailed => QuietSound(g, Nack(g, t, policy, retryAfter, clock, env));
    case Scheduled => QuietSound(g, Nack(g, t, policy, retryAfter, clock, env));
    case _ =>
  }

  lemma AckSound(g: Group, t: Token, ok: bool)
    requires Sound(g)
    ensures Sound(Ack(g, t, ok))
  {
    var p := t.coord.partition;
    DrainMeaning(SafeOr(g, p, t.coord.offset), Acked(g, p) + {t.coord.offset});
    var g' := Ack(g, t, ok);
    forall q | q in g'.acked ensures PendingSound(g', q) {
      assert q != p ==> q in g.acked && PendingSound(g, q);
    }
    forall c | c in g'.inflight ensures InflightSound(g', c) {
      assert InflightSound(g, c);
    }
  }

  lemma RewindSound(g: Group, rewind: map<nat, nat>)
    requires Sound(g)
    ensures Sound(Rewind(g, rewind))
  {
    var g' := Rewind(g, rewind);
    forall p | p in g'.acked ensures PendingSound(g', p) {
      assert p in g.acked ==> PendingSound(g, p);
    }
    forall c | c in g'.inflight ensures InflightSound(g', c) {
      assert InflightSound(g, c);
    }
  }

  lemma CountedSound(g: Group, c: Coord)
    requires Sound(g)
    ensures Sound(Counted(g, c))
  {
    var g' := Counted(g, c);
    assert g'.inflight == g.inflight && g'.acked == g.acked && g'.epoch == g.epoch;
    forall p | p in g'.acked ensures PendingSound(g', p) {
      assert PendingSound(g, p);
    }
    forall d | d in g'.inflight ensures InflightSound(g', d) {
      assert InflightSound(g, d);
    }
  }

  lemma DeliverSound(g: Group, c: Coord, clock: int, expiresAt: int, decodable: bool, minted: bool, seekOk: bool)
    requires Sound(g)
    ensures Sound(Deliver(g, c, clock, expiresAt, decodable, minted, seekOk))
  {
    match DeliverResult(g, c, clock, decodable, minted, seekOk)
    case Deferred =>
    case SeekRaised =>
    case Undecodable =>
    case Unminted => CountedSound(g, c);
    case Handed(t) => HandedSound(g, c, Inflight(t.attempt, t.epoch, expiresAt));
  }

  lemma HandedSound(g: Group, c: Coord, item: Inflight)
    requires Sound(g)
    requires item.attempt == Attempts(g, c) + 1 && item.epoch == g.epoch
    ensures Sound(Counted(g, c).(inflight := g.inflight[c := item]))
  {
    var g1 := Counted(g, c);
    var g' := g1.(inflight := g.inflight[c := item]);
    CountedSound(g, c);
    forall p | p in g'.acked ensures PendingSound(g', p) {
      assert PendingSound(g1, p);
    }
    forall d | d in g'.inflight ensures InflightSound(g', d) {
      if d != c { assert d in g1.inflight && InflightSound(g1, d); }
    }
  }

  /** Every state a run can reach is sound. */
  lemma {:induction false} ExecSound(g: Group, ops: seq<Op>)
    requires Sound(g)
    ensures Sound(Exec(g, ops))
  {
    if ops != [] {
      ExecSound(g, ops[..|ops| - 1]);
      ApplySound(Exec(g, ops[..|ops| - 1]), ops[|ops| - 1]);
    }
  }
}
