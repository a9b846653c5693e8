/** One consumer group beside the broker: the log of its stream, the committed offsets, and a record of what was
    resolved. The log, the high watermarks and `committed` are the broker's; `live` is the engine's state, if any;
    `base`, `done`, `parked` and `pending` only keep track of the past. */
module Durability {
  import opened Basics
  import opened ConsumerGroup
  import Transactions

  datatype World = World(
    records: set<Coord>,       // retained records that decode
    high: map<nat, nat>,       // high watermarks
    committed: map<nat, nat>,
    base: map<nat, nat>,       // the initial position, or the last one set explicitly
    done: set<Coord>,          // acknowledged directly or in a committed transaction, since that position was set
    parked: set<Coord>,        // written to the dead-letter stream and acknowledged
    pending: set<Coord>,       // acknowledged inside the transaction that is still active
    live: Option<Group>)

  function High(w: World, p: nat): nat {
    if p in w.high then w.high[p] else 0
  }

  function Resolved(w: World): set<Coord> {
    w.done + w.parked
  }

  /** Every retained record of `p` from the base up to `end` is among `known`. */
  ghost predicate Covered(w: World, p: nat, end: nat, known: set<Coord>)
    requires p in w.base
  {
    forall o :: w.base[p] <= o < end && Coord(p, o) in w.records ==> Coord(p, o) in known
  }

  /** The broker's committed offset never passes a record that nobody resolved. */
  ghost predicate Durable(w: World) {
    forall p :: p in w.committed ==> p in w.base && Covered(w, p, w.committed[p], Resolved(w))
  }

  /** What a live state may count on: inside a transaction that touched the group, its own acknowledgements too. */
  function Backing(w: World, touched: bool): set<Coord> {
    if touched then Resolved(w) + w.pending else Resolved(w)
  }

  ghost predicate Reaches(w: World, p: nat, end: nat, known: set<Coord>) {
    p in w.base && end <= High(w, p) && Covered(w, p, end, known)
  }

  ghost predicate LiveOk(w: World, g: Group, known: set<Coord>) {
    && Sound(g)
    && (forall p :: p in g.safe ==> Reaches(w, p, g.safe[p], known))
    && (forall p, o :: p in g.acked && o in g.acked[p] ==> Coord(p, o) in known && o < High(w, p))
    && (forall c :: c in g.inflight ==> c.offset < High(w, c.partition))
    && (forall p :: p in g.fetch ==> FetchOk(w, g, p))
    && (forall p :: p in g.paused ==> p in g.safe && g.paused[p].offset <= High(w, p))
  }

  ghost predicate FetchOk(w: World, g: Group, p: nat)
    requires p in g.fetch
  {
    p in w.base && g.fetch[p] <= High(w, p) && (p !in g.safe ==> Covered(w, p, g.fetch[p], Resolved(w)))
  }

  ghost predicate Kept(w: World, touched: bool, staged: map<nat, nat>) {
    && (forall p :: p in w.committed ==> Reaches(w, p, w.committed[p], Resolved(w)))
    && (forall p :: p in staged ==> Reaches(w, p, staged[p], Resolved(w) + w.pending))
    && (w.live.Some? ==> LiveOk(w, w.live.value, Backing(w, touched)))
  }

  lemma KeptIsDurable(w: World, touched: bool, staged: map<nat, nat>)
    requires Kept(w, touched, staged)
    ensures Durable(w)
  {
    forall p | p in w.committed ensures p in w.base && Covered(w, p, w.committed[p], Resolved(w)) {
      assert Reaches(w, p, w.committed[p], Resolved(w));
    }
  }

  // -------------------------------------------------------- the environment

  function Append(w: World, c: Coord, decodable: bool): World {
    w.(records := if decodable then w.records + {c} else w.records, high := w.high[c.partition := c.offset + 1])
  }

  function Truncate(w: World, removed: set<Coord>): World {
    w.(records := w.records - removed)
  }

  /** Another member of the group commits `end` for a partition that is not assigned here. */
  function Peer(w: World, p: nat, start: nat, end: nat, resolved: set<Coord>): World {
    w.(committed := w.committed[p := end],
       base := if p in w.base then w.base else w.base[p := start],
       done := w.done + resolved)
  }

  ghost predicate PeerAllowed(w: World, p: nat, start: nat, end: nat, resolved: set<Coord>) {
    && (w.live.Some? ==> p !in w.live.value.fetch)
    && Reaches(Peer(w, p, start, end, resolved), p, end, Resolved(Peer(w, p, start, end, resolved)))
  }

  // -------------------------------------------------------- the live state

  function Opened(w: World): World {
    if w.live.None? then w.(live := Some(FRESH)) else w
  }

  function Recovered(w: World): World {
    w.(live := None)
  }

  /** The client hands out the next message at or after its fetch position; records that decode are not passed over. */
  ghost predicate NextMessage(w: World, g: Group, c: Coord, decodable: bool) {
    && c.partition in g.fetch && g.fetch[c.partition] <= c.offset < High(w, c.partition)
    && (forall o :: g.fetch[c.partition] <= o < c.offset ==> Coord(c.partition, o) !in w.records)
    && (c in w.records ==> decodable)
  }

  /** An assignment starts at the committed offset; without one, where the reset policy puts it, which never moves back
      and passes over no retained record since the partition was first started. */
  ghost predicate StartsAllowed(w: World, starts: map<nat, nat>) {
    forall p :: p in starts ==>
      if p in w.committed then starts[p] == w.committed[p]
      else starts[p] <= High(w, p) && (p in w.base ==> w.base[p] <= starts[p] && !Skips(w, p, starts[p]))
  }

  /** A retained record lies between the first start of a partition and a later one. */
  predicate Skips(w: World, p: nat, start: nat)
    requires p in w.base
  {
    exists c :: c in w.records && c.partition == p && w.base[p] <= c.offset < start
  }

  function AssignedAt(w: World, g: Group, starts: map<nat, nat>): World {
    w.(live := Some(Assigned(g, starts)),
       base := (map p | p in starts && p !in w.committed :: starts[p]) + w.base)
  }

  // -------------------------------------------------------- acknowledgements

  /** An acknowledgement outside a transaction: an advance is committed at the broker. */
  function DirectAck(w: World, g: Group, t: Token, commitOk: bool): World {
    var r := AckOutcome(g, t, commitOk);
    if r.Accepted? then Commit(w, g, t, r.committed).(live := Some(Ack(g, t, commitOk)), done := w.done + {t.coord})
    else w.(live := Some(Ack(g, t, commitOk)))
  }

  function Commit(w: World, g: Group, t: Token, advanced: bool): World {
    if advanced then w.(committed := w.committed[t.coord.partition := Drained(g, t.coord).0]) else w
  }

  /** An acknowledgement inside a transaction: nothing is durable before the transaction commits. */
  function TxAck(w: World, g: Group, t: Token, stageOk: bool): World {
    w.(live := Some(Ack(g, t, stageOk)),
       pending := if AckOutcome(g, t, stageOk).Accepted? then w.pending + {t.coord} else w.pending)
  }

  function Nacked(w: World, g: Group, t: Token, policy: DeadLetterPolicy, retryAfter: nat, clock: int,
                  env: NackEnv): World {
    var r := NackOutcome(g, t, policy, retryAfter, env);
    var w' := w.(live := Some(Nack(g, t, policy, retryAfter, clock, env)));
    if r.DeadLettered? && r.ack.Accepted? then Commit(w', g, t, r.ack.committed).(parked := w.parked + {t.coord})
    else w'
  }

  function TxCommitted(w: World, staged: map<nat, nat>): World {
    w.(committed := w.committed + staged, done := w.done + w.pending, pending := {})
  }

  function TxAborted(w: World): World {
    w.(pending := {})
  }

  // ---------------------------------------------------- explicit group position

  function Elsewhere(s: set<Coord>, target: map<nat, nat>): set<Coord> {
    set c | c in s && c.partition !in target
  }

  /** The position is set: the past of those partitions no longer counts. */
  function Repositioned(w: World, g: Group, target: map<nat, nat>): World {
    w.(committed := w.committed + target, base := w.base + target, live := Some(MovedTo(g, target)),
       done := Elsewhere(w.done, target), parked := Elsewhere(w.parked, target),
       pending := Elsewhere(w.pending, target))
  }

  /** The target names every partition of the stream, within the watermarks. */
  ghost predicate TargetAllowed(w: World, g: Group, target: map<nat, nat>) {
    g.safe.Keys <= target.Keys && forall p :: p in target ==> target[p] <= High(w, p)
  }

  // ------------------------------------------------------------- preservation

  /** The world has only moved forward: what was covered stays covered. */
  ghost predicate Onward(w: World, w': World) {
    && (forall p :: p in w.base ==> p in w'.base && w.base[p] <= w'.base[p])
    && (forall p :: High(w, p) <= High(w', p))
    && (forall c :: c in w'.records && c !in w.records ==> High(w, c.partition) <= c.offset)
    && Resolved(w) <= Resolved(w')
  }

  lemma ReachesOn(w: World, w': World, p: nat, end: nat, known: set<Coord>, known': set<Coord>)
    requires Onward(w, w') && known <= known' && Reaches(w, p, end, known)
    ensures Reaches(w', p, end, known')
  {
  }

  lemma LiveOn(w: World, w': World, g: Group, known: set<Coord>, known': set<Coord>)
    requires Onward(w, w') && known <= known' && LiveOk(w, g, known)
    ensures LiveOk(w', g, known')
  {
    forall p | p in g.safe ensures Reaches(w', p, g.safe[p], known') {
      ReachesOn(w, w', p, g.safe[p], known, known');
    }
    forall p | p in g.fetch ensures FetchOk(w', g, p) {
      assert FetchOk(w, g, p);
      if p !in g.safe { ReachesOn(w, w', p, g.fetch[p], Resolved(w), Resolved(w')); }
    }
  }

  /** A step that leaves the live state alone and only moves the world forward keeps everything but new commits. */
  lemma KeptOn(w: World, w': World, touched: bool, touched': bool, staged: map<nat, nat>)
    requires Kept(w, touched, staged) && Onward(w, w')
    requires w'.live == w.live || w'.live.None?
    requires Resolved(w) + w.pending <= Resolved(w') + w'.pending
    requires w'.live.Some? ==> Backing(w, touched) <= Backing(w', touched')
    requires forall p :: p in w'.committed ==>
               (p in w.committed && w'.committed[p] == w.committed[p]) || Reaches(w', p, w'.committed[p], Resolved(w'))
    ensures Kept(w', touched', staged)
  {
    forall p | p in w'.committed ensures Reaches(w', p, w'.committed[p], Resolved(w')) {
      if p in w.committed && w'.committed[p] == w.committed[p] {
        ReachesOn(w, w', p, w.committed[p], Resolved(w), Resolved(w'));
      }
    }
    forall p | p in staged ensures Reaches(w', p, staged[p], Resolved(w') + w'.pending) {
      ReachesOn(w, w', p, staged[p], Resolved(w) + w.pending, Resolved(w') + w'.pending);
    }
    if w'.live.Some? { LiveOn(w, w', w.live.value, Backing(w, touched), Backing(w', touched')); }
  }

  lemma AppendKept(w: World, c: Coord, decodable: bool, touched: bool, staged: map<nat, nat>)
    requires Kept(w, touched, staged) && High(w, c.partition) <= c.offset
    ensures Kept(Append(w, c, decodable), touched, staged)
  {
    KeptOn(w, Append(w, c, decodable), touched, touched, staged);
  }

  lemma TruncateKept(w: World, removed: set<Coord>, touched: bool, staged: map<nat, nat>)
    requires Kept(w, touched, staged)
    ensures Kept(Truncate(w, removed), touched, staged)
  {
    KeptOn(w, Truncate(w, removed), touched, touched, staged);
  }

  lemma PeerKept(w: World, p: nat, start: nat, end: nat, resolved: set<Coord>, touched: bool, staged: map<nat, nat>)
    requires Kept(w, touched, staged) && PeerAllowed(w, p, start, end, resolved)
    ensures Kept(Peer(w, p, start, end, resolved), touched, staged)
  {
    KeptOn(w, Peer(w, p, start, end, resolved), touched, touched, staged);
  }

  /** Replacing only the live state needs only the new state to be in order. */
  lemma NewLiveKept(w: World, g: Group, touched: bool, staged: map<nat, nat>)
    requires Kept(w, touched, staged) && LiveOk(w, g, Backing(w, touched))
    ensures Kept(w.(live := Some(g)), touched, staged)
  {
    var w' := w.(live := Some(g));
    KeptOn(w, w.(live := None), touched, touched, staged);
    LiveOn(w, w', g, Backing(w, touched), Backing(w', touched));
    assert forall p, end: nat, known :: Reaches(w, p, end, known) ==> Reaches(w', p, end, known);
  }

  /** What a message can change, whichever way it is handled. */
  ghost predicate DeliverShape(g: Group, g': Group, c: Coord, decodable: bool) {
    && g'.acked == g.acked
    && (forall d :: d in g'.inflight ==> d == c || d in g.inflight)
    && (forall q :: q in g'.paused ==> q in g.paused && g'.paused[q] == g.paused[q])
    && (g'.safe == g.safe || g'.safe == g.safe[c.partition := SafeOr(g, c.partition, c.offset)])
    && (|| g'.fetch == g.fetch[c.partition := c.offset]
        || (g'.fetch == g.fetch[c.partition := c.offset + 1]
            && (decodable ==> c.partition in g'.safe || c.partition in g.paused)))
  }

  lemma DeliverHasShape(g: Group, c: Coord, clock: int, expiresAt: int, decodable: bool, minted: bool, seekOk: bool)
    ensures DeliverShape(g, Deliver(g, c, clock, expiresAt, decodable, minted, seekOk), c, decodable)
  {
    DeliverSafe(g, c, clock, expiresAt, decodable, minted, seekOk);
    DeliverFetch(g, c, clock, expiresAt, decodable, minted, seekOk);
    DeliverCounts(g, c, clock, expiresAt, decodable, minted, seekOk);
    ShapeFrom(g, Deliver(g, c, clock, expiresAt, decodable, minted, seekOk), c,
              DeliverResult(g, c, clock, decodable, minted, seekOk), decodable);
  }

  lemma ShapeFrom(g: Group, g': Group, c: Coord, r: Delivery, decodable: bool)
    requires g'.acked == g.acked && (forall d :: d in g'.inflight ==> d == c || d in g.inflight)
    requires g'.safe == if !Counts(r) then g.safe else g.safe[c.partition := SafeOr(g, c.partition, c.offset)]
    requires g'.fetch == g.fetch[c.partition := if r.Deferred? then c.offset else c.offset + 1]
    requires g'.paused == if HeldBack(g, c) && !r.Deferred? && !r.SeekRaised? then g.paused - {c.partition}
                          else g.paused
    requires (r.SeekRaised? ==> HeldBack(g, c)) && (r.Undecodable? ==> !decodable)
    ensures DeliverShape(g, g', c, decodable)
  {
  }

  lemma ShapeKept(w: World, g: Group, g': Group, c: Coord, decodable: bool, known: set<Coord>)
    requires LiveOk(w, g, known) && NextMessage(w, g, c, decodable) && Resolved(w) <= known
    requires Sound(g') && DeliverShape(g, g', c, decodable)
    ensures LiveOk(w, g', known)
  {
    var p := c.partition;
    assert FetchOk(w, g, p);
    forall q | q in g'.safe ensures Reaches(w, q, g'.safe[q], known) {
      if q in g.safe { assert Reaches(w, q, g.safe[q], known); }
    }
    forall q | q in g'.fetch ensures FetchOk(w, g', q) {
      if q != p { assert FetchOk(w, g, q); }
    }
  }

  lemma DeliverKept(w: World, g: Group, c: Coord, clock: int, expiresAt: int, decodable: bool, minted: bool,
                    seekOk: bool, known: set<Coord>)
    requires LiveOk(w, g, known) && NextMessage(w, g, c, decodable) && Resolved(w) <= known
    ensures LiveOk(w, Deliver(g, c, clock, expiresAt, decodable, minted, seekOk), known)
  {
    DeliverSound(g, c, clock, expiresAt, decodable, minted, seekOk);
    DeliverHasShape(g, c, clock, expiresAt, decodable, minted, seekOk);
    ShapeKept(w, g, Deliver(g, c, clock, expiresAt, decodable, minted, seekOk), c, decodable, known);
  }

  lemma RewindKept(w: World, g: Group, rewind: map<nat, nat>, known: set<Coord>)
    requires LiveOk(w, g, known)
    requires forall p :: p in rewind ==> Coord(p, rewind[p]) in g.inflight
    ensures LiveOk(w, Rewind(g, rewind), known)
  {
    var g' := Rewind(g, rewind);
    RewindSound(g, rewind);
    RewindFetches(w, g, rewind, known, g');
    RewindAcks(w, g, rewind, known);
  }

  lemma RewindAcks(w: World, g: Group, rewind: map<nat, nat>, known: set<Coord>)
    requires LiveOk(w, g, known)
    ensures var g' := Rewind(g, rewind); forall p, o :: p in g'.acked && o in g'.acked[p] ==>
        Coord(p, o) in known && o < High(w, p)
  {
    var g' := Rewind(g, rewind);
    forall p, o | p in g'.acked && o in g'.acked[p] ensures Coord(p, o) in known && o < High(w, p) {
      assert p in g.acked && o in g.acked[p];
    }
  }

  lemma RewindFetches(w: World, g: Group, rewind: map<nat, nat>, known: set<Coord>, g': Group)
    requires LiveOk(w, g, known) && g'.safe == g.safe && g'.fetch == g.fetch + rewind
    requires forall p :: p in rewind ==> Coord(p, rewind[p]) in g.inflight
    ensures forall p :: p in g'.fetch ==> FetchOk(w, g', p)
  {
    forall p | p in g'.fetch ensures FetchOk(w, g', p) {
      if p in rewind {
        assert InflightSound(g, Coord(p, rewind[p])) && Reaches(w, p, g.safe[p], known);
      } else {
        assert FetchOk(w, g, p);
      }
    }
  }

  lemma ResumeKept(w: World, g: Group, due: set<nat>, sought: set<nat>, known: set<Coord>)
    requires LiveOk(w, g, known)
    ensures LiveOk(w, Resume(g, due, sought), known)
  {
    var g' := Resume(g, due, sought);
    forall p | p in g'.fetch ensures FetchOk(w, g', p) {
      if p in due + sought && p in g.paused {
        assert Reaches(w, p, g.safe[p], known);
      } else {
        assert FetchOk(w, g, p);
      }
    }
  }

  lemma RevokedKept(w: World, g: Group, partitions: set<nat>, known: set<Coord>)
    requires LiveOk(w, g, known)
    ensures LiveOk(w, Revoked(g, partitions), known)
  {
    ApplySound(g, OpRevoked(partitions));
  }

  lemma AssignedKept(w: World, g: Group, starts: map<nat, nat>, touched: bool, staged: map<nat, nat>)
    requires w.live == Some(g) && Kept(w, touched, staged) && StartsAllowed(w, starts)
    ensures Kept(AssignedAt(w, g, starts), touched, staged)
  {
    var mid := AssignedAt(w, g, starts).(live := Some(g));
    KeptOn(w, mid, touched, touched, staged);
    StartsKept(mid, g, starts, Backing(mid, touched));
    NewLiveKept(mid, Assigned(g, starts), touched, staged);
    assert AssignedAt(w, g, starts) == mid.(live := Some(Assigned(g, starts)));
  }

  lemma StartsKept(w: World, g: Group, starts: map<nat, nat>, known: set<Coord>)
    requires LiveOk(w, g, known)
    requires forall p :: p in starts ==> Reaches(w, p, starts[p], Resolved(w))
    ensures LiveOk(w, Assigned(g, starts), known)
  {
    ApplySound(g, OpAssigned(starts));
  }

  // ------------------------------------------------ acknowledgements keep it too

  /** The heart of it: draining only passes offsets that are known, so a covered safe position stays covered. */
  lemma DrainReaches(w: World, g: Group, t: Token, known: set<Coord>)
    requires LiveOk(w, g, known) && Current(g, t)
    ensures Reaches(w, t.coord.partition, Drained(g, t.coord).0, known + {t.coord})
    ensures forall o :: o in Drained(g, t.coord).1 ==>
              Coord(t.coord.partition, o) in known + {t.coord} && o < High(w, t.coord.partition)
    ensures Advances(g, t.coord) ==> forall o :: o in Drained(g, t.coord).1 ==> o in Acked(g, t.coord.partition)
  {
    var p, o := t.coord.partition, t.coord.offset;
    assert InflightSound(g, t.coord) && Reaches(w, p, g.safe[p], known);
    var all := Acked(g, p) + {o};
    DrainMeaning(g.safe[p], all);
    assert forall x :: x in all ==> Coord(p, x) in known + {t.coord} && x < High(w, p);
    assert p in g.acked ==> PendingSound(g, p);
    var d := Drained(g, t.coord);
    if Advances(g, t.coord) {
      assert g.safe[p] in all && o == g.safe[p];
    }
    if d.0 > g.safe[p] { assert d.0 - 1 in all; }
  }

  lemma AckLive(w: World, g: Group, t: Token, ok: bool, known: set<Coord>)
    requires LiveOk(w, g, known)
    ensures LiveOk(w, Ack(g, t, ok), if AckOutcome(g, t, ok).Accepted? then known + {t.coord} else known)
  {
    AckSound(g, t, ok);
    if Current(g, t) {
      DrainReaches(w, g, t, known);
      if AckOutcome(g, t, ok).Accepted? { AcceptedLive(w, g, t, ok, known); } else { FailedLive(w, g, t, ok, known); }
    }
  }

  lemma AcceptedLive(w: World, g: Group, t: Token, ok: bool, known: set<Coord>)
    requires LiveOk(w, g, known) && AckOutcome(g, t, ok).Accepted? && Sound(Ack(g, t, ok))
    requires Reaches(w, t.coord.partition, Drained(g, t.coord).0, known + {t.coord})
    requires forall o :: o in Drained(g, t.coord).1 ==>
               Coord(t.coord.partition, o) in known + {t.coord} && o < High(w, t.coord.partition)
    ensures LiveOk(w, Ack(g, t, ok), known + {t.coord})
  {
    var g', p := Ack(g, t, ok), t.coord.partition;
    assert g'.safe == g.safe[p := Drained(g, t.coord).0] && g'.acked == g.acked[p := Drained(g, t.coord).1];
    assert g'.inflight == g.inflight - {t.coord} && g'.fetch == g.fetch && g'.paused == g.paused;
    forall q | q in g'.safe ensures Reaches(w, q, g'.safe[q], known + {t.coord}) {
      if q != p { assert Reaches(w, q, g.safe[q], known); }
    }
    forall q | q in g'.fetch ensures FetchOk(w, g', q) {
      assert FetchOk(w, g, q);
    }
  }

  lemma FailedLive(w: World, g: Group, t: Token, ok: bool, known: set<Coord>)
    requires LiveOk(w, g, known) && Current(g, t) && AckOutcome(g, t, ok).CommitFailed? && Sound(Ack(g, t, ok))
    requires Advances(g, t.coord) ==> forall o :: o in Drained(g, t.coord).1 ==> o in Acked(g, t.coord.partition)
    ensures LiveOk(w, Ack(g, t, ok), known)
  {
    var g', p := Ack(g, t, ok), t.coord.partition;
    assert InflightSound(g, t.coord);
    assert g'.safe == g.safe && g'.acked == g.acked[p := Drained(g, t.coord).1];
    assert g'.inflight == g.inflight && g'.fetch == g.fetch && g'.paused == g.paused;
    forall q | q in g'.fetch ensures FetchOk(w, g', q) {
      assert FetchOk(w, g, q);
    }
  }

  lemma DirectAckKept(w: World, g: Group, t: Token, ok: bool, staged: map<nat, nat>)
    requires w.live == Some(g) && Kept(w, false, staged)
    ensures Kept(DirectAck(w, g, t, ok), false, staged)
  {
    AckLive(w, g, t, ok, Resolved(w));
    var r := AckOutcome(g, t, ok);
    if r.Accepted? {
      DrainReaches(w, g, t, Resolved(w));
      ResolvedKept(w, DirectAck(w, g, t, ok), g, t, Ack(g, t, ok), r.committed, staged);
    } else {
      NewLiveKept(w, Ack(g, t, ok), false, staged);
    }
  }

  /** A resolved delivery: the advance, if any, is committed, and the coordinate joins what is resolved. */
  lemma ResolvedKept(w: World, w': World, g: Group, t: Token, g': Group, advanced: bool, staged: map<nat, nat>)
    requires w.live == Some(g) && Kept(w, false, staged)
    requires LiveOk(w, g', Resolved(w) + {t.coord})
    requires Reaches(w, t.coord.partition, Drained(g, t.coord).0, Resolved(w) + {t.coord})
    requires Resolved(w') == Resolved(w) + {t.coord}
    requires w' == Commit(w, g, t, advanced).(live := Some(g'), done := w'.done, parked := w'.parked)
    ensures Kept(w', false, staged)
  {
    var mid := w'.(live := None);
    ReachesOn(w, mid, t.coord.partition, Drained(g, t.coord).0, Resolved(w) + {t.coord}, Resolved(mid));
    KeptOn(w, mid, false, false, staged);
    LiveOn(w, mid, g', Resolved(w) + {t.coord}, Resolved(mid));
    NewLiveKept(mid, g', false, staged);
    assert w' == mid.(live := Some(g'));
  }

  /** A dead letter commits like a direct acknowledgement; a delivery that is only released commits nothing. */
  lemma NackKept(w: World, g: Group, t: Token, policy: DeadLetterPolicy, retryAfter: nat, clock: int, env: NackEnv,
                 touched: bool, staged: map<nat, nat>)
    requires w.live == Some(g) && Kept(w, touched, staged)
    requires NackOutcome(g, t, policy, retryAfter, env).DeadLettered? ==> !touched
    ensures Kept(Nacked(w, g, t, policy, retryAfter, clock, env), touched, staged)
  {
    var r := NackOutcome(g, t, policy, retryAfter, env);
    var g' := Nack(g, t, policy, retryAfter, clock, env);
    if r.DeadLettered? && r.ack.Accepted? {
      DeadLetterKept(w, g, t, env.commitOk, Nacked(w, g, t, policy, retryAfter, clock, env), staged);
    } else if r.DeadLettered? {
      AckLive(w, g, t, env.commitOk, Resolved(w));
      NewLiveKept(w, g', touched, staged);
    } else {
      ReleasedLive(w, g, t, policy, retryAfter, clock, env, Backing(w, touched));
      NewLiveKept(w, g', touched, staged);
    }
  }

  lemma DeadLetterKept(w: World, g: Group, t: Token, ok: bool, w': World, staged: map<nat, nat>)
    requires w.live == Some(g) && Kept(w, false, staged) && AckOutcome(g, t, ok).Accepted?
    requires w' == Commit(w, g, t, AckOutcome(g, t, ok).committed).(live := Some(Ack(g, t, ok)),
                                                                    parked := w.parked + {t.coord})
    ensures Kept(w', false, staged)
  {
    AckLive(w, g, t, ok, Resolved(w));
    DrainReaches(w, g, t, Resolved(w));
    ResolvedKept(w, w', g, t, Ack(g, t, ok), AckOutcome(g, t, ok).committed, staged);
  }

  /** What a rejected or rescheduled delivery can change. */
  ghost predicate ReleaseShape(g: Group, g': Group, c: Coord) {
    && g'.safe == g.safe && g'.acked == g.acked
    && (forall d :: d in g'.inflight ==> d in g.inflight)
    && (g' == g || c in g.inflight)
    && (g'.fetch == g.fetch || g'.fetch == g.fetch[c.partition := c.offset])
    && (forall q :: q in g'.paused ==>
          (q in g.paused && g'.paused[q] == g.paused[q]) || (q == c.partition && g'.paused[q].offset == c.offset))
  }

  lemma NackHasShape(g: Group, t: Token, policy: DeadLetterPolicy, retryAfter: nat, clock: int, env: NackEnv)
    requires !NackOutcome(g, t, policy, retryAfter, env).DeadLettered?
    ensures ReleaseShape(g, Nack(g, t, policy, retryAfter, clock, env), t.coord)
  {
    match NackOutcome(g, t, policy, retryAfter, env)
    case NackConflict =>
    case NackRejected =>
    case PublishFailed =>
    case LetterTooLate =>
    case SeekFailed =>
    case Scheduled =>
  }

  lemma ReleaseShapeLive(w: World, g: Group, g': Group, c: Coord, known: set<Coord>)
    requires LiveOk(w, g, known) && Sound(g') && ReleaseShape(g, g', c)
    ensures LiveOk(w, g', known)
  {
    if g' != g {
      var p := c.partition;
      assert InflightSound(g, c) && Reaches(w, p, g.safe[p], known);
      forall q | q in g'.fetch ensures FetchOk(w, g', q) {
        assert q in g.fetch ==> FetchOk(w, g, q);
      }
    }
  }

  lemma ReleasedLive(w: World, g: Group, t: Token, policy: DeadLetterPolicy, retryAfter: nat, clock: int, env: NackEnv,
                     known: set<Coord>)
    requires LiveOk(w, g, known) && !NackOutcome(g, t, policy, retryAfter, env).DeadLettered?
    ensures LiveOk(w, Nack(g, t, policy, retryAfter, clock, env), known)
  {
    ApplySound(g, OpNack(t, policy, retryAfter, clock, env));
    NackHasShape(g, t, policy, retryAfter, clock, env);
    ReleaseShapeLive(w, g, Nack(g, t, policy, retryAfter, clock, env), t.coord, known);
  }

  function StagedAfter(g: Group, t: Token, ok: bool, staged: map<nat, nat>): map<nat, nat> {
    if AckOutcome(g, t, ok) == Accepted(true)
    then Transactions.Higher(staged, t.coord.partition, Drained(g, t.coord).0) else staged
  }

  /** The world between dropping the old state and installing the new one. */
  function TxAckMid(w: World, g: Group, t: Token, ok: bool): World {
    TxAck(w, g, t, ok).(live := None)
  }

  lemma TxAckStaged(w: World, g: Group, t: Token, ok: bool, staged: map<nat, nat>)
    requires w.live == Some(g) && Kept(w, true, staged)
    ensures Kept(TxAckMid(w, g, t, ok), true, StagedAfter(g, t, ok, staged))
  {
    var mid, known, p := TxAckMid(w, g, t, ok), Resolved(w) + w.pending, t.coord.partition;
    KeptOn(w, mid, true, true, staged);
    if AckOutcome(g, t, ok) == Accepted(true) {
      var next := Drained(g, t.coord).0;
      DrainReaches(w, g, t, known);
      ReachesOn(w, mid, p, next, known + {t.coord}, Resolved(mid) + mid.pending);
      StageKept(mid, staged, p, next);
    }
  }

  lemma StageKept(w: World, staged: map<nat, nat>, p: nat, next: nat)
    requires Kept(w, true, staged) && Reaches(w, p, next, Resolved(w) + w.pending)
    ensures Kept(w, true, Transactions.Higher(staged, p, next))
  {
    var staged' := Transactions.Higher(staged, p, next);
    forall q | q in staged' ensures Reaches(w, q, staged'[q], Resolved(w) + w.pending) {
      assert q in staged ==> Reaches(w, q, staged[q], Resolved(w) + w.pending);
    }
  }

  /** Inside a transaction the touched state leans on its pending acknowledgements, and so does what is staged. */
  lemma TxAckKept(w: World, g: Group, t: Token, ok: bool, staged: map<nat, nat>)
    requires w.live == Some(g) && Kept(w, true, staged)
    ensures Kept(TxAck(w, g, t, ok), true, StagedAfter(g, t, ok, staged))
  {
    var mid, known := TxAckMid(w, g, t, ok), Resolved(w) + w.pending;
    TxAckStaged(w, g, t, ok, staged);
    AckLive(w, g, t, ok, known);
    LiveOn(w, mid, Ack(g, t, ok), if AckOutcome(g, t, ok).Accepted? then known + {t.coord} else known,
           Backing(mid, true));
    NewLiveKept(mid, Ack(g, t, ok), true, StagedAfter(g, t, ok, staged));
    assert TxAck(w, g, t, ok) == mid.(live := Some(Ack(g, t, ok)));
  }

  lemma TouchedWeaker(w: World, staged: map<nat, nat>)
    requires Kept(w, false, staged)
    ensures Kept(w, true, staged)
  {
    KeptOn(w, w, false, true, staged);
  }

  /** With nothing acknowledged inside the transaction, a touched state leans on nothing but what is resolved. */
  lemma NothingLeansOn(w: World, staged: map<nat, nat>)
    requires Kept(w, true, staged) && w.pending == {}
    ensures Kept(w, false, staged)
  {
    assert Resolved(w) + w.pending == Resolved(w);
  }

  lemma TxCommittedKept(w: World, touched: bool, staged: map<nat, nat>)
    requires Kept(w, touched, staged)
    ensures Kept(TxCommitted(w, staged), false, map[])
  {
    var w' := TxCommitted(w, staged);
    forall p | p in staged ensures Reaches(w', p, staged[p], Resolved(w')) {
      ReachesOn(w, w', p, staged[p], Resolved(w) + w.pending, Resolved(w'));
    }
    KeptOn(w, w', touched, false, staged);
  }

  lemma RecoveredKept(w: World, touched: bool, touched': bool, staged: map<nat, nat>)
    requires Kept(w, touched, staged)
    ensures Kept(Recovered(w), touched', staged)
  {
    KeptOn(w, Recovered(w), touched, touched', staged);
  }

  /** An abort drops the pending acknowledgements; a state that leaned on them must have been dropped with them. */
  lemma TxAbortedKept(w: World, touched: bool, staged: map<nat, nat>)
    requires Kept(w, touched, staged) && (touched ==> w.live.None?)
    ensures Kept(TxAborted(w), false, map[])
  {
    var w' := TxAborted(w);
    forall p | p in w'.committed ensures Reaches(w', p, w'.committed[p], Resolved(w')) {
      ReachesOn(w, w', p, w.committed[p], Resolved(w), Resolved(w'));
    }
    if w.live.Some? { LiveOn(w, w', w.live.value, Resolved(w), Resolved(w')); }
  }

  lemma OpenedKept(w: World, touched: bool, staged: map<nat, nat>)
    requires Kept(w, touched, staged)
    ensures Kept(Opened(w), touched, staged)
  {
    if w.live.None? { NewLiveKept(w, FRESH, touched, staged); }
  }

  lemma RepositionedKept(w: World, g: Group, target: map<nat, nat>)
    requires w.live == Some(g) && Kept(w, false, map[]) && TargetAllowed(w, g, target)
    ensures Kept(Repositioned(w, g, target), false, map[])
  {
    var w' := Repositioned(w, g, target);
    forall p | p in w'.committed ensures Reaches(w', p, w'.committed[p], Resolved(w')) {
      if p !in target { OtherPartition(w, target, p, w.committed[p], g); }
    }
    var g' := MovedTo(g, target);
    forall p | p in g'.fetch ensures FetchOk(w', g', p) {
      assert FetchOk(w, g, p);
      if p !in target { OtherPartition(w, target, p, g.fetch[p], g); }
    }
  }

  lemma OtherPartition(w: World, target: map<nat, nat>, p: nat, end: nat, g: Group)
    requires p !in target && Reaches(w, p, end, Resolved(w))
    ensures var w' := Repositioned(w, g, target); Reaches(w', p, end, Resolved(w'))
  {
    var w' := Repositioned(w, g, target);
    assert forall o :: Coord(p, o) in Resolved(w) ==> Coord(p, o) in Resolved(w');
  }
}
