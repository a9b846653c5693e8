/** The transaction bridge and the state of a consumer group as objects. Each method is tied to the function that gives
    its meaning on values. */
module Engine {
  import opened Basics
  import opened ConsumerGroup
  import opened Transactions
  import opened Runtime

  class TransactionBridge {
    var lease: bool
    var active: bool
    var offsets: map<nat, nat>
    var groupKey: Option<Key>

    ghost function Value(): Bridge
      reads this
    {
      Bridge(lease, active, offsets, groupKey)
    }

    constructor ()
      ensures Value() == IDLE
    {
      lease, active, offsets, groupKey := false, false, map[], None;
    }

    method Begin(beginOk: bool) returns (r: BeginResult)
      modifies this
      ensures r == BeginOutcome(old(Value()), beginOk)
      ensures Value() == Transactions.Begin(old(Value()), beginOk)
    {
      if lease { return LeaseTimeout; }
      lease := true;
      if !beginOk {
        lease := false;
        return BeginFailed;
      }
      active, offsets, groupKey := true, map[], None;
      r := BeginResult.Began;
    }

    method StageOffset(key: Key, partition: nat, next: nat, metadataOk: bool) returns (r: StageResult)
      modifies this
      ensures r == StageOutcome(old(Value()), key, metadataOk)
      ensures Value() == Transactions.StageOffset(old(Value()), key, partition, next, metadataOk)
    {
      if !active { return NotActive; }
      if groupKey.Some? && groupKey.value != key { return CrossGroup; }
      groupKey := Some(key);
      if !metadataOk { return NoMetadata; }
      offsets := Higher(offsets, partition, next);
      r := Staged;
    }

    /** `sent` is what the broker applies: the staged offsets, when nothing raised on the way. */
    method Commit(sendOk: bool, commitOk: bool) returns (sent: Option<map<nat, nat>>)
      requires BridgeOk(Value())
      modifies this
      ensures sent.Some? <==> old(active) && commitOk && (old(offsets) == map[] || sendOk)
      ensures sent.Some? ==> sent.value == old(offsets)
      ensures Value() == Finish(old(Value())) && BridgeOk(Value())
    {
      if !active { return None; }
      if (offsets == map[] || sendOk) && commitOk { sent := Some(offsets); } else { sent := None; }
      FinishUp();
    }

    method Abort()
      requires BridgeOk(Value())
      modifies this
      ensures Value() == Finish(old(Value())) && BridgeOk(Value())
    {
      if active { FinishUp(); }
    }

    method FinishUp()
      modifies this
      ensures Value() == IDLE
    {
      active, offsets, groupKey := false, map[], None;
      if lease { lease := false; }
    }
  }

  class GroupState {
    var epoch: nat
    var owned: set<nat>
    var inflight: map<Coord, Inflight>
    var attempts: map<Coord, nat>
    var acked: map<nat, set<nat>>
    var safe: map<nat, nat>
    var paused: map<nat, Paused>
    var fetch: map<nat, nat>

    ghost function Value(): Group
      reads this
    {
      Group(epoch, owned, inflight, attempts, acked, safe, paused, fetch)
    }

    constructor ()
      ensures Value() == FRESH
    {
      epoch, owned, inflight, attempts := 0, {}, map[], map[];
      acked, safe, paused, fetch := map[], map[], map[], map[];
    }

    method Deliver(c: Coord, clock: int, expiresAt: int, decodable: bool, minted: bool,
                   seekOk: bool) returns (r: Delivery)
      modifies this
      ensures r == DeliverResult(old(Value()), c, clock, decodable, minted, seekOk)
      ensures Value() == ConsumerGroup.Deliver(old(Value()), c, clock, expiresAt, decodable, minted, seekOk)
    {
      ghost var g := Value();
      var held := Receive(c, clock, seekOk);
      if held { return if seekOk then Deferred else SeekRaised; }
      if !decodable { return Undecodable; }
      var attempt := Count(c);
      assert Value() == Counted(g, c) && attempt == Attempts(g, c) + 1;
      if !minted { return Unminted; }
      inflight := inflight[c := Inflight(attempt, epoch, expiresAt)];
      r := Handed(Token(c, epoch, attempt));
    }

    /** The consumer moves past the record, or is sent back to it while its partition is held for a retry. */
    method Receive(c: Coord, clock: int, seekOk: bool) returns (held: bool)
      modifies this
      ensures var g := old(Value());
              && held == (HeldBack(g, c) && g.paused[c.partition].resumeAt > clock)
              && Value() == if !held then Received(g, c)
                            else g.(fetch := g.fetch[c.partition := if seekOk then c.offset else c.offset + 1])
    {
      fetch := fetch[c.partition := c.offset + 1];
      if c.partition in paused && paused[c.partition].offset == c.offset {
        if paused[c.partition].resumeAt > clock {
          if seekOk { fetch := fetch[c.partition := c.offset]; }
          return true;
        }
        paused := paused - {c.partition};
      }
      held := false;
    }

    /** One more attempt at a coordinate; the first one of a partition sets its safe position. */
    method Count(c: Coord) returns (attempt: nat)
      modifies this
      ensures attempt == Attempts(old(Value()), c) + 1
      ensures var g := old(Value());
              Value() == g.(attempts := g.attempts[c := attempt],
                            safe := g.safe[c.partition := SafeOr(g, c.partition, c.offset)])
    {
      attempt := (if c in attempts then attempts[c] else 0) + 1;
      attempts := attempts[c := attempt];
      safe := safe[c.partition := if c.partition in safe then safe[c.partition] else c.offset];
    }

    /** Acknowledge directly (`bridge == null`, an advance is committed at the broker) or through the bridge (it is
        staged). `committed` is the offset that the broker was made to commit; an acknowledgement whose position token
        cannot be made counts, but is not answered. */
    method Acknowledge(t: Token, key: Key, bridge: TransactionBridge?, brokerOk: bool, tokenOk: bool)
        returns (r: AckResult, committed: Option<nat>, answered: bool)
      modifies this, bridge
      ensures var g := old(Value());
              var ok := if bridge == null then brokerOk else StageOutcome(old(bridge.Value()), key, brokerOk).Staged?;
              && r == AckOutcome(g, t, ok)
              && Value() == Ack(g, t, ok)
              && answered == (r.Accepted? && tokenOk)
              && committed == (if bridge == null && r == Accepted(true) then Some(Drained(g, t.coord).0) else None)
      ensures bridge != null ==>
                var g := old(Value());
                bridge.Value() == if Current(g, t) && Advances(g, t.coord)
                                  then Transactions.StageOffset(old(bridge.Value()), key, t.coord.partition,
                                                                Drained(g, t.coord).0, brokerOk)
                                  else old(bridge.Value())
    {
      committed, answered := None, false;
      if t.epoch != epoch { return RebalanceConflict, None, false; }
      var c, p := t.coord, t.coord.partition;
      if c !in inflight || inflight[c].epoch != epoch || inflight[c].attempt != t.attempt {
        return DeliveryRejected, None, false;
      }
      var original, next := TakeRun(c);
      if next > original {
        if bridge == null {
          if !brokerOk { return CommitFailed, None, false; }
          committed := Some(next);
        } else {
          var staged := bridge.StageOffset(key, p, next, brokerOk);
          if staged != Staged { return CommitFailed, None, false; }
        }
      }
      Resolve(c, next);
      r, answered := Accepted(next > original), tokenOk;
    }

    /** Add the offset and drain the run at the safe position, before anything is committed. */
    method TakeRun(c: Coord) returns (original: nat, next: nat)
      modifies this
      ensures original == SafeOr(old(Value()), c.partition, c.offset) && next == Drained(old(Value()), c).0
      ensures next >= original
      ensures var g := old(Value());
              Value() == g.(acked := g.acked[c.partition := Drained(g, c).1], safe := g.safe[c.partition := original])
    {
      var p := c.partition;
      var pending := (if p in acked then acked[p] else {}) + {c.offset};
      original := if p in safe then safe[p] else c.offset;
      safe := safe[p := original];
      next, pending := DrainFrom(original, pending);
      acked := acked[p := pending];
    }

    method Resolve(c: Coord, next: nat)
      modifies this
      ensures var g := old(Value());
              Value() == g.(safe := g.safe[c.partition := next], inflight := g.inflight - {c},
                            attempts := g.attempts - {c})
    {
      safe := safe[c.partition := next];
      inflight := inflight - {c};
      attempts := attempts - {c};
    }

    /** The loop that walks the contiguous run of acknowledged offsets. */
    static method DrainFrom(original: nat, acknowledged: set<nat>) returns (next: nat, pending: set<nat>)
      ensures (next, pending) == Drain(original, acknowledged) && next >= original
    {
      next, pending := original, acknowledged;
      while next in pending
        invariant Drain(next, pending) == Drain(original, acknowledged) && next >= original
        decreases pending
      {
        pending := pending - {next};
        next := next + 1;
      }
    }

    /** The token is decoded once more after the dead letter was written, and may have expired by then. */
    method NegativeAcknowledge(t: Token, key: Key, policy: DeadLetterPolicy, retryAfter: nat, clock: int, env: NackEnv,
                               tokenOk: bool) returns (r: NackResult, answered: bool)
      modifies this
      ensures answered == (r.Scheduled? || (r.DeadLettered? && r.ack.Accepted? && tokenOk))
      ensures r == NackOutcome(old(Value()), t, policy, retryAfter, env)
      ensures Value() == Nack(old(Value()), t, policy, retryAfter, clock, env)
    {
      answered := false;
      if t.epoch != epoch { return NackConflict, false; }
      var c := t.coord;
      if c !in inflight || inflight[c].attempt != t.attempt { return NackRejected, false; }
      if t.attempt >= policy.maxAttempts && policy.hasStream {
        if !env.publishOk { return PublishFailed, false; }
        if !env.unexpired { return LetterTooLate, false; }
        var ack, _, ok := Acknowledge(t, key, null, env.commitOk, tokenOk);
        return DeadLettered(ack), ok;
      }
      inflight := inflight - {c};
      if !env.seekOk { return SeekFailed, false; }
      fetch := fetch[c.partition := c.offset];
      if retryAfter > 0 {
        if !env.pauseOk { return SeekFailed, false; }
        paused := paused[c.partition := Paused(c.offset, clock + retryAfter)];
      }
      r, answered := Scheduled, true;
    }

    /** The expiry pass. A seek of a partition in `stuck` raises and ends it; `rewound` is the part that ran. */
    method ExpireInflight(now: int, stuck: set<nat>) returns (whole: map<nat, nat>, rewound: map<nat, nat>)
      modifies this
      ensures LeastExpired(old(Value()), now, whole)
      ensures forall p :: p in rewound ==> p in whole && rewound[p] == whole[p]
      ensures rewound == whole || exists p :: p in stuck && p in whole && p !in rewound
      ensures Value() == Rewind(old(Value()), rewound)
    {
      whole := LeastExpiredOffsets(now);
      rewound := RewindAll(whole, stuck);
    }

    method RewindAll(whole: map<nat, nat>, stuck: set<nat>) returns (rewound: map<nat, nat>)
      modifies this
      ensures forall p :: p in rewound ==> p in whole && rewound[p] == whole[p]
      ensures rewound == whole || exists p :: p in stuck && p in whole && p !in rewound
      ensures Value() == Rewind(old(Value()), rewound)
    {
      ghost var g := Value();
      rewound := map[];
      RewindNothing(g);
      var todo := whole.Keys;
      while todo != {}
        invariant Part(whole, todo, rewound)
        invariant Value() == Rewind(g, rewound)
        decreases todo
      {
        var p :| p in todo;
        if p in stuck { return; }
        PartMore(whole, todo, rewound, p);
        RewindNext(p, whole[p], g, rewound);
        rewound := rewound[p := whole[p]];
        todo := todo - {p};
      }
      PartAll(whole, rewound);
    }

    method RewindNext(p: nat, offset: nat, ghost g: Group, ghost rewound: map<nat, nat>)
      requires Value() == Rewind(g, rewound) && p !in rewound
      modifies this
      ensures Value() == Rewind(g, rewound[p := offset])
    {
      RewindOneMore(g, rewound, p, offset);
      RewindPartition(p, offset);
    }

    method RewindPartition(p: nat, offset: nat)
      modifies this
      ensures Value() == RewindOne(old(Value()), p, offset)
    {
      fetch := fetch[p := offset];
      inflight := map c | c in inflight && (c.partition != p || c.offset < offset) :: inflight[c];
      acked := acked[p := Cut(if p in acked then acked[p] else {}, offset)];
    }

    method LeastExpiredOffsets(now: int) returns (rewind: map<nat, nat>)
      ensures LeastExpired(Value(), now, rewind)
    {
      var expired := set c | c in inflight && inflight[c].expiresAt <= now;
      rewind := map[];
      ghost var seen: set<Coord> := {};
      var todo := expired;
      while todo != {}
        invariant todo <= expired && seen == expired - todo
        invariant forall c :: c in seen ==> c.partition in rewind && rewind[c.partition] <= c.offset
        invariant forall p :: p in rewind ==> Coord(p, rewind[p]) in expired
        decreases todo
      {
        var c :| c in todo;
        if c.partition !in rewind || c.offset < rewind[c.partition] { rewind := rewind[c.partition := c.offset]; }
        todo := todo - {c};
        seen := seen + {c};
      }
      assert forall c :: ExpiredAt(Value(), now, c) <==> c in expired;
    }

    /** Resume the paused partitions that are due, until the seek of one in `stuck` raises, or the resume of one in
        `halted`, which then was sought already. */
    method ResumeDue(clock: int, stuck: set<nat>, halted: set<nat>) returns (resumed: set<nat>, sought: set<nat>)
      modifies this
      ensures ResumePass(old(paused), clock, stuck, halted, resumed, sought)
      ensures Value() == Resume(old(Value()), resumed, sought)
    {
      ghost var g := Value();
      var due := DueAt(paused, clock);
      var todo := due;
      resumed, sought := {}, {};
      ResumeNothing(g);
      while todo != {}
        invariant todo <= due && resumed == due - todo && sought == {}
        invariant Value() == Resume(g, resumed, {})
        decreases todo
      {
        var p :| p in todo;
        if p in stuck { return; }
        ResumeOneMore(g, resumed, p);
        if p in halted {
          fetch := fetch[p := paused[p].offset];
          sought := {p};
          return;
        }
        ResumePartition(p);
        resumed := resumed + {p};
        todo := todo - {p};
      }
    }

    method ResumePartition(p: nat)
      requires p in paused
      modifies this
      ensures Value() == ResumeOne(old(Value()), p)
    {
      fetch := fetch[p := paused[p].offset];
      paused := paused - {p};
    }

    method OnAssigned(starts: map<nat, nat>)
      modifies this
      ensures Value() == ConsumerGroup.Assigned(old(Value()), starts)
    {
      epoch := epoch + 1;
      owned := starts.Keys;
      fetch := starts;
    }

    method OnRevoked(partitions: set<nat>)
      modifies this
      ensures Value() == ConsumerGroup.Revoked(old(Value()), partitions)
    {
      epoch := epoch + 1;
      owned := owned - partitions;
      inflight := map c | c in inflight && c.partition !in partitions :: inflight[c];
      attempts := map c | c in attempts && c.partition !in partitions :: attempts[c];
      acked := acked - partitions;
      paused := paused - partitions;
      fetch := map[];
    }

    method MoveTo(target: map<nat, nat>)
      modifies this
      ensures Value() == MovedTo(old(Value()), target)
    {
      epoch := epoch + 1;
      inflight := map[];
      acked := map[];
      safe := target;
    }
  }

  /** The part of a map that has been worked off. */
  predicate Part(whole: map<nat, nat>, todo: set<nat>, part: map<nat, nat>) {
    todo <= whole.Keys && part.Keys == whole.Keys - todo && forall p :: p in part ==> p in whole && part[p] == whole[p]
  }

  lemma PartMore(whole: map<nat, nat>, todo: set<nat>, part: map<nat, nat>, p: nat)
    requires Part(whole, todo, part) && p in todo
    ensures p in whole && p !in part && Part(whole, todo - {p}, part[p := whole[p]])
  {
  }

  lemma PartAll(whole: map<nat, nat>, part: map<nat, nat>)
    requires Part(whole, {}, part)
    ensures part == whole
  {
    assert part.Keys == whole.Keys;
  }

  lemma RewindNothing(g: Group)
    ensures Rewind(g, map[]) == g
  {
    var r := Rewind(g, map[]);
    assert r.inflight == g.inflight && r.acked == g.acked && r.fetch == g.fetch;
  }

  function RewindOne(g: Group, p: nat, offset: nat): Group {
    g.(fetch := g.fetch[p := offset],
       inflight := map c | c in g.inflight && (c.partition != p || c.offset < offset) :: g.inflight[c],
       acked := g.acked[p := Cut(Acked(g, p), offset)])
  }

  lemma RewindOneMore(g: Group, rewind: map<nat, nat>, p: nat, offset: nat)
    requires p !in rewind
    ensures Rewind(g, rewind[p := offset]) == RewindOne(Rewind(g, rewind), p, offset)
  {
    RewindInflight(g, rewind, p, offset);
    RewindAcked(g, rewind, p, offset);
    MergeOneMore(g.fetch, rewind, p, offset);
  }

  lemma MergeOneMore(a: map<nat, nat>, b: map<nat, nat>, p: nat, offset: nat)
    ensures a + b[p := offset] == (a + b)[p := offset]
  {
  }

  lemma RewindInflight(g: Group, rewind: map<nat, nat>, p: nat, offset: nat)
    requires p !in rewind
    ensures Rewind(g, rewind[p := offset]).inflight == RewindOne(Rewind(g, rewind), p, offset).inflight
  {
    assert forall c :: Survives(rewind[p := offset], c) <==>
        Survives(rewind, c) && (c.partition != p || c.offset < offset);
  }

  lemma RewindAcked(g: Group, rewind: map<nat, nat>, p: nat, offset: nat)
    requires p !in rewind
    ensures Rewind(g, rewind[p := offset]).acked == RewindOne(Rewind(g, rewind), p, offset).acked
  {
    var whole := rewind[p := offset];
    AckedAfter(g, rewind);
    AckedAfter(g, whole);
    var mid, a := Rewind(g, rewind).acked, Rewind(g, whole).acked;
    assert a == mid[p := Cut(Acked(g, p), offset)];
  }

  lemma AckedAfter(g: Group, rewind: map<nat, nat>)
    ensures var acked := Rewind(g, rewind).acked;
            && acked.Keys == g.acked.Keys + rewind.Keys
            && (forall p :: p in acked ==> acked[p] == Below(Acked(g, p), rewind, p))
    ensures forall p :: p !in rewind ==> Acked(Rewind(g, rewind), p) == Acked(g, p)
  {
  }

  function DueAt(paused: map<nat, Paused>, clock: int): set<nat> {
    set p | p in paused && paused[p].resumeAt <= clock
  }

  /** All that is due was resumed, or a client call raised at some partition and ended the pass. */
  ghost predicate ResumePass(paused: map<nat, Paused>, clock: int, stuck: set<nat>, halted: set<nat>, resumed: set<nat>,
                             sought: set<nat>) {
    var due := DueAt(paused, clock);
    && resumed <= due
    && ((resumed == due && sought == {}) || exists p :: p in due && p !in resumed && RaisedAt(p, stuck, halted, sought))
  }

  predicate RaisedAt(p: nat, stuck: set<nat>, halted: set<nat>, sought: set<nat>) {
    if p in stuck then sought == {} else p in halted && sought == {p}
  }

  lemma ResumeNothing(g: Group)
    ensures Resume(g, {}, {}) == g
  {
    assert Resume(g, {}, {}).fetch == g.fetch && Resume(g, {}, {}).paused == g.paused;
  }

  function ResumeOne(g: Group, p: nat): Group
    requires p in g.paused
  {
    g.(fetch := g.fetch[p := g.paused[p].offset], paused := g.paused - {p})
  }

  lemma ResumeOneMore(g: Group, due: set<nat>, p: nat)
    requires p in g.paused && p !in due
    ensures p in Resume(g, due, {}).paused && Resume(g, due + {p}, {}) == ResumeOne(Resume(g, due, {}), p)
    ensures var half := Resume(g, due, {});
            Resume(g, due, {p}) == half.(fetch := half.fetch[p := half.paused[p].offset])
  {
    PausedAtOneMore(g.paused, due, p);
    MergeOneMore(g.fetch, PausedAt(g.paused, due), p, g.paused[p].offset);
    assert g.paused - (due + {p}) == (g.paused - due) - {p};
    assert due + {} == due && due + {p} + {} == due + {p};
  }

  lemma PausedAtOneMore(paused: map<nat, Paused>, due: set<nat>, p: nat)
    requires p in paused
    ensures PausedAt(paused, due + {p}) == PausedAt(paused, due)[p := paused[p].offset]
  {
  }

  /** After a complete pass nothing is expired, each rewound partition keeps only what lies before its new fetch
      position, and the others are as they were. */
  lemma ExpiryRewinds(g: Group, now: int, rewind: map<nat, nat>)
    requires LeastExpired(g, now, rewind)
    ensures var g' := Rewind(g, rewind);
            && (forall c :: c in g'.inflight ==> !ExpiredAt(g', now, c))
            && (forall p :: p in rewind ==>
                  && p in g'.fetch && g'.fetch[p] == rewind[p]
                  && (forall o :: o in Acked(g', p) <==> o in Acked(g, p) && o < rewind[p])
                  && (forall c :: c in g.inflight && c.partition == p ==> (c in g'.inflight <==> c.offset < rewind[p])))
            && (forall p :: p !in rewind ==>
                  && Acked(g', p) == Acked(g, p)
                  && (p in g'.fetch <==> p in g.fetch) && (p in g.fetch ==> g'.fetch[p] == g.fetch[p])
                  && (forall o :: Coord(p, o) in g.inflight <==> Coord(p, o) in g'.inflight))
            && (forall c :: c in g'.inflight ==> c in g.inflight && g'.inflight[c] == g.inflight[c])
            && g'.attempts == g.attempts && g'.safe == g.safe && g'.paused == g.paused && g'.epoch == g.epoch
  {
    var g' := Rewind(g, rewind);
    forall c | c in g'.inflight ensures !ExpiredAt(g', now, c) {
      assert Survives(rewind, c) && (ExpiredAt(g', now, c) <==> ExpiredAt(g, now, c));
    }
  }

  /** The targets of an expiry pass are determined by the state. */
  lemma LeastExpiredUnique(g: Group, now: int, a: map<nat, nat>, b: map<nat, nat>)
    requires LeastExpired(g, now, a) && LeastExpired(g, now, b)
    ensures a == b
  {
    forall p | p in a ensures p in b && b[p] <= a[p] { assert ExpiredAt(g, now, Coord(p, a[p])); }
    forall p | p in b ensures p in a && a[p] <= b[p] { assert ExpiredAt(g, now, Coord(p, b[p])); }
  }
}
