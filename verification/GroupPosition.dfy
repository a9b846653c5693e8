/** Setting the position of a consumer group: a compare-and-set on the fingerprint of its committed positions. */
module GroupPosition {
  import opened Basics
  import opened ConsumerGroup
  import opened Engine
  import opened Positions
  import R = RangeReader
  import P = RangePaging

  datatype Outcome = Unprintable | Conflict | NotEveryPartition | CursorExpired | BeyondHigh | CommitRefused |
    Moved(before: Text, after: Text)

  /** The group as the broker holds it. */
  class Broker {
    var committed: map<nat, nat>
    const lows: map<nat, nat>
    const highs: map<nat, nat>

    constructor (committed: map<nat, nat>, lows: map<nat, nat>, highs: map<nat, nat>)
      ensures this.committed == committed && this.lows == lows && this.highs == highs
    {
      this.committed, this.lows, this.highs := committed, lows, highs;
    }

    /** Where the group stands: its committed offset, or the low watermark where it has none. */
    function Positions(): map<nat, nat>
      reads this
    {
      PositionsOf(lows, committed)
    }
  }

  function PositionsOf(lows: map<nat, nat>, committed: map<nat, nat>): map<nat, nat> {
    map p | p in lows :: if p in committed then committed[p] else lows[p]
  }

  /** After the commit of a target for every partition, the group stands there. */
  lemma MovedPositions(lows: map<nat, nat>, committed: map<nat, nat>, target: map<nat, nat>)
    requires target.Keys == lows.Keys
    ensures PositionsOf(lows, committed + target) == target
  {
    assert forall p :: p in lows <==> p in target;
  }

  /** A group stands at its committed offsets, and at the low watermark of each partition where it has none. */
  lemma StandsAt(lows: map<nat, nat>, committed: map<nat, nat>, p: nat)
    requires p in lows
    ensures PositionsOf(lows, committed).Keys == lows.Keys
    ensures p in committed ==> PositionsOf(lows, committed)[p] == committed[p]
    ensures p !in committed ==> PositionsOf(lows, committed)[p] == lows[p]
  {
    assert forall q :: q in PositionsOf(lows, committed) <==> q in lows;
  }

  /** Retention alone can turn a call into a conflict: with the same committed offsets the fingerprint changes iff the
      low watermark of a partition moves that has no committed offset. */
  lemma RetentionConflictsIff(h: Hash, topic: Text, lows: map<nat, nat>, later: map<nat, nat>, committed: map<nat, nat>)
    requires CollisionFree(h) && lows.Keys == later.Keys
    ensures Fingerprint(h, topic, PositionsOf(lows, committed)) != Fingerprint(h, topic, PositionsOf(later, committed))
            <==> exists p :: p in lows && p !in committed && lows[p] != later[p]
  {
    var a, b := PositionsOf(lows, committed), PositionsOf(later, committed);
    forall p | p in lows ensures p in a && p in b && (a[p] == b[p] <==> p in committed || lows[p] == later[p]) {
      StandsAt(lows, committed, p);
      StandsAt(later, committed, p);
    }
    if a != b {
      FingerprintInjectiveContra(h, topic, a, b);
      var p :| p in a && a[p] != b[p];
      assert p in lows && p !in committed && lows[p] != later[p];
    } else {
      forall p | p in lows && p !in committed ensures lows[p] == later[p] {
        assert a[p] == b[p];
      }
    }
  }

  lemma FingerprintInjectiveContra(h: Hash, topic: Text, a: map<nat, nat>, b: map<nat, nat>)
    requires CollisionFree(h) && a != b
    ensures Fingerprint(h, topic, a) != Fingerprint(h, topic, b)
  {
    if Fingerprint(h, topic, a) == Fingerprint(h, topic, b) { FingerprintInjective(h, topic, a, b); }
  }

  /** A fingerprint is taken of one to 128 positions. */
  predicate Printable(positions: map<nat, nat>) {
    Checked(positions).Some?
  }

  lemma SameSize(a: map<nat, nat>, b: map<nat, nat>)
    requires a.Keys == b.Keys
    ensures Printable(a) == Printable(b)
  {
    assert |a| == |a.Keys| == |b.Keys| == |b|;
  }

  predicate Retained(lows: map<nat, nat>, highs: map<nat, nat>, target: map<nat, nat>) {
    forall p :: p in target ==> p in lows && p in highs && lows[p] <= target[p] <= highs[p]
  }

  /** A group can be set to where any page of a range read ends, the end of the log included, as long as nothing is
      removed behind it. */
  lemma CursorRetained(log: R.Log, lows: map<nat, nat>, highs: map<nat, nat>, start: map<nat, nat>, page: R.Page)
    requires lows.Keys == highs.Keys == start.Keys && forall p :: p in start ==> lows[p] <= start[p]
    requires P.PageOk(log, highs, start, page)
    ensures page.next.Keys == lows.Keys && Retained(lows, highs, page.next)
  {
    forall p | p in page.next ensures lows[p] <= page.next[p] <= highs[p] {
      assert R.ExactAt(log, start, highs, page.events, page.next, p);
    }
  }

  /** Neither the low nor the high watermark of a partition is out of bounds, and everything beyond them is. */
  lemma WatermarksRetained(lows: map<nat, nat>, highs: map<nat, nat>, p: nat, offset: nat)
    requires p in lows && p in highs && lows[p] <= highs[p]
    ensures Retained(lows, highs, map[p := lows[p]]) && Retained(lows, highs, map[p := highs[p]])
    ensures offset < lows[p] || highs[p] < offset ==> !Retained(lows, highs, map[p := offset])
  {
  }

  /** The bounds check of the target, partition by partition: the refusal, if there is one. */
  method CheckRetained(lows: map<nat, nat>, highs: map<nat, nat>, target: map<nat,
                       nat>) returns (fault: Option<Outcome>)
    requires target.Keys == lows.Keys && highs.Keys == lows.Keys
    ensures fault.None? <==> Retained(lows, highs, target)
    ensures fault.Some? ==> fault.value == CursorExpired || fault.value == BeyondHigh
    ensures fault == Some(CursorExpired) ==> exists p :: p in target && target[p] < lows[p]
    ensures fault == Some(BeyondHigh) ==> exists p :: p in target && target[p] > highs[p]
  {
    var todo := target.Keys;
    while todo != {}
      invariant todo <= target.Keys
      invariant forall p :: p in target && p !in todo ==> lows[p] <= target[p] <= highs[p]
      decreases todo
    {
      var p :| p in todo;
      if target[p] < lows[p] { return Some(CursorExpired); }
      if target[p] > highs[p] { return Some(BeyondHigh); }
      todo := todo - {p};
    }
    fault := None;
  }

  /** The call may go through: the group stands where the caller believes, and the target is whole and retained. */
  predicate Admissible(h: Hash, topic: Text, positions: map<nat, nat>, lows: map<nat, nat>, highs: map<nat, nat>,
                       expected: Text,
                       target: map<nat, nat>) {
    && Printable(lows) && Fingerprint(h, topic, positions) == expected
    && target.Keys == lows.Keys && Retained(lows, highs, target)
  }

  /** Everything that is checked before the commit. */
  method Vet(h: Hash, topic: Text, positions: map<nat, nat>, lows: map<nat, nat>, highs: map<nat, nat>, expected: Text,
             target: map<nat, nat>) returns (fault: Option<Outcome>)
    requires positions.Keys == lows.Keys == highs.Keys
    ensures fault.None? <==> Admissible(h, topic, positions, lows, highs, expected, target)
    ensures fault == Some(Unprintable) <==> !Printable(lows)
    ensures fault == Some(Conflict) <==> Printable(lows) && Fingerprint(h, topic, positions) != expected
    ensures fault == Some(NotEveryPartition) ==> target.Keys != lows.Keys
    ensures fault == Some(CursorExpired) ==> exists p :: p in target && p in lows && target[p] < lows[p]
    ensures fault == Some(BeyondHigh) ==> exists p :: p in target && p in highs && target[p] > highs[p]
    ensures fault.Some? ==> !fault.value.Moved? && fault.value != CommitRefused
  {
    SameSize(lows, positions);
    if !Printable(positions) { return Some(Unprintable); }
    if Fingerprint(h, topic, positions) != expected { return Some(Conflict); }
    if target.Keys != lows.Keys { return Some(NotEveryPartition); }
    fault := CheckRetained(lows, highs, target);
  }

  /** The watermarks name the partitions of the stream. */
  method Reposition(broker: Broker, state: GroupState, h: Hash, topic: Text, expected: Text, target: map<nat, nat>,
                    commitOk: bool)
      returns (r: Outcome)
    requires broker.highs.Keys == broker.lows.Keys
    modifies broker`committed, state
    ensures r == Conflict <==> Printable(broker.lows) && Fingerprint(h, topic, old(broker.Positions())) != expected
    ensures r.Moved? <==> commitOk && Admissible(h, topic, old(broker.Positions()), broker.lows, broker.highs, expected,
                                                 target)
    ensures if r.Moved? then
              && r.before == expected && Printable(target) && r.after == Fingerprint(h, topic, target)
              && broker.committed == old(broker.committed) + target && broker.Positions() == target
              && state.Value() == MovedTo(old(state.Value()), target)
            else
              broker.committed == old(broker.committed) && state.Value() == old(state.Value())
  {
    var fault := Vet(h, topic, broker.Positions(), broker.lows, broker.highs, expected, target);
    if fault.Some? { return fault.value; }
    if !commitOk { return CommitRefused; }
    SameSize(broker.lows, target);
    MovedPositions(broker.lows, broker.committed, target);
    broker.committed := broker.committed + target;
    state.MoveTo(target);
    r := Moved(expected, Fingerprint(h, topic, target));
  }

  /** A call that goes through saw exactly the positions behind the fingerprint it was given. */
  lemma ExpectedPositions(h: Hash, topic: Text, positions: map<nat, nat>, expected: Text, believed: map<nat, nat>)
    requires CollisionFree(h) && expected == Fingerprint(h, topic, believed)
    ensures Fingerprint(h, topic, positions) == expected <==> positions == believed
  {
    if Fingerprint(h, topic, positions) == expected { FingerprintInjective(h, topic, positions, believed); }
  }

  /** Two calls that present the same fingerprint: the second one conflicts, unless the first one went through and
      changed nothing, or did not go through at all. */
  method RepositionTwice(broker: Broker, state: GroupState, h: Hash, topic: Text, expected: Text,
                         first: map<nat, nat>, second: map<nat, nat>, firstOk: bool, secondOk: bool)
      returns (r: Outcome, q: Outcome)
    requires broker.highs.Keys == broker.lows.Keys && CollisionFree(h)
    modifies broker`committed, state
    ensures r.Moved? ==> (q == Conflict <==> first != old(broker.Positions()))
    ensures q.Moved? && r.Moved? ==> first == old(broker.Positions()) && broker.Positions() == second
  {
    r := Reposition(broker, state, h, topic, expected, first, firstOk);
    ghost var between := broker.Positions();
    q := Reposition(broker, state, h, topic, expected, second, secondOk);
    if r.Moved? { ExpectedPositions(h, topic, between, expected, old(broker.Positions())); }
  }
}
