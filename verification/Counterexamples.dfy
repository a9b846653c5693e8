/** Runs of a newly opened runtime in which something goes wrong: one for each condition that the theorems ask for. The
    stream has one partition with the records 0 and 1; session 0 is plain, session 1 transactional. */
module Counterexamples {
  import opened Basics
  import opened ConsumerGroup
  import D = Durability
  import opened Transactions
  import opened Runtime
  import opened RuntimeSafety
  import opened RoutingLimits
  import opened Redelivery

  const FIRST: Coord := Coord(0, 0)
  const SECOND: Coord := Coord(0, 1)
  const TOKEN_1: Token := Token(FIRST, 1, 1)
  const TOKEN_2: Token := Token(SECOND, 1, 1)

  // ------------------------------------------------------------ runs, step by step

  /** The environment allows the run, and it ends there. */
  ghost predicate Reached(s: Sys, steps: seq<Step>, end: Sys) {
    Init(s) && RunAllowed(s, steps) && Run(s, steps) == end
  }

  lemma Start(s: Sys)
    requires Init(s)
    ensures Reached(s, [], s) && RunRouted(s, [])
  {
  }

  lemma Then(s: Sys, steps: seq<Step>, mid: Sys, step: Step, end: Sys)
    requires Reached(s, steps, mid) && Enabled(mid, step) && Next(mid, step) == end
    ensures Reached(s, steps + [step], end)
    ensures RunRouted(s, steps) && Routed(mid, step) ==> RunRouted(s, steps + [step])
  {
    var all := steps + [step];
    assert all[..|all| - 1] == steps;
    forall i | 0 <= i < |all| ensures Enabled(Run(s, all[..i]), all[i]) {
      if i < |steps| { assert all[..i] == steps[..i]; } else { assert all[..i] == steps; }
    }
    if RunRouted(s, steps) && Routed(mid, step) {
      forall i | 0 <= i < |all| ensures Routed(Run(s, all[..i]), all[i]) {
        if i < |steps| { assert all[..i] == steps[..i]; } else { assert all[..i] == steps; }
      }
    }
  }

  // ------------------------------------------------------------ the states of the group

  const JOINED: Group := Group(1, {0}, map[], map[], map[], map[], map[], map[0 := 0])
  const ONE: Group :=
    Group(1, {0}, map[FIRST := Inflight(1, 1, 9)], map[FIRST := 1], map[], map[0 := 0], map[], map[0 := 1])
  const TWO: Group :=
    Group(1, {0}, map[FIRST := Inflight(1, 1, 9), SECOND := Inflight(1, 1, 9)], map[FIRST := 1, SECOND := 1], map[],
          map[0 := 0], map[], map[0 := 2])

  /** The second record is acknowledged, the first is in flight. */
  const HALF: Group :=
    Group(1, {0}, map[FIRST := Inflight(1, 1, 9)], map[FIRST := 1], map[0 := {1}], map[0 := 0], map[], map[0 := 2])

  function World(committed: map<nat, nat>, base: map<nat, nat>, done: set<Coord>, pending: set<Coord>,
                 live: Option<Group>): D.World {
    D.World({FIRST, SECOND}, map[0 := 2], committed, base, done, {}, pending, live)
  }

  const SESSIONS: map<nat, Session> := map[0 := Session(false, false, false, {}), 1 := Session(true, false, false, {})]

  function One(rest: map<Key, D.World>, k: Key, w: D.World, b: Bridge, sessions: map<nat, Session>,
               visible: seq<Event>): Sys {
    Sys(rest[k := w], b, sessions, visible, [])
  }

  function Empty(rest: map<Key, D.World>, k: Key): Sys {
    One(rest, k, World(map[], map[], {}, {}, None), IDLE, map[], [])
  }

  /** The other groups have not been used. */
  ghost predicate Untouched(rest: map<Key, D.World>, k: Key) {
    k !in rest && forall j :: j in rest ==> InitWorld(rest[j])
  }

  /** Both records are in flight and no transaction is open. */
  function Ready(rest: map<Key, D.World>, k: Key): Sys {
    One(rest, k, World(map[], map[0 := 0], {}, {}, Some(TWO)), IDLE, SESSIONS, [])
  }

  lemma Deliveries()
    ensures Deliver(JOINED, FIRST, 0, 9, true, true, true) == ONE
    ensures Deliver(ONE, SECOND, 0, 9, true, true, true) == TWO
  {
    assert Deliver(JOINED, FIRST, 0, 9, true, true, true).inflight == ONE.inflight;
    var g := Deliver(ONE, SECOND, 0, 9, true, true, true);
    assert g.inflight == TWO.inflight && g.attempts == TWO.attempts && g.safe == TWO.safe && g.fetch == TWO.fetch;
  }

  lemma Opening(rest: map<Key, D.World>, k: Key) returns (steps: seq<Step>)
    requires Untouched(rest, k)
    ensures Reached(Empty(rest, k), steps, One(rest, k, World(map[], map[], {}, {}, None), IDLE, SESSIONS, []))
    ensures RunRouted(Empty(rest, k), steps)
  {
    var s := Empty(rest, k);
    Start(s);
    var s1 := s.(sessions := map[0 := Session(false, false, false, {})]);
    Then(s, [], s, Opened(0, false), s1);
    Then(s, [] + [Opened(0, false)], s1, Opened(1, true), s1.(sessions := SESSIONS));
    steps := [] + [Opened(0, false)] + [Opened(1, true)];
  }

  /** One step of the group, from one world to the next. */
  lemma GroupStep(s: Sys, steps: seq<Step>, rest: map<Key, D.World>, k: Key, w: D.World, w': D.World, b: Bridge,
                  sessions: map<nat, Session>, visible: seq<Event>, step: Step)
    requires Reached(s, steps, One(rest, k, w, b, sessions, visible))
    requires Enabled(One(rest, k, w, b, sessions, visible), step)
    requires Next(One(rest, k, w, b, sessions, visible), step) ==
        WithWorld(One(rest, k, w, b, sessions, visible), k, w')
    ensures Reached(s, steps + [step], One(rest, k, w', b, sessions, visible))
    ensures RunRouted(s, steps) && Routed(One(rest, k, w, b, sessions, visible), step) ==> RunRouted(s, steps + [step])
  {
    assert rest[k := w][k := w'] == rest[k := w'];
    Then(s, steps, One(rest, k, w, b, sessions, visible), step, One(rest, k, w', b, sessions, visible));
  }

  lemma FirstAssignment(base: map<nat, nat>, done: set<Coord>, pending: set<Coord>)
    requires base == map[] || base == map[0 := 0]
    ensures D.AssignedAt(World(map[], base, done, pending, Some(FRESH)), FRESH, map[0 := 0]) ==
            World(map[], map[0 := 0], done, pending, Some(JOINED))
    ensures D.StartsAllowed(World(map[], base, done, pending, Some(FRESH)), map[0 := 0])
  {
    var start, w := map[0 := 0], World(map[], base, done, pending, Some(FRESH));
    assert start.Keys == {0} && ConsumerGroup.Assigned(FRESH, start) == JOINED;
    assert D.AssignedAt(w, FRESH, start).base == map[0 := 0];
  }

  /** Joining and an assignment from 0. */
  lemma Assigning(s: Sys, before: seq<Step>, rest: map<Key, D.World>, k: Key, base: map<nat, nat>, done: set<Coord>,
                  pending: set<Coord>, b: Bridge, sessions: map<nat, Session>, visible: seq<Event>)
      returns (steps: seq<Step>)
    requires Reached(s, before, One(rest, k, World(map[], base, done, pending, None), b, sessions, visible))
    requires RunRouted(s, before)
    requires base == map[] || base == map[0 := 0]
    ensures Reached(s, steps,
                    One(rest, k, World(map[], map[0 := 0], done, pending, Some(JOINED)), b, sessions, visible))
    ensures RunRouted(s, steps)
  {
    var w0, w1 := World(map[], base, done, pending, None), World(map[], base, done, pending, Some(FRESH));
    var w2 := World(map[], map[0 := 0], done, pending, Some(JOINED));
    GroupStep(s, before, rest, k, w0, w1, b, sessions, visible, Joined(k));
    steps := before + [Joined(k)];
    FirstAssignment(base, done, pending);
    GroupStep(s, steps, rest, k, w1, w2, b, sessions, visible, Assigned(k, map[0 := 0]));
    steps := steps + [Assigned(k, map[0 := 0])];
  }

  /** The same, and both messages. */
  lemma Joining(s: Sys, before: seq<Step>, rest: map<Key, D.World>, k: Key, base: map<nat, nat>, done: set<Coord>,
                pending: set<Coord>, b: Bridge, sessions: map<nat, Session>, visible: seq<Event>)
      returns (steps: seq<Step>)
    requires Reached(s, before, One(rest, k, World(map[], base, done, pending, None), b, sessions, visible))
    requires RunRouted(s, before)
    requires base == map[] || base == map[0 := 0]
    ensures Reached(s, steps, One(rest, k, World(map[], map[0 := 0], done, pending, Some(TWO)), b, sessions, visible))
    ensures RunRouted(s, steps)
  {
    var w2 := World(map[], map[0 := 0], done, pending, Some(JOINED));
    var w3 := World(map[], map[0 := 0], done, pending, Some(ONE));
    var w4 := World(map[], map[0 := 0], done, pending, Some(TWO));
    steps := Assigning(s, before, rest, k, base, done, pending, b, sessions, visible);
    Deliveries();
    GroupStep(s, steps, rest, k, w2, w3, b, sessions, visible, Delivered(k, FIRST, 0, 9, true, true, true));
    steps := steps + [Delivered(k, FIRST, 0, 9, true, true, true)];
    GroupStep(s, steps, rest, k, w3, w4, b, sessions, visible, Delivered(k, SECOND, 0, 9, true, true, true));
    steps := steps + [Delivered(k, SECOND, 0, 9, true, true, true)];
  }

  lemma Beginning(rest: map<Key, D.World>, k: Key) returns (steps: seq<Step>)
    requires Untouched(rest, k)
    ensures Reached(Empty(rest, k), steps, Ready(rest, k)) && RunRouted(Empty(rest, k), steps)
  {
    steps := Opening(rest, k);
    steps := Joining(Empty(rest, k), steps, rest, k, map[], {}, {}, IDLE, SESSIONS, []);
  }

  const OPEN: Bridge := Bridge(true, true, map[], None)

  function InTransaction(touched: set<Key>): map<nat, Session> {
    SESSIONS[1 := Session(true, true, false, touched)]
  }

  lemma Acknowledgements()
    ensures Current(TWO, TOKEN_1) && Current(TWO, TOKEN_2) && Current(HALF, TOKEN_1)
    ensures !Advances(TWO, SECOND) && Ack(TWO, TOKEN_2, true) == HALF
    ensures Advances(TWO, FIRST) && Drained(TWO, FIRST).0 == 1
    ensures Advances(HALF, FIRST) && Drained(HALF, FIRST).0 == 2
  {
    assert Drain(0, {} + {1}) == (0, {1}) by { assert {} + {1} == {1}; }
    var g := Ack(TWO, TOKEN_2, true);
    assert g.inflight == HALF.inflight && g.attempts == HALF.attempts && g.acked == HALF.acked && g.safe == HALF.safe;
    DrainMeaning(0, {} + {0});
    DrainMeaning(0, {1} + {0});
    assert 0 in {1} + {0} && 1 in {1} + {0} && 0 in {} + {0};
  }

  lemma TxBegins(s: Sys, steps: seq<Step>, rest: map<Key, D.World>, k: Key, w: D.World)
    requires Reached(s, steps, One(rest, k, w, IDLE, SESSIONS, [])) && RunRouted(s, steps)
    ensures var all := steps + [Step.Began(1, true)];
            Reached(s, all, One(rest, k, w, OPEN, InTransaction({}), [])) && RunRouted(s, all)
  {
    Then(s, steps, One(rest, k, w, IDLE, SESSIONS, []), Step.Began(1, true),
         One(rest, k, w, OPEN, InTransaction({}), []));
  }

  /** What the bridge holds after an acknowledgement through it. */
  function Bridged(b: Bridge, k: Key, g: Group, t: Token): Bridge {
    if Advances(g, t.coord) then StageOffset(b, k, t.coord.partition, Drained(g, t.coord).0, true) else b
  }

  /** The transactional session acknowledges. */
  lemma TxAcks(s: Sys, steps: seq<Step>, rest: map<Key, D.World>, k: Key, w: D.World, b: Bridge, touched: set<Key>,
               t: Token)
    requires Reached(s, steps, One(rest, k, w, b, InTransaction(touched), [])) && RunRouted(s, steps)
    requires w.live.Some? && Current(w.live.value, t) && StageOutcome(b, k, true).Staged?
    ensures var g, all := w.live.value, steps + [Acknowledged(1, k, t, true)];
            && Reached(s, all,
                       One(rest, k, D.TxAck(w, g, t, true), Bridged(b, k, g, t), InTransaction(touched + {k}), []))
            && RunRouted(s, all)
  {
    var mid, g := One(rest, k, w, b, InTransaction(touched), []), w.live.value;
    var touch := One(rest, k, w, b, InTransaction(touched + {k}), []);
    assert InTransaction(touched)[1 := Session(true, true, false, touched + {k})] == InTransaction(touched + {k});
    assert Touch(mid, 1, k) == touch && Live(touch, k) == Some(g);
    assert rest[k := w][k := D.TxAck(w, g, t, true)] == rest[k := D.TxAck(w, g, t, true)];
    Then(s, steps, mid, Acknowledged(1, k, t, true),
         One(rest, k, D.TxAck(w, g, t, true), Bridged(b, k, g, t), InTransaction(touched + {k}), []));
  }

  /** The transactional session begins and acknowledges the second record, which does not advance the safe position. */
  lemma AcknowledgedInside(rest: map<Key, D.World>, k: Key) returns (steps: seq<Step>)
    requires Untouched(rest, k)
    ensures Reached(Empty(rest, k), steps,
                    One(rest, k, World(map[], map[0 := 0], {}, {SECOND}, Some(HALF)), OPEN, InTransaction({k}), []))
    ensures RunRouted(Empty(rest, k), steps)
  {
    steps := Beginning(rest, k);
    var w := World(map[], map[0 := 0], {}, {}, Some(TWO));
    TxBegins(Empty(rest, k), steps, rest, k, w);
    steps := steps + [Step.Began(1, true)];
    SecondInside(k, w);
    TxAcks(Empty(rest, k), steps, rest, k, w, OPEN, {}, TOKEN_2);
    steps := steps + [Acknowledged(1, k, TOKEN_2, true)];
  }

  lemma SecondInside(k: Key, w: D.World)
    requires w == World(map[], map[0 := 0], {}, {}, Some(TWO))
    ensures Current(TWO, TOKEN_2) && Bridged(OPEN, k, TWO, TOKEN_2) == OPEN && {} + {k} == {k}
    ensures D.TxAck(w, TWO, TOKEN_2, true) == World(map[], map[0 := 0], {}, {SECOND}, Some(HALF))
  {
    Acknowledgements();
    assert {} + {SECOND} == {SECOND};
  }

  // ------------------------------------------------------------ mixed routes and interrupted recoveries

  /** A run that the environment allows and after which a committed offset has passed an unresolved record. */
  ghost predicate Loses(s: Sys, steps: seq<Step>, k: Key) {
    Init(s) && RunAllowed(s, steps) && var end := Run(s, steps); k in end.worlds && !D.Durable(end.worlds[k])
  }

  lemma MixedEnd(k: Key, mid: Sys)
    requires Good(mid)
    requires mid == One(map[], k, World(map[], map[0 := 0], {}, {SECOND}, Some(HALF)), OPEN, InTransaction({k}), [])
    ensures var s' := Next(Next(mid, Acknowledged(0, k, TOKEN_1, true)), RolledBack(1, Completed));
            k in s'.worlds && !D.Durable(s'.worlds[k])
  {
    var w := mid.worlds[k];
    Acknowledgements();
    MixedRoutesIff(mid, Acknowledged(0, k, TOKEN_1, true), RolledBack(1, Completed), 1, k, TOKEN_1);
    assert SECOND in w.pending && SECOND in w.records;
    assert PassesPending(w, 0, 2, FIRST);
  }

  /** Record 1 is acknowledged inside a transaction, record 0 directly, and the transaction rolls back. The broker then
      holds offset 2 although record 1 was never resolved. */
  lemma MixedRoutesLose(k: Key) returns (steps: seq<Step>)
    ensures Loses(Empty(map[], k), steps, k)
  {
    var s := Empty(map[], k);
    steps := AcknowledgedInside(map[], k);
    var mid := Run(s, steps);
    RunGood(s, steps);
    MixedEnd(k, mid);
    var acked := Next(mid, Acknowledged(0, k, TOKEN_1, true));
    Then(s, steps, mid, Acknowledged(0, k, TOKEN_1, true), acked);
    steps := steps + [Acknowledged(0, k, TOKEN_1, true)];
    Then(s, steps, acked, RolledBack(1, Completed), Next(acked, RolledBack(1, Completed)));
    steps := steps + [RolledBack(1, Completed)];
  }

  /** A group of an empty stream. */
  function Idling(live: Option<Group>): D.World {
    D.World({}, map[], map[], map[], {}, {}, {}, live)
  }

  /** Another group is touched by the transaction, too. */
  lemma BothTouched(k: Key, j: Key) returns (steps: seq<Step>)
    requires j != k
    ensures var end := One(map[j := Idling(Some(FRESH))], k, World(map[], map[0 := 0], {}, {SECOND}, Some(HALF)), OPEN,
                           InTransaction({k, j}), []);
            Reached(Empty(map[j := Idling(None)], k), steps, end) && RunRouted(Empty(map[j := Idling(None)], k), steps)
  {
    var rest, rest' := map[j := Idling(None)], map[j := Idling(Some(FRESH))];
    var s, w := Empty(rest, k), World(map[], map[0 := 0], {}, {SECOND}, Some(HALF));
    steps := AcknowledgedInside(rest, k);
    var a, b := One(rest, k, w, OPEN, InTransaction({k}), []), One(rest', k, w, OPEN, InTransaction({k}), []);
    JoinsOther(k, j, w);
    Then(s, steps, a, Joined(j), b);
    steps := steps + [Joined(j)];
    TouchesOther(k, j, w);
    Then(s, steps, b, Acknowledged(1, j, TOKEN_1, true), One(rest', k, w, OPEN, InTransaction({k, j}), []));
    steps := steps + [Acknowledged(1, j, TOKEN_1, true)];
  }

  lemma JoinsOther(k: Key, j: Key, w: D.World)
    requires j != k
    ensures Next(One(map[j := Idling(None)], k, w, OPEN, InTransaction({k}), []), Joined(j)) ==
            One(map[j := Idling(Some(FRESH))], k, w, OPEN, InTransaction({k}), [])
  {
    assert map[j := Idling(None)][k := w][j := Idling(Some(FRESH))] == map[j := Idling(Some(FRESH))][k := w];
  }

  /** The acknowledgement is rejected, but the group counts as touched. */
  lemma TouchesOther(k: Key, j: Key, w: D.World)
    requires j != k
    ensures Next(One(map[j := Idling(Some(FRESH))], k, w, OPEN, InTransaction({k}), []),
                 Acknowledged(1, j, TOKEN_1, true)) ==
            One(map[j := Idling(Some(FRESH))], k, w, OPEN, InTransaction({k, j}), [])
  {
    var b := One(map[j := Idling(Some(FRESH))], k, w, OPEN, InTransaction({k}), []);
    var c := One(map[j := Idling(Some(FRESH))], k, w, OPEN, InTransaction({k, j}), []);
    assert {k} + {j} == {k, j};
    assert InTransaction({k})[1 := Session(true, true, false, {k, j})] == InTransaction({k, j});
    assert Touch(b, 1, j) == c;
    assert Ack(FRESH, TOKEN_1, true) == FRESH;
    assert c.worlds[j := D.TxAck(Idling(Some(FRESH)), FRESH, TOKEN_1, true)] == c.worlds;
  }

  lemma InterruptedEnd(k: Key, s: Sys)
    requires Good(s) && InTx(s, 1) && CanExecute(s, 0) && !s.sessions[0].active && k in s.worlds
    requires s.worlds[k] == World(map[], map[0 := 0], {}, {SECOND}, Some(HALF))
    ensures var end := Next(Next(s, RolledBack(1, Interrupted({k}))), Acknowledged(0, k, TOKEN_1, true));
            k in end.worlds && !D.Durable(end.worlds[k])
  {
    var rolledBack, w := RolledBack(1, Interrupted({k})), s.worlds[k];
    FailedStep(s, rolledBack, 1, k);
    OthersUntouched(s, rolledBack);
    Acknowledgements();
    LeftBehindIff(s, rolledBack, Acknowledged(0, k, TOKEN_1, true), 1, k, TOKEN_1);
    assert SECOND in w.pending && PassesPending(w, 0, 2, FIRST);
  }

  lemma OthersUntouched(s: Sys, step: Step)
    requires step.RolledBack? && step.sid == 1 && 0 in s.sessions
    ensures 0 in Next(s, step).sessions && Next(s, step).sessions[0] == s.sessions[0]
  {
  }

  /** The rollback recovers the other group first, and closing its client raises. The state of this group stays, with
      the acknowledgement of record 1, and a direct acknowledgement of record 0 commits past it. */
  lemma InterruptedRecoveryLoses(k: Key, j: Key) returns (steps: seq<Step>)
    requires j != k
    ensures Loses(Empty(map[j := Idling(None)], k), steps, k)
  {
    var s := Empty(map[j := Idling(None)], k);
    steps := BothTouched(k, j);
    var mid := Run(s, steps);
    RunGood(s, steps);
    InterruptedEnd(k, mid);
    var rolled := Next(mid, RolledBack(1, Interrupted({k})));
    Then(s, steps, mid, RolledBack(1, Interrupted({k})), rolled);
    steps := steps + [RolledBack(1, Interrupted({k}))];
    Then(s, steps, rolled, Acknowledged(0, k, TOKEN_1, true), Next(rolled, Acknowledged(0, k, TOKEN_1, true)));
    steps := steps + [Acknowledged(0, k, TOKEN_1, true)];
  }

  // ------------------------------------------------------------ a consume-publish of its own

  /** The first record is acknowledged, the second is in flight. */
  const LATER: Group :=
    Group(1, {0}, map[SECOND := Inflight(1, 1, 9)], map[SECOND := 1], map[0 := {}], map[0 := 1], map[], map[0 := 2])

  lemma AcknowledgedFirst()
    ensures Ack(TWO, TOKEN_1, true) == LATER
    ensures Current(LATER, TOKEN_2) && Advances(LATER, SECOND) && Drained(LATER, SECOND).0 == 2
  {
    Acknowledgements();
    DrainMeaning(0, {} + {0});
    assert Drained(TWO, FIRST).1 == {};
    var g := Ack(TWO, TOKEN_1, true);
    assert g.inflight == LATER.inflight && g.attempts == LATER.attempts;
    assert g.acked == LATER.acked && g.safe == LATER.safe;
    DrainMeaning(1, {} + {1});
    assert Drained(LATER, SECOND) == Drain(1, {} + {1}) && 1 in {} + {1};
  }

  /** No position token, and the abort raises. */
  const STRANDED: TxEnv := TxEnv(true, 0, true, false, true, false, Completed)

  /** The consume-publish fails after its offset was staged, and nothing is recovered. The next direct acknowledgement
      commits past the record that was never resolved. */
  lemma StrandedProgressLoses(k: Key) returns (steps: seq<Step>)
    ensures Loses(Empty(map[], k), steps, k)
  {
    var s := Empty(map[], k);
    steps := Beginning(map[], k);
    var w := World(map[], map[0 := 0], {}, {}, Some(LATER));
    var mid := One(map[], k, w, IDLE, Holding(k), []);
    StrandedStep(k);
    Then(s, steps, Ready(map[], k), ConsumedAndPublished(0, k, TOKEN_1, [], STRANDED), mid);
    steps := steps + [ConsumedAndPublished(0, k, TOKEN_1, [], STRANDED)];
    var step := Acknowledged(0, k, TOKEN_2, true);
    var w' := D.DirectAck(w, LATER, TOKEN_2, true);
    DirectStep(k, w, IDLE, Holding(k), TOKEN_2);
    Then(s, steps, mid, step, One(map[], k, w', IDLE, Holding(k), []));
    steps := steps + [step];
    StrandedWorld(w, w');
  }

  lemma StrandedWorld(w: D.World, w': D.World)
    requires w == World(map[], map[0 := 0], {}, {}, Some(LATER)) && w' == D.DirectAck(w, LATER, TOKEN_2, true)
    ensures !D.Durable(w')
  {
    AcknowledgedFirst();
    AcceptedFields(w, LATER, TOKEN_2, w');
    FirstUncovered(w');
  }

  lemma FirstUncovered(w: D.World)
    requires FIRST in w.records && FIRST !in D.Resolved(w) && 0 in w.committed && w.committed[0] > 0
    requires w.base == map[0 := 0]
    ensures !D.Durable(w)
  {
    assert Coord(0, 0) == FIRST;
  }

  /** The plain session still counts the group as touched. */
  function Holding(k: Key): map<nat, Session> {
    SESSIONS[0 := Session(false, false, false, {k})]
  }

  lemma DirectStep(k: Key, w: D.World, b: Bridge, sessions: map<nat, Session>, t: Token)
    requires w.live.Some? && 0 in sessions && !sessions[0].closed && !sessions[0].transactional && !sessions[0].active
    ensures Next(One(map[], k, w, b, sessions, []), Acknowledged(0, k, t, true)) ==
            One(map[], k, D.DirectAck(w, w.live.value, t, true), b, sessions, [])
  {
    assert map[k := w][k := D.DirectAck(w, w.live.value, t, true)] == map[k := D.DirectAck(w, w.live.value, t, true)];
  }

  /** A consume-publish of the plain session, up to the end of its attempt. */
  lemma AttemptStep(k: Key, w: D.World, t: Token, outputs: seq<Event>, tx: TxEnv, visible: seq<Event>)
    requires w.live.Some? && Current(w.live.value, t) && tx.beginOk && tx.metadataOk && tx.produced == |outputs|
    ensures var s, g := One(map[], k, w, IDLE, SESSIONS, visible), w.live.value;
            && OpensOwn(s, 0, tx) && AttemptOk(s, 0, k, t, outputs, tx) == tx.encodeOk
            && Attempted(s, 0, k, t, outputs, tx) ==
               Sys(map[k := D.TxAck(w, g, t, true)], Bridged(OPEN, k, g, t), Holding(k), visible, outputs)
  {
    var s, g := One(map[], k, w, IDLE, SESSIONS, visible), w.live.value;
    var begun := s.(bridge := OPEN);
    var produced := Sys(map[k := w], OPEN, Holding(k), visible, outputs);
    assert {} + {k} == {k} && [] + outputs == outputs;
    assert Produce(Touch(begun, 0, k), outputs, tx.produced) == produced;
    assert map[k := w][k := D.TxAck(w, g, t, true)] == map[k := D.TxAck(w, g, t, true)];
  }

  lemma StrandedStep(k: Key)
    ensures Next(Ready(map[], k), ConsumedAndPublished(0, k, TOKEN_1, [], STRANDED)) ==
            One(map[], k, World(map[], map[0 := 0], {}, {}, Some(LATER)), IDLE, Holding(k), [])
  {
    var w := World(map[], map[0 := 0], {}, {}, Some(TWO));
    StagedFirst(k, w);
    AttemptStep(k, w, TOKEN_1, [], STRANDED, []);
    StrandedEnd(k, w,
                Sys(map[k := World(map[], map[0 := 0], {}, {FIRST}, Some(LATER))], Staging(k), Holding(k), [], []));
  }

  lemma StrandedEnd(k: Key, w: D.World, a: Sys)
    requires k in a.worlds && a.worlds == map[k := w.(live := Some(LATER), pending := a.worlds[k].pending)]
    requires a.bridge.active && 0 in a.sessions && a.sessions[0].touched == {k}
    ensures Forget(AbortTx(a), 0, Interrupted({k})).worlds == map[k := w.(live := Some(LATER), pending := {})]
  {
  }

  // ------------------------------------------------------------ staged offsets

  function Staging(k: Key): Bridge {
    Bridge(true, true, map[0 := 1], Some(k))
  }

  /** The transactional session has staged the first record. */
  lemma FirstStaged(k: Key) returns (steps: seq<Step>)
    ensures var end := One(map[], k, World(map[], map[0 := 0], {}, {FIRST}, Some(LATER)), Staging(k),
                           InTransaction({k}), []);
            Reached(Empty(map[], k), steps, end) && RunRouted(Empty(map[], k), steps)
  {
    steps := Beginning(map[], k);
    var w := World(map[], map[0 := 0], {}, {}, Some(TWO));
    TxBegins(Empty(map[], k), steps, map[], k, w);
    steps := steps + [Step.Began(1, true)];
    StagedFirst(k, w);
    TxAcks(Empty(map[], k), steps, map[], k, w, OPEN, {}, TOKEN_1);
    steps := steps + [Acknowledged(1, k, TOKEN_1, true)];
  }

  lemma StagedFirst(k: Key, w: D.World)
    requires w == World(map[], map[0 := 0], {}, {}, Some(TWO))
    ensures Current(TWO, TOKEN_1) && Bridged(OPEN, k, TWO, TOKEN_1) == Staging(k) && {} + {k} == {k}
    ensures D.TxAck(w, TWO, TOKEN_1, true) == World(map[], map[0 := 0], {}, {FIRST}, Some(LATER))
  {
    Acknowledgements();
    AcknowledgedFirst();
    assert {} + {FIRST} == {FIRST};
  }

  /** The position is set back to 0 while offset 1 is staged; the commit of the transaction moves it past record 0,
      which nobody has resolved since. */
  lemma OverriddenPositionLoses(k: Key) returns (steps: seq<Step>)
    ensures Loses(Empty(map[], k), steps, k)
  {
    var s := Empty(map[], k);
    steps := FirstStaged(k);
    var mid, target := Run(s, steps), map[0 := 0];
    RunGood(s, steps);
    OverriddenEnd(k, mid);
    OverriddenAllowed(k);
    var moved := Next(mid, Positioned(0, k, target, true));
    Then(s, steps, mid, Positioned(0, k, target, true), moved);
    steps := steps + [Positioned(0, k, target, true)];
    Then(s, steps, moved, Committed(1, true, Completed), Next(moved, Committed(1, true, Completed)));
    steps := steps + [Committed(1, true, Completed)];
  }

  lemma OverriddenEnd(k: Key, s: Sys)
    requires Good(s) && InTx(s, 1) && CanExecute(s, 0) && !s.sessions[0].active && k in s.worlds
    requires s.bridge == Staging(k)
    requires FIRST in s.worlds[k].records
    ensures var end := Next(Next(s, Positioned(0, k, map[0 := 0], true)), Committed(1, true, Completed));
            k in end.worlds && !D.Durable(end.worlds[k])
  {
    RepositionOverriddenIff(s, 0, 1, k, map[0 := 0], 0, Completed);
    assert Coord(0, 0) in s.worlds[k].records;
    PositionedStep(s, 0, k, map[0 := 0]);
    CommittedStep(Next(s, Positioned(0, k, map[0 := 0], true)), 1, k, Completed);
  }

  lemma OverriddenAllowed(k: Key)
    ensures D.TargetAllowed(World(map[], map[0 := 0], {}, {FIRST}, Some(LATER)), LATER, map[0 := 0])
  {
    assert LATER.safe.Keys == {0} && map[0 := 0].Keys == {0};
  }

  const FINE: TxEnv := TxEnv(true, 0, true, true, true, true, Completed)

  /** A consume-publish inside the transaction is rejected: the group is dropped and forgotten, the staged offset
      stays. */
  lemma InnerFails(k: Key, w: D.World, b: Bridge)
    requires w.live.Some? && !Current(w.live.value, TOKEN_1) && b.active
    ensures Next(One(map[], k, w, b, InTransaction({k}), []), ConsumedAndPublished(1, k, TOKEN_1, [], FINE)) ==
            One(map[], k, w.(live := None), b, InTransaction({}), [])
  {
    var s, g := One(map[], k, w, b, InTransaction({k}), []), w.live.value;
    assert {k} + {k} == {k} && InTransaction({k})[1 := Session(true, true, false, {k})] == InTransaction({k});
    assert Touch(s, 1, k) == s;
    assert Produce(Touch(s, 1, k), [], 0) == s;
    var ok := StageOutcome(b, k, true).Staged?;
    assert Ack(g, TOKEN_1, ok) == g;
    assert D.TxAck(w, g, TOKEN_1, ok) == w && map[k := w][k := w] == map[k := w];
    assert Attempted(s, 1, k, TOKEN_1, [], FINE) == s;
    assert InTransaction({k})[1 := Session(true, true, false, {})] == InTransaction({});
    assert RecoverAll(s.worlds, {k} - {}) == map[k := w.(live := None)];
  }

  lemma NobodyTouched(k: Key)
    ensures !TouchedBy(InTransaction({}), k)
  {
  }

  /** Both records are resolved. */
  const DONE: Group := Group(1, {0}, map[], map[], map[0 := {}], map[0 := 2], map[], map[0 := 2])

  lemma AcknowledgedBoth(w: D.World)
    requires w == World(map[], map[0 := 0], {}, {FIRST}, Some(TWO))
    ensures var w1 := D.DirectAck(w, TWO, TOKEN_1, true);
            && w1 == World(map[0 := 1], map[0 := 0], {FIRST}, {FIRST}, Some(LATER))
            && D.DirectAck(w1, LATER, TOKEN_2, true) ==
               World(map[0 := 2], map[0 := 0], {FIRST, SECOND}, {FIRST}, Some(DONE))
  {
    Acknowledgements();
    AcknowledgedFirst();
    assert {} + {FIRST} == {FIRST} && {FIRST} + {SECOND} == {FIRST, SECOND};
    DrainMeaning(1, {} + {1});
    assert Drained(LATER, SECOND).1 == {};
    var g := Ack(LATER, TOKEN_2, true);
    assert g.inflight == DONE.inflight && g.attempts == DONE.attempts && g.acked == DONE.acked && g.safe == DONE.safe;
    assert map[0 := 1][0 := 2] == map[0 := 2];
  }

  /** The books after the run: the broker has gone back to offset 1, and the live group stands at 2. */
  ghost predicate Lowered(s: Sys, steps: seq<Step>, k: Key) {
    var last := Committed(1, true, Completed);
    var before, after := Run(s, steps), Run(s, steps + [last]);
    && Init(s) && RunAllowed(s, steps + [last]) && RunRouted(s, steps + [last])
    && k in before.worlds && k in after.worlds && Live(after, k) == Some(DONE) && !after.bridge.active
    && before.worlds[k].committed == map[0 := 2] && after.worlds[k].committed == map[0 := 1]
  }

  lemma CommitCanLower(k: Key) returns (steps: seq<Step>)
    ensures Lowered(Empty(map[], k), steps, k)
  {
    var s := Empty(map[], k);
    steps := FirstStaged(k);
    var w0 := World(map[], map[0 := 0], {}, {FIRST}, Some(LATER));
    InnerFails(k, w0, Staging(k));
    Then(s, steps, One(map[], k, w0, Staging(k), InTransaction({k}), []), ConsumedAndPublished(1, k, TOKEN_1, [], FINE),
         One(map[], k, w0.(live := None), Staging(k), InTransaction({}), []));
    steps := steps + [ConsumedAndPublished(1, k, TOKEN_1, [], FINE)];
    steps := Joining(s, steps, map[], k, map[0 := 0], {}, {FIRST}, Staging(k), InTransaction({}), []);
    steps := DirectlyBoth(s, steps, k);
    LastCommit(k);
    var w3 := World(map[0 := 2], map[0 := 0], {FIRST, SECOND}, {FIRST}, Some(DONE));
    var end := One(map[], k, w3, Staging(k), InTransaction({}), []);
    Then(s, steps, end, Committed(1, true, Completed), Next(end, Committed(1, true, Completed)));
  }

  lemma DirectlyBoth(s: Sys, before: seq<Step>, k: Key) returns (steps: seq<Step>)
    requires Reached(s, before,
                     One(map[], k, World(map[], map[0 := 0], {}, {FIRST}, Some(TWO)), Staging(k), InTransaction({}),
                         []))
    requires RunRouted(s, before)
    ensures var w := World(map[0 := 2], map[0 := 0], {FIRST, SECOND}, {FIRST}, Some(DONE));
            Reached(s, steps, One(map[], k, w, Staging(k), InTransaction({}), [])) && RunRouted(s, steps)
  {
    var w := World(map[], map[0 := 0], {}, {FIRST}, Some(TWO));
    AcknowledgedBoth(w);
    var w1 := D.DirectAck(w, TWO, TOKEN_1, true);
    var w2 := D.DirectAck(w1, LATER, TOKEN_2, true);
    NobodyTouched(k);
    DirectStep(k, w, Staging(k), InTransaction({}), TOKEN_1);
    Then(s, before, One(map[], k, w, Staging(k), InTransaction({}), []), Acknowledged(0, k, TOKEN_1, true),
         One(map[], k, w1, Staging(k), InTransaction({}), []));
    steps := before + [Acknowledged(0, k, TOKEN_1, true)];
    DirectStep(k, w1, Staging(k), InTransaction({}), TOKEN_2);
    Then(s, steps, One(map[], k, w1, Staging(k), InTransaction({}), []), Acknowledged(0, k, TOKEN_2, true),
         One(map[], k, w2, Staging(k), InTransaction({}), []));
    steps := steps + [Acknowledged(0, k, TOKEN_2, true)];
  }

  lemma LastCommit(k: Key)
    ensures var w := World(map[0 := 2], map[0 := 0], {FIRST, SECOND}, {FIRST}, Some(DONE));
            var s' := Next(One(map[], k, w, Staging(k), InTransaction({}), []), Committed(1, true, Completed));
            k in s'.worlds && s'.worlds[k].committed == map[0 := 1] && Live(s', k) == Some(DONE) && !s'.bridge.active
  {
    var w := World(map[0 := 2], map[0 := 0], {FIRST, SECOND}, {FIRST}, Some(DONE));
    CommittedStep(One(map[], k, w, Staging(k), InTransaction({}), []), 1, k, Completed);
    assert map[0 := 2] + map[0 := 1] == map[0 := 1];
  }

  function StagingBoth(k: Key): Bridge {
    Bridge(true, true, map[0 := 2], Some(k))
  }

  lemma StagedSecond(k: Key, w: D.World)
    requires w == World(map[], map[0 := 0], {}, {FIRST}, Some(LATER))
    ensures Current(LATER, TOKEN_2) && Bridged(Staging(k), k, LATER, TOKEN_2) == StagingBoth(k)
    ensures D.TxAck(w, LATER, TOKEN_2, true) == World(map[], map[0 := 0], {}, {FIRST, SECOND}, Some(DONE))
  {
    AcknowledgedFirst();
    assert {FIRST} + {SECOND} == {FIRST, SECOND};
    DrainMeaning(1, {} + {1});
    assert Drained(LATER, SECOND).1 == {};
    var g := Ack(LATER, TOKEN_2, true);
    assert g.inflight == DONE.inflight && g.attempts == DONE.attempts && g.acked == DONE.acked && g.safe == DONE.safe;
  }

  /** Both records are staged; a consume-publish inside fails, and the new state has both in flight again. */
  lemma BothStagedAndDropped(k: Key) returns (steps: seq<Step>)
    ensures RunRouted(Empty(map[], k), steps)
    ensures var w := World(map[], map[0 := 0], {}, {FIRST, SECOND}, Some(TWO));
            Reached(Empty(map[], k), steps, One(map[], k, w, StagingBoth(k), InTransaction({}), []))
  {
    var s := Empty(map[], k);
    steps := FirstStaged(k);
    var w0 := World(map[], map[0 := 0], {}, {FIRST}, Some(LATER));
    StagedSecond(k, w0);
    TxAcks(s, steps, map[], k, w0, Staging(k), {k}, TOKEN_2);
    assert {k} + {k} == {k};
    steps := steps + [Acknowledged(1, k, TOKEN_2, true)];
    var w1 := World(map[], map[0 := 0], {}, {FIRST, SECOND}, Some(DONE));
    InnerFails(k, w1, StagingBoth(k));
    Then(s, steps, One(map[], k, w1, StagingBoth(k), InTransaction({k}), []),
         ConsumedAndPublished(1, k, TOKEN_1, [], FINE),
         One(map[], k, w1.(live := None), StagingBoth(k), InTransaction({}), []));
    steps := steps + [ConsumedAndPublished(1, k, TOKEN_1, [], FINE)];
    steps := Joining(s, steps, map[], k, map[0 := 0], {}, {FIRST, SECOND}, StagingBoth(k), InTransaction({}), []);
  }

  lemma CommitsWorld(k: Key, w: D.World, w': D.World)
    requires w == World(map[], map[0 := 0], {}, {FIRST, SECOND}, Some(TWO))
    requires w' == World(map[0 := 2], map[0 := 0], {FIRST, SECOND}, {}, Some(TWO))
    ensures CommitAll(map[k := w], StagingBoth(k)) == map[k := w']
  {
    assert map[] + map[0 := 2] == map[0 := 2] && {} + {FIRST, SECOND} == {FIRST, SECOND};
    assert D.TxCommitted(w, map[0 := 2]) == w';
  }

  lemma CommitsBoth(k: Key)
    ensures var w := World(map[], map[0 := 0], {}, {FIRST, SECOND}, Some(TWO));
            Next(One(map[], k, w, StagingBoth(k), InTransaction({}), []), Committed(1, true, Completed)) ==
            One(map[], k, World(map[0 := 2], map[0 := 0], {FIRST, SECOND}, {}, Some(TWO)), IDLE, SESSIONS, [])
  {
    var w := World(map[], map[0 := 0], {}, {FIRST, SECOND}, Some(TWO));
    var w' := World(map[0 := 2], map[0 := 0], {FIRST, SECOND}, {}, Some(TWO));
    CommitsWorld(k, w, w');
    assert InTransaction({})[1 := Session(true, false, false, {})] == SESSIONS;
  }

  /** The books after the run: an ordinary acknowledgement, with nothing staged, has taken the broker back. */
  ghost predicate LoweredDirectly(s: Sys, steps: seq<Step>, k: Key) {
    var last := Acknowledged(0, k, TOKEN_1, true);
    var before, after := Run(s, steps), Run(s, steps + [last]);
    && Init(s) && RunAllowed(s, steps + [last]) && RunRouted(s, steps + [last])
    && k in before.worlds && k in after.worlds && !before.bridge.active
    && before.worlds[k].committed == map[0 := 2] && after.worlds[k].committed == map[0 := 1]
  }

  lemma BackToOne(w: D.World, w': D.World)
    requires w == World(map[0 := 2], map[0 := 0], {FIRST, SECOND}, {}, Some(TWO))
    requires w' == D.DirectAck(w, TWO, TOKEN_1, true)
    ensures w'.committed == map[0 := 1]
  {
    Acknowledgements();
    AcceptedFields(w, TWO, TOKEN_1, w');
    assert map[0 := 2][0 := 1] == map[0 := 1];
  }

  /** The transaction commits what the dropped state had staged; the new state is behind that, and its first
      acknowledgement commits less. */
  lemma AcknowledgementCanLower(k: Key) returns (steps: seq<Step>)
    ensures LoweredDirectly(Empty(map[], k), steps, k)
  {
    var s := Empty(map[], k);
    steps := BothStagedAndDropped(k);
    var w0 := World(map[], map[0 := 0], {}, {FIRST, SECOND}, Some(TWO));
    var w1 := World(map[0 := 2], map[0 := 0], {FIRST, SECOND}, {}, Some(TWO));
    CommitsBoth(k);
    Then(s, steps, One(map[], k, w0, StagingBoth(k), InTransaction({}), []), Committed(1, true, Completed),
         One(map[], k, w1, IDLE, SESSIONS, []));
    steps := steps + [Committed(1, true, Completed)];
    var w2 := D.DirectAck(w1, TWO, TOKEN_1, true);
    DirectStep(k, w1, IDLE, SESSIONS, TOKEN_1);
    BackToOne(w1, w2);
    NoSessionActive(k);
    Then(s, steps, One(map[], k, w1, IDLE, SESSIONS, []), Acknowledged(0, k, TOKEN_1, true),
         One(map[], k, w2, IDLE, SESSIONS, []));
  }

  lemma NoSessionActive(k: Key)
    ensures !TouchedBy(SESSIONS, k)
  {
  }

  // ------------------------------------------------------------ resets

  const GONE: Group := Group(2, {}, map[], map[], map[], map[], map[], map[])

  lemma StartedAndRevoked(k: Key) returns (steps: seq<Step>)
    ensures RunRouted(Empty(map[], k), steps)
    ensures Reached(Empty(map[], k), steps,
                    One(map[], k, World(map[], map[0 := 0], {}, {}, Some(GONE)), IDLE, SESSIONS, []))
  {
    var s := Empty(map[], k);
    steps := Opening(map[], k);
    steps := Assigning(s, steps, map[], k, map[], {}, {}, IDLE, SESSIONS, []);
    var w2, w3 := World(map[], map[0 := 0], {}, {}, Some(JOINED)), World(map[], map[0 := 0], {}, {}, Some(GONE));
    assert ConsumerGroup.Revoked(JOINED, {0}) == GONE;
    GroupStep(s, steps, map[], k, w2, w3, IDLE, SESSIONS, [], Revoked(k, {0}));
    steps := steps + [Revoked(k, {0})];
  }

  /** The second start passes over the first record. */
  lemma Skipped(w: D.World)
    requires w == World(map[], map[0 := 0], {}, {}, Some(GONE))
    ensures D.Skips(w, 0, 1) && !StartCovered(w, 0, 1)
  {
    assert Coord(0, 0) in w.records && Coord(0, 0) !in D.Resolved(w);
  }

  /** The partition is started at 0, revoked, and started again at 1, as the reset to the latest offset does. That
      assignment passes over record 0, and the acknowledgement of record 1 commits past it. */
  lemma LatestResetLoses(k: Key) returns (steps: seq<Step>, w: D.World)
    ensures Init(Empty(map[], k)) && RunAllowed(Empty(map[], k), steps) && RunRouted(Empty(map[], k), steps)
    ensures var s := Run(Empty(map[], k), steps);
            var s' := AfterLaterStart(s, 0, k, 1, SECOND, Token(SECOND, 3, 1));
            k in s.worlds && 0 in s.worlds[k].base && D.Skips(s.worlds[k], 0, 1)
            && k in s'.worlds && s'.worlds[k] == w && !D.Durable(w)
  {
    steps := StartedAndRevoked(k);
    var s := Run(Empty(map[], k), steps);
    RunGood(Empty(map[], k), steps);
    Skipped(s.worlds[k]);
    w := LaterStartIff(s, 0, k, 1, SECOND, Token(SECOND, 3, 1));
  }

  // ------------------------------------------------------------ repeated outputs

  const PUBLISHES: TxEnv := TxEnv(true, 1, true, true, true, true, Completed)

  /** A consume-publish of record 1, with record 0 still open: the output appears, no offset is committed. */
  lemma PublishStep(k: Key, done: set<Coord>, visible: seq<Event>)
    ensures var w := World(map[], map[0 := 0], done, {}, Some(TWO));
            Next(One(map[], k, w, IDLE, SESSIONS, visible), ConsumedAndPublished(0, k, TOKEN_2, ["x"], PUBLISHES)) ==
            One(map[], k, World(map[], map[0 := 0], done + {SECOND}, {}, Some(HALF)), IDLE, SESSIONS, visible + ["x"])
  {
    var w := World(map[], map[0 := 0], done, {}, Some(TWO));
    var s := One(map[], k, w, IDLE, SESSIONS, visible);
    Acknowledgements();
    AttemptStep(k, w, TOKEN_2, ["x"], PUBLISHES, visible);
    var a := Attempted(s, 0, k, TOKEN_2, ["x"], PUBLISHES);
    assert a == Sys(map[k := D.TxAck(w, TWO, TOKEN_2, true)], OPEN, Holding(k), visible, ["x"]);
    PublishEnd(k, w, a, visible);
  }

  lemma PublishEnd(k: Key, w: D.World, a: Sys, visible: seq<Event>)
    requires a == Sys(map[k := w.(live := Some(HALF), pending := {} + {SECOND})], OPEN, Holding(k), visible, ["x"])
    requires w.committed == map[]
    ensures Untouch(CommitTx(a), 0) ==
            One(map[], k, w.(live := Some(HALF), pending := {}, done := w.done + {SECOND}), IDLE, SESSIONS,
                visible + ["x"])
  {
    assert Holding(k)[0 := Session(false, false, false, {})] == SESSIONS;
    assert w.done + ({} + {SECOND}) == w.done + {SECOND};
    assert CommitAll(a.worlds, OPEN) == map[k := w.(live := Some(HALF), pending := {}, done := w.done + {SECOND})];
  }

  /** The state after the output was published, and the recovery of the group. */
  lemma PublishedAndRecovered(s: Sys, before: seq<Step>, k: Key, done: set<Coord>,
                              visible: seq<Event>) returns (steps: seq<Step>)
    requires Reached(s, before, One(map[], k, World(map[], map[0 := 0], done, {}, Some(TWO)), IDLE, SESSIONS, visible))
    requires RunRouted(s, before)
    ensures RunRouted(s, steps)
    ensures Reached(s, steps,
                    One(map[], k, World(map[], map[0 := 0], done + {SECOND}, {}, None), IDLE, SESSIONS,
                        visible + ["x"]))
  {
    var step := ConsumedAndPublished(0, k, TOKEN_2, ["x"], PUBLISHES);
    var w := World(map[], map[0 := 0], done + {SECOND}, {}, Some(HALF));
    PublishStep(k, done, visible);
    Then(s, before, One(map[], k, World(map[], map[0 := 0], done, {}, Some(TWO)), IDLE, SESSIONS, visible), step,
         One(map[], k, w, IDLE, SESSIONS, visible + ["x"]));
    steps := before + [step];
    GroupStep(s, steps, map[], k, w, w.(live := None), IDLE, SESSIONS, visible + ["x"], Recovered(k));
    steps := steps + [Recovered(k)];
  }

  /** The consume-publish commits without an offset. After a recovery the record is delivered and published again. */
  lemma OutputsCanRepeat(k: Key) returns (steps: seq<Step>)
    ensures Init(Empty(map[], k)) && RunAllowed(Empty(map[], k), steps) && RunRouted(Empty(map[], k), steps)
    ensures Run(Empty(map[], k), steps).visible == [] + ["x"] + ["x"]
  {
    var s := Empty(map[], k);
    steps := Beginning(map[], k);
    steps := PublishedAndRecovered(s, steps, k, {}, []);
    steps := Joining(s, steps, map[], k, map[0 := 0], {} + {SECOND}, {}, IDLE, SESSIONS, [] + ["x"]);
    steps := PublishedAndRecovered(s, steps, k, {} + {SECOND}, [] + ["x"]);
  }

  // ------------------------------------------------------------ outputs that repeat within one state

  const THIRD: Coord := Coord(0, 2)

  /** A state of epoch 1 with these deliveries in flight, by their attempt. */
  function State(inflight: map<Coord, Inflight>, attempts: map<Coord, nat>, acked: map<nat, set<nat>>, safe: map<nat,
                 nat>,
                 fetch: nat): Group {
    Group(1, {0}, inflight, attempts, acked, safe, map[], map[0 := fetch])
  }

  function Flight(attempt: nat): Inflight {
    Inflight(attempt, 1, 9)
  }

  /** The stream has three records. */
  function Long(committed: map<nat, nat>, base: map<nat, nat>, done: set<Coord>, live: Option<Group>): D.World {
    D.World({FIRST, SECOND, THIRD}, map[0 := 3], committed, base, done, {}, {}, live)
  }

  function LongSys(k: Key, committed: map<nat, nat>, done: set<Coord>, g: Group, visible: seq<Event>): Sys {
    One(map[], k, Long(committed, map[0 := 0], done, Some(g)), IDLE, SESSIONS, visible)
  }

  function LongEmpty(k: Key): Sys {
    One(map[], k, Long(map[], map[], {}, None), IDLE, map[], [])
  }

  lemma LongOpening(k: Key) returns (steps: seq<Step>)
    ensures Reached(LongEmpty(k), steps, LongSys(k, map[], {}, JOINED, [])) && RunRouted(LongEmpty(k), steps)
  {
    var s, w := LongEmpty(k), Long(map[], map[], {}, None);
    Start(s);
    var s1 := s.(sessions := map[0 := Session(false, false, false, {})]);
    Then(s, [], s, Opened(0, false), s1);
    Then(s, [] + [Opened(0, false)], s1, Opened(1, true), s1.(sessions := SESSIONS));
    steps := [] + [Opened(0, false)] + [Opened(1, true)];
    GroupStep(s, steps, map[], k, w, w.(live := Some(FRESH)), IDLE, SESSIONS, [], Joined(k));
    steps := steps + [Joined(k)];
    LongAssignment();
    GroupStep(s, steps, map[], k, w.(live := Some(FRESH)), Long(map[], map[0 := 0], {}, Some(JOINED)), IDLE, SESSIONS,
              [],
              Assigned(k, map[0 := 0]));
    steps := steps + [Assigned(k, map[0 := 0])];
  }

  lemma LongAssignment()
    ensures D.AssignedAt(Long(map[], map[], {}, Some(FRESH)), FRESH, map[0 := 0]) ==
        Long(map[], map[0 := 0], {}, Some(JOINED))
    ensures D.StartsAllowed(Long(map[], map[], {}, Some(FRESH)), map[0 := 0])
  {
    assert map[0 := 0].Keys == {0} && ConsumerGroup.Assigned(FRESH, map[0 := 0]) == JOINED;
    assert D.AssignedAt(Long(map[], map[], {}, Some(FRESH)), FRESH, map[0 := 0]).base == map[0 := 0];
  }

  /** The next message is that of the fetch position. */
  lemma Delivering(s: Sys, steps: seq<Step>, k: Key, committed: map<nat, nat>, done: set<Coord>, g: Group, g': Group,
                   visible: seq<Event>, c: Coord)
    requires Reached(s, steps, LongSys(k, committed, done, g, visible)) && RunRouted(s, steps)
    requires g.fetch == map[0 := c.offset] && c.partition == 0 && c.offset < 3
    requires Deliver(g, c, 0, 9, true, true, true) == g'
    ensures var all := steps + [Delivered(k, c, 0, 9, true, true, true)];
            Reached(s, all, LongSys(k, committed, done, g', visible)) && RunRouted(s, all)
  {
    var w := Long(committed, map[0 := 0], done, Some(g));
    GroupStep(s, steps, map[], k, w, w.(live := Some(g')), IDLE, SESSIONS, visible,
              Delivered(k, c, 0, 9, true, true, true));
  }

  const PLAIN: DeadLetterPolicy := DeadLetterPolicy(9, false)
  const WORKS: NackEnv := NackEnv(true, true, true, true, true)

  /** A delivery is released and the client goes back to it. */
  lemma Releasing(s: Sys, steps: seq<Step>, k: Key, committed: map<nat, nat>, done: set<Coord>, g: Group, g': Group,
                  visible: seq<Event>, t: Token)
    requires Reached(s, steps, LongSys(k, committed, done, g, visible)) && RunRouted(s, steps)
    requires Resolvable(g, t) && t.attempt < 9 && Released(g, t.coord) == g'
    ensures var all := steps + [NegativelyAcknowledged(0, k, t, PLAIN, 0, 0, WORKS)];
            Reached(s, all, LongSys(k, committed, done, g', visible)) && RunRouted(s, all)
  {
    var w := Long(committed, map[0 := 0], done, Some(g));
    assert NackOutcome(g, t, PLAIN, 0, WORKS) == Scheduled && Nack(g, t, PLAIN, 0, 0, WORKS) == g';
    GroupStep(s, steps, map[], k, w, w.(live := Some(g')), IDLE, SESSIONS, visible,
              NegativelyAcknowledged(0, k, t, PLAIN, 0, 0, WORKS));
  }

  /** A direct acknowledgement. */
  lemma Acking(s: Sys, steps: seq<Step>, k: Key, committed: map<nat, nat>, committed': map<nat, nat>, done: set<Coord>,
               done': set<Coord>, g: Group, g': Group, visible: seq<Event>, t: Token)
    requires Reached(s, steps, LongSys(k, committed, done, g, visible)) && RunRouted(s, steps)
    requires Current(g, t) && Ack(g, t, true) == g' && done' == done + {t.coord}
    requires committed' == if Advances(g, t.coord) then committed[t.coord.partition := Drained(g, t.coord).0]
                           else committed
    ensures var all := steps + [Acknowledged(0, k, t, true)];
            Reached(s, all, LongSys(k, committed', done', g', visible)) && RunRouted(s, all)
  {
    var w, w' := Long(committed, map[0 := 0], done, Some(g)), Long(committed', map[0 := 0], done', Some(g'));
    assert D.DirectAck(w, g, t, true) == w';
    NoSessionActive(k);
    GroupStep(s, steps, map[], k, w, w', IDLE, SESSIONS, visible, Acknowledged(0, k, t, true));
  }

  /** A consume-publish of its own that works. */
  lemma Publishing(s: Sys, steps: seq<Step>, k: Key, committed: map<nat, nat>, committed': map<nat, nat>,
                   done: set<Coord>,
                   done': set<Coord>, g: Group, g': Group, visible: seq<Event>, t: Token)
    requires Reached(s, steps, LongSys(k, committed, done, g, visible)) && RunRouted(s, steps)
    requires Current(g, t) && Ack(g, t, true) == g' && done' == done + {t.coord}
    requires committed' == if Advances(g, t.coord) then committed[t.coord.partition := Drained(g, t.coord).0]
                           else committed
    ensures var all := steps + [ConsumedAndPublished(0, k, t, ["x"], PUBLISHES)];
            Reached(s, all, LongSys(k, committed', done', g', visible + ["x"])) && RunRouted(s, all)
  {
    var w, w' := Long(committed, map[0 := 0], done, Some(g)), Long(committed', map[0 := 0], done', Some(g'));
    PublishingStep(k, w, w', g, t, visible);
    Then(s, steps, One(map[], k, w, IDLE, SESSIONS, visible), ConsumedAndPublished(0, k, t, ["x"], PUBLISHES),
         One(map[], k, w', IDLE, SESSIONS, visible + ["x"]));
  }

  lemma PublishingStep(k: Key, w: D.World, w': D.World, g: Group, t: Token, visible: seq<Event>)
    requires w.live == Some(g) && w.pending == {} && Current(g, t)
    requires w' == w.(live := Some(Ack(g, t, true)), done := w.done + {t.coord},
                      committed := if Advances(g, t.coord) then w.committed[t.coord.partition := Drained(g, t.coord).0]
                                   else w.committed)
    ensures var mid, step := One(map[], k, w, IDLE, SESSIONS, visible), ConsumedAndPublished(0, k, t, ["x"], PUBLISHES);
            Next(mid, step) == One(map[], k, w', IDLE, SESSIONS, visible + ["x"]) && Routed(mid, step)
  {
    var mid := One(map[], k, w, IDLE, SESSIONS, visible);
    AttemptStep(k, w, t, ["x"], PUBLISHES, visible);
    PublishedWorld(k, w, w', g, t);
    var a := Sys(map[k := D.TxAck(w, g, t, true)], Bridged(OPEN, k, g, t), Holding(k), visible, ["x"]);
    PublishedSys(k, a, w', visible);
    OwnStep(mid, k, t, a);
  }

  lemma OwnStep(mid: Sys, k: Key, t: Token, a: Sys)
    requires CanExecute(mid, 0) && OpensOwn(mid, 0, PUBLISHES) && AttemptOk(mid, 0, k, t, ["x"], PUBLISHES)
    requires Attempted(mid, 0, k, t, ["x"], PUBLISHES) == a && 0 in a.sessions
    ensures Next(mid, ConsumedAndPublished(0, k, t, ["x"], PUBLISHES)) == Untouch(CommitTx(a), 0)
  {
  }

  lemma PublishedWorld(k: Key, w: D.World, w': D.World, g: Group, t: Token)
    requires w.live == Some(g) && w.pending == {} && Current(g, t)
    requires w' == w.(live := Some(Ack(g, t, true)), done := w.done + {t.coord},
                      committed := if Advances(g, t.coord) then w.committed[t.coord.partition := Drained(g, t.coord).0]
                                   else w.committed)
    ensures D.TxCommitted(D.TxAck(w, g, t, true), StagedFor(Bridged(OPEN, k, g, t), k)) == w'
  {
    var staged := StagedFor(Bridged(OPEN, k, g, t), k);
    assert staged == if Advances(g, t.coord) then map[t.coord.partition := Drained(g, t.coord).0] else map[];
    assert w.committed + staged == w'.committed && {} + {t.coord} == {t.coord};
  }

  lemma PublishedSys(k: Key, a: Sys, w': D.World, visible: seq<Event>)
    requires k in a.worlds && a.worlds.Keys == {k} && a.sessions == Holding(k) && a.visible == visible
    requires a.buffered == ["x"]
    requires a.bridge.active && D.TxCommitted(a.worlds[k], StagedFor(a.bridge, k)) == w'
    ensures Untouch(CommitTx(a), 0) == One(map[], k, w', IDLE, SESSIONS, visible + ["x"])
  {
    assert Holding(k)[0 := Session(false, false, false, {})] == SESSIONS;
    assert CommitAll(a.worlds, a.bridge) == map[k := w'];
  }

  // The states of the run.
  const S1: Group := State(map[FIRST := Flight(1)], map[FIRST := 1], map[], map[0 := 0], 1)
  const S2: Group := State(map[FIRST := Flight(1), SECOND := Flight(1)], map[FIRST := 1, SECOND := 1], map[],
                           map[0 := 0], 2)
  const S3: Group := State(map[FIRST := Flight(1)], map[FIRST := 1], map[0 := {1}], map[0 := 0], 2)
  const S4: Group := State(map[], map[FIRST := 1], map[0 := {1}], map[0 := 0], 0)
  const S5: Group := State(map[FIRST := Flight(2)], map[FIRST := 2], map[0 := {1}], map[0 := 0], 1)
  const S6: Group :=
    State(map[FIRST := Flight(2), SECOND := Flight(1)], map[FIRST := 2, SECOND := 1], map[0 := {1}], map[0 := 0], 2)
  const S7: Group := State(map[SECOND := Flight(1)], map[SECOND := 1], map[0 := {}], map[0 := 2], 2)
  const S8: Group :=
    State(map[SECOND := Flight(1), THIRD := Flight(1)], map[SECOND := 1, THIRD := 1], map[0 := {}], map[0 := 2], 3)
  const S9: Group := State(map[SECOND := Flight(1)], map[SECOND := 1], map[0 := {}], map[0 := 3], 3)
  const S10: Group := State(map[], map[SECOND := 1], map[0 := {}], map[0 := 3], 1)
  const S11: Group := State(map[SECOND := Flight(2)], map[SECOND := 2], map[0 := {}], map[0 := 3], 2)
  const S12: Group :=
    State(map[SECOND := Flight(2), THIRD := Flight(1)], map[SECOND := 2, THIRD := 1], map[0 := {}], map[0 := 3], 3)
  const S13: Group := State(map[SECOND := Flight(2)], map[SECOND := 2], map[0 := {2}], map[0 := 3], 3)

  lemma FirstStates()
    ensures Deliver(JOINED, FIRST, 0, 9, true, true, true) == S1 && Deliver(S1, SECOND, 0, 9, true, true, true) == S2
    ensures Deliver(S4, FIRST, 0, 9, true, true, true) == S5 && Deliver(S5, SECOND, 0, 9, true, true, true) == S6
    ensures Released(S3, FIRST) == S4
  {
    assert Deliver(JOINED, FIRST, 0, 9, true, true, true).inflight == S1.inflight;
    var g2 := Deliver(S1, SECOND, 0, 9, true, true, true);
    assert g2.inflight == S2.inflight && g2.attempts == S2.attempts && g2.safe == S2.safe && g2.fetch == S2.fetch;
    var g4 := Released(S3, FIRST);
    assert g4.inflight == S4.inflight && g4.fetch == S4.fetch;
    var g5 := Deliver(S4, FIRST, 0, 9, true, true, true);
    assert g5.inflight == S5.inflight && g5.attempts == S5.attempts && g5.safe == S5.safe && g5.fetch == S5.fetch;
    var g6 := Deliver(S5, SECOND, 0, 9, true, true, true);
    assert g6.inflight == S6.inflight && g6.attempts == S6.attempts && g6.safe == S6.safe && g6.fetch == S6.fetch;
  }

  lemma LaterStates()
    ensures Deliver(S7, THIRD, 0, 9, true, true, true) == S8 && Released(S9, SECOND) == S10
    ensures Deliver(S10, SECOND, 0, 9, true, true, true) == S11 && Deliver(S11, THIRD, 0, 9, true, true, true) == S12
  {
    var g8 := Deliver(S7, THIRD, 0, 9, true, true, true);
    assert g8.inflight == S8.inflight && g8.attempts == S8.attempts && g8.safe == S8.safe && g8.fetch == S8.fetch;
    var g10 := Released(S9, SECOND);
    assert g10.inflight == S10.inflight && g10.fetch == S10.fetch;
    var g11 := Deliver(S10, SECOND, 0, 9, true, true, true);
    assert g11.inflight == S11.inflight && g11.attempts == S11.attempts && g11.safe == S11.safe
    && g11.fetch == S11.fetch;
    var g12 := Deliver(S11, THIRD, 0, 9, true, true, true);
    assert g12.inflight == S12.inflight && g12.attempts == S12.attempts && g12.safe == S12.safe
    && g12.fetch == S12.fetch;
  }

  lemma FirstAcks()
    ensures Current(S2, TOKEN_2) && !Advances(S2, SECOND) && Ack(S2, TOKEN_2, true) == S3
    ensures var t := Token(FIRST, 1, 2);
            Current(S6, t) && Advances(S6, FIRST) && Drained(S6, FIRST).0 == 2 && Ack(S6, t, true) == S7
  {
    assert Drain(0, {} + {1}) == (0, {1}) by { assert {} + {1} == {1}; }
    var g3 := Ack(S2, TOKEN_2, true);
    assert g3.inflight == S3.inflight && g3.attempts == S3.attempts && g3.acked == S3.acked && g3.safe == S3.safe;
    DrainMeaning(0, {1} + {0});
    assert 0 in {1} + {0} && 1 in {1} + {0};
    assert Drained(S6, FIRST).1 == {};
    var g7 := Ack(S6, Token(FIRST, 1, 2), true);
    assert g7.inflight == S7.inflight && g7.attempts == S7.attempts && g7.acked == S7.acked && g7.safe == S7.safe;
  }

  lemma LaterAcks()
    ensures var t := Token(THIRD, 1, 1);
            && Current(S8, t) && Advances(S8, THIRD) && Drained(S8, THIRD).0 == 3 && Ack(S8, t, true) == S9
            && Current(S12, t) && !Advances(S12, THIRD) && Ack(S12, t, true) == S13
  {
    var t := Token(THIRD, 1, 1);
    DrainMeaning(2, {} + {2});
    assert 2 in {} + {2} && Drained(S8, THIRD).1 == {};
    var g9 := Ack(S8, t, true);
    assert g9.inflight == S9.inflight && g9.attempts == S9.attempts && g9.acked == S9.acked && g9.safe == S9.safe;
    assert {} + {2} == {2} && Drain(3, {2}) == (3, {2});
    var g13 := Ack(S12, t, true);
    assert g13.inflight == S13.inflight && g13.attempts == S13.attempts && g13.acked == S13.acked
    && g13.safe == S13.safe;
  }

  /** Records 0 and 1 are committed, and a second delivery of record 1 is in flight. */
  lemma CommittedPastFlight(k: Key) returns (steps: seq<Step>)
    ensures Reached(LongEmpty(k), steps, LongSys(k, map[0 := 2], {SECOND, FIRST}, S7, []))
    ensures RunRouted(LongEmpty(k), steps)
  {
    var s := LongEmpty(k);
    steps := LongOpening(k);
    FirstStates();
    FirstAcks();
    assert {} + {SECOND} == {SECOND} && {SECOND} + {FIRST} == {SECOND, FIRST};
    Delivering(s, steps, k, map[], {}, JOINED, S1, [], FIRST);
    steps := steps + [Delivered(k, FIRST, 0, 9, true, true, true)];
    Delivering(s, steps, k, map[], {}, S1, S2, [], SECOND);
    steps := steps + [Delivered(k, SECOND, 0, 9, true, true, true)];
    Acking(s, steps, k, map[], map[], {}, {SECOND}, S2, S3, [], TOKEN_2);
    steps := steps + [Acknowledged(0, k, TOKEN_2, true)];
    Releasing(s, steps, k, map[], {SECOND}, S3, S4, [], TOKEN_1);
    steps := steps + [NegativelyAcknowledged(0, k, TOKEN_1, PLAIN, 0, 0, WORKS)];
    Delivering(s, steps, k, map[], {SECOND}, S4, S5, [], FIRST);
    steps := steps + [Delivered(k, FIRST, 0, 9, true, true, true)];
    Delivering(s, steps, k, map[], {SECOND}, S5, S6, [], SECOND);
    steps := steps + [Delivered(k, SECOND, 0, 9, true, true, true)];
    Acking(s, steps, k, map[], map[0 := 2], {SECOND}, {SECOND, FIRST}, S6, S7, [], Token(FIRST, 1, 2));
    steps := steps + [Acknowledged(0, k, Token(FIRST, 1, 2), true)];
  }

  /** A consume-publish of record 2 commits offset 3 and shows its output. Then the delivery of record 1 is released,
      the client goes back, and the same state publishes the output of record 2 again. */
  lemma OutputsCanRepeatInPlace(k: Key) returns (steps: seq<Step>)
    ensures Init(LongEmpty(k)) && RunAllowed(LongEmpty(k), steps) && RunRouted(LongEmpty(k), steps)
    ensures Run(LongEmpty(k), steps).visible == [] + ["x"] + ["x"]
  {
    var s, t, all := LongEmpty(k), Token(THIRD, 1, 1), {SECOND, FIRST, THIRD};
    var step := ConsumedAndPublished(0, k, t, ["x"], PUBLISHES);
    steps := CommittedPastFlight(k);
    LaterStates();
    LaterAcks();
    assert {SECOND, FIRST} + {THIRD} == all && all + {THIRD} == all;
    Delivering(s, steps, k, map[0 := 2], {SECOND, FIRST}, S7, S8, [], THIRD);
    steps := steps + [Delivered(k, THIRD, 0, 9, true, true, true)];
    assert map[0 := 2][0 := 3] == map[0 := 3];
    Publishing(s, steps, k, map[0 := 2], map[0 := 3], {SECOND, FIRST}, all, S8, S9, [], t);
    steps := steps + [step];
    Releasing(s, steps, k, map[0 := 3], all, S9, S10, [] + ["x"], TOKEN_2);
    steps := steps + [NegativelyAcknowledged(0, k, TOKEN_2, PLAIN, 0, 0, WORKS)];
    Delivering(s, steps, k, map[0 := 3], all, S10, S11, [] + ["x"], SECOND);
    steps := steps + [Delivered(k, SECOND, 0, 9, true, true, true)];
    Delivering(s, steps, k, map[0 := 3], all, S11, S12, [] + ["x"], THIRD);
    steps := steps + [Delivered(k, THIRD, 0, 9, true, true, true)];
    Publishing(s, steps, k, map[0 := 3], map[0 := 3], all, all, S12, S13, [] + ["x"], t);
    steps := steps + [step];
  }

  // ------------------------------------------------------------ a partition that is blocked

  /** The safe position of a partition that was revoked. */
  const KEPT: Group := Group(2, {}, map[], map[], map[], map[0 := 0], map[], map[])
  const BLOCKED: Group := Group(3, {0}, map[], map[], map[], map[0 := 0], map[], map[0 := 2])

  /** The partition is revoked after its first message, another member commits both records, and the partition comes
      back: the state starts at 2 with its safe position at 0, and stays there. */
  lemma PartitionCanBlock(k: Key) returns (steps: seq<Step>)
    ensures Init(Empty(map[], k)) && RunAllowed(Empty(map[], k), steps) && RunRouted(Empty(map[], k), steps)
    ensures Live(Run(Empty(map[], k), steps), k) == Some(BLOCKED) && Stuck(BLOCKED, 0, 2)
  {
    var s, both := Empty(map[], k), {FIRST, SECOND};
    steps := Opening(map[], k);
    steps := Assigning(s, steps, map[], k, map[], {}, {}, IDLE, SESSIONS, []);
    var w1, w2 := World(map[], map[0 := 0], {}, {}, Some(JOINED)), World(map[], map[0 := 0], {}, {}, Some(ONE));
    Deliveries();
    GroupStep(s, steps, map[], k, w1, w2, IDLE, SESSIONS, [], Delivered(k, FIRST, 0, 9, true, true, true));
    steps := steps + [Delivered(k, FIRST, 0, 9, true, true, true)];
    var w3, w4 := World(map[], map[0 := 0], {}, {}, Some(KEPT)), World(map[0 := 2], map[0 := 0], both, {}, Some(KEPT));
    TakenOver(k);
    GroupStep(s, steps, map[], k, w2, w3, IDLE, SESSIONS, [], Revoked(k, {0}));
    steps := steps + [Revoked(k, {0})];
    GroupStep(s, steps, map[], k, w3, w4, IDLE, SESSIONS, [], PeerCommitted(k, 0, 0, 2, both));
    steps := steps + [PeerCommitted(k, 0, 0, 2, both)];
    GroupStep(s, steps, map[], k, w4, w4.(live := Some(BLOCKED)), IDLE, SESSIONS, [], Assigned(k, map[0 := 2]));
    steps := steps + [Assigned(k, map[0 := 2])];
  }

  lemma TakenOver(k: Key)
    ensures ConsumerGroup.Revoked(ONE, {0}) == KEPT && ConsumerGroup.Assigned(KEPT, map[0 := 2]) == BLOCKED
    ensures var w, both := World(map[], map[0 := 0], {}, {}, Some(KEPT)), {FIRST, SECOND};
            && D.Peer(w, 0, 0, 2, both) == World(map[0 := 2], map[0 := 0], both, {}, Some(KEPT))
            && D.PeerAllowed(w, 0, 0, 2, both)
            && D.AssignedAt(D.Peer(w, 0, 0, 2, both), KEPT, map[0 := 2]) ==
               World(map[0 := 2], map[0 := 0], both, {}, Some(BLOCKED))
    ensures Stuck(BLOCKED, 0, 2)
  {
    var w, both := World(map[], map[0 := 0], {}, {}, Some(KEPT)), {FIRST, SECOND};
    assert {} + both == both && map[0 := 2].Keys == {0};
    assert ConsumerGroup.Revoked(ONE, {0}).inflight == map[] && ConsumerGroup.Revoked(ONE, {0}).attempts == map[];
    var w' := D.Peer(w, 0, 0, 2, both);
    assert forall o :: Coord(0, o) in w'.records ==> Coord(0, o) in both;
    assert D.AssignedAt(w', KEPT, map[0 := 2]).base == map[0 := 0];
  }
}
