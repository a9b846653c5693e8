/** Polling a group: an expiry pass, a resume pass and one client poll per round, up to the limit. */
module Polling {
  import opened Basics
  import opened ConsumerGroup
  import opened Transactions
  import opened Engine
  import opened Runtime
  import opened TokenLife

  datatype Callback = Assign(starts: map<nat, nat>) | Revoke(partitions: set<nat>)

  datatype Answer =
    Silence | EndOfPartition | ClientError | Message(c: Coord, expiresAt: int, decodable: bool, minted: bool,
                                                     seekOk: bool)

  /** One round as the client and the clocks present it; callbacks run inside the client poll. A seek raises for the
      partitions in `stuck`, a resume for those in `halted`. */
  datatype Round = Round(nowMs: int, clock: int, late: bool, stuck: set<nat>, halted: set<nat>,
                         callbacks: seq<Callback>,
                         answer: Answer)

  datatype PollResult = Deliveries(tokens: seq<Token>) | PollFailed

  // ------------------------------------------------------------ what a round does

  function CallbackOps(callbacks: seq<Callback>): seq<Op> {
    if callbacks == [] then []
    else
      var last := callbacks[|callbacks| - 1];
      CallbackOps(callbacks[..|callbacks| - 1]) +
      [CallbackOp(last)]
  }

  /** One operation for each callback, in order: an assignment for an assignment, a revoke for a revoke. */
  lemma {:induction false} CallbacksMeaning(callbacks: seq<Callback>, i: nat)
    requires i < |callbacks|
    ensures |CallbackOps(callbacks)| == |callbacks|
    ensures match callbacks[i]
            case Assign(starts) => CallbackOps(callbacks)[i] == OpAssigned(starts)
            case Revoke(partitions) => CallbackOps(callbacks)[i] == OpRevoked(partitions)
  {
    var n := |callbacks| - 1;
    if n > 0 { CallbacksMeaning(callbacks[..n], if i < n then i else 0); }
  }

  function AnswerOps(round: Round): seq<Op> {
    match round.answer
    case Message(c, expiresAt, decodable, minted, seekOk) =>
      [OpDeliver(c, round.clock, expiresAt, decodable, minted, seekOk)]
    case _ => []
  }

  /** The expiry pass rewinds to the least expired offsets, or to those before a seek raised. */
  ghost predicate Expires(g: Group, round: Round, rewound: map<nat, nat>) {
    exists whole :: LeastExpired(g, round.nowMs, whole) && PassedUpTo(whole, rewound, round.stuck)
  }

  ghost predicate PassedUpTo(whole: map<nat, nat>, rewound: map<nat, nat>, stuck: set<nat>) {
    && (forall p :: p in rewound ==> p in whole && rewound[p] == whole[p])
    && (rewound == whole || exists p :: p in stuck && p in whole && p !in rewound)
  }

  /** The resume pass reached every partition that was due. */
  ghost predicate ResumesAll(paused: map<nat, Paused>, round: Round, op: Op) {
    op == OpResume(DueAt(paused, round.clock), {})
  }

  /** What one round does to a group: an expiry pass, a resume pass and, if neither raised and there is time left, the
      callbacks and the answer of the client poll. */
  ghost predicate RoundRuns(g: Group, round: Round, waits: bool, part: seq<Op>) {
    && |part| >= 1 && part[0].OpRewind? && Expires(g, round, part[0].rewind)
    && (|part| == 1 ==> !LeastExpired(g, round.nowMs, part[0].rewind))
    && (|part| >= 2 ==>
          var paused, rest := Rewind(g, part[0].rewind).paused, CallbackOps(round.callbacks) + AnswerOps(round);
          && LeastExpired(g, round.nowMs, part[0].rewind)
          && part[1].OpResume? && ResumePass(paused, round.clock, round.stuck, round.halted, part[1].due,
                                             part[1].sought)
          && part[2..] == if ResumesAll(paused, round, part[1]) && !(waits && round.late) then rest else [])
  }

  /** Such an expiry pass is one that a runtime allows. */
  lemma RoundAllowed(g: Group, round: Round, waits: bool, part: seq<Op>)
    requires RoundRuns(g, round, waits, part)
    ensures ExpiryAllowed(g, part[0].rewind)
  {
    var whole :| LeastExpired(g, round.nowMs, whole) && PassedUpTo(whole, part[0].rewind, round.stuck);
  }

  /** After a round that got past its expiry pass, nothing that was in flight is expired at its time. */
  lemma RoundLeavesNoneExpired(g: Group, round: Round, waits: bool, part: seq<Op>)
    requires RoundRuns(g, round, waits, part) && |part| >= 2
    ensures forall c :: c in Rewind(g, part[0].rewind).inflight ==>
        !ExpiredAt(Rewind(g, part[0].rewind), round.nowMs, c)
  {
    ExpiryRewinds(g, round.nowMs, part[0].rewind);
  }

  /** The resume pass seeks and resumes only what is due, and if none of its calls raised, nothing rests any longer that
      is due. */
  lemma RoundLeavesNoneDue(g: Group, round: Round, waits: bool, part: seq<Op>)
    requires RoundRuns(g, round, waits, part) && |part| >= 2
    ensures var g' := Resume(Rewind(g, part[0].rewind), part[1].due, part[1].sought);
            && (forall p :: p in part[1].due || p in part[1].sought ==>
                  p in g.paused && g.paused[p].resumeAt <= round.clock
                  && p in g'.fetch && g'.fetch[p] == g.paused[p].offset)
            && (part[1].sought == {} && (forall p :: p in round.stuck || p in round.halted ==> p in part[1].due) ==>
                  forall p :: p in g'.paused ==> round.clock < g'.paused[p].resumeAt)
  {
  }

  // ------------------------------------------------------------ what a poll does

  function Flatten(parts: seq<seq<Op>>): seq<Op> {
    if parts == [] then [] else Flatten(parts[..|parts| - 1]) + parts[|parts| - 1]
  }

  /** Round after round, each from the state that the rounds before it have left. */
  ghost predicate Rounds(g: Group, rounds: seq<Round>, waits: bool, parts: seq<seq<Op>>) {
    && |parts| <= |rounds|
    && forall i {:trigger RoundAt(g, rounds, waits, parts, i)} :: 0 <= i < |parts| ==>
        RoundAt(g, rounds, waits, parts, i)
  }

  ghost predicate RoundAt(g: Group, rounds: seq<Round>, waits: bool, parts: seq<seq<Op>>, i: nat)
    requires i < |parts| <= |rounds|
  {
    RoundRuns(Exec(g, Flatten(parts[..i])), rounds[i], waits, parts[i])
  }

  /** The tokens that a run hands out, in order. */
  function HandedOut(g: Group, ops: seq<Op>): seq<Token> {
    if ops == [] then []
    else
      var rest := ops[..|ops| - 1];
      var last := Issues(Exec(g, rest), ops[|ops| - 1]);
      HandedOut(g, rest) + if last.Some? then [last.value] else []
  }

  lemma OneMore(g: Group, ops: seq<Op>, op: Op)
    ensures Exec(g, ops + [op]) == Apply(Exec(g, ops), op)
    ensures HandedOut(g, ops + [op]) ==
            HandedOut(g, ops) + if Issues(Exec(g, ops), op).Some? then [Issues(Exec(g, ops), op).value] else []
  {
    assert (ops + [op])[..|ops|] == ops;
  }

  lemma {:induction false} HandedSplit(g: Group, ops: seq<Op>, more: seq<Op>)
    ensures Exec(g, ops + more) == Exec(Exec(g, ops), more)
    ensures HandedOut(g, ops + more) == HandedOut(g, ops) + HandedOut(Exec(g, ops), more)
  {
    if more == [] {
      assert ops + more == ops;
    } else {
      var rest, last := more[..|more| - 1], more[|more| - 1];
      HandedSplit(g, ops, rest);
      OneMore(g, ops + rest, last);
      assert ops + more == ops + rest + [last];
    }
  }

  lemma RoundsMore(g: Group, rounds: seq<Round>, waits: bool, parts: seq<seq<Op>>, part: seq<Op>)
    requires Rounds(g, rounds, waits, parts) && |parts| < |rounds|
    requires RoundRuns(Exec(g, Flatten(parts)), rounds[|parts|], waits, part)
    ensures Rounds(g, rounds, waits, parts + [part]) && Flatten(parts + [part]) == Flatten(parts) + part
    ensures Exec(g, Flatten(parts + [part])) == Exec(Exec(g, Flatten(parts)), part)
    ensures HandedOut(g, Flatten(parts + [part])) ==
        HandedOut(g, Flatten(parts)) + HandedOut(Exec(g, Flatten(parts)), part)
  {
    var all := parts + [part];
    assert all[..|parts|] == parts;
    HandedSplit(g, Flatten(parts), part);
    forall i | 0 <= i < |all| ensures RoundAt(g, rounds, waits, all, i) {
      if i < |parts| {
        assert RoundAt(g, rounds, waits, parts, i);
        RoundSame(g, rounds, waits, parts, all, i);
      }
    }
  }

  lemma RoundSame(g: Group, rounds: seq<Round>, waits: bool, parts: seq<seq<Op>>, all: seq<seq<Op>>, i: nat)
    requires i < |parts| < |all| <= |rounds| && all[..|parts|] == parts && RoundAt(g, rounds, waits, parts, i)
    ensures RoundAt(g, rounds, waits, all, i)
  {
    assert all[..i] == parts[..i] && all[i] == parts[i];
  }

  function CallbackOp(callback: Callback): Op {
    if callback.Assign? then OpAssigned(callback.starts) else OpRevoked(callback.partitions)
  }

  lemma CallbackMore(g: Group, callbacks: seq<Callback>, i: nat)
    requires i < |callbacks| && HandedOut(g, CallbackOps(callbacks[..i])) == []
    ensures var ops := CallbackOps(callbacks[..i + 1]);
            && Exec(g, ops) == Apply(Exec(g, CallbackOps(callbacks[..i])), CallbackOp(callbacks[i]))
            && HandedOut(g, ops) == []
  {
    assert callbacks[..i + 1][..i] == callbacks[..i];
    OneMore(g, CallbackOps(callbacks[..i]), CallbackOp(callbacks[i]));
  }

  method RunCallbacks(state: GroupState, callbacks: seq<Callback>)
    modifies state
    ensures state.Value() == Exec(old(state.Value()), CallbackOps(callbacks))
    ensures HandedOut(old(state.Value()), CallbackOps(callbacks)) == []
  {
    ghost var g := state.Value();
    for i := 0 to |callbacks|
      invariant state.Value() == Exec(g, CallbackOps(callbacks[..i])) && HandedOut(g, CallbackOps(callbacks[..i])) == []
    {
      CallbackMore(g, callbacks, i);
      match callbacks[i] {
        case Assign(starts) => state.OnAssigned(starts);
        case Revoke(partitions) => state.OnRevoked(partitions);
      }
    }
    assert callbacks[..|callbacks|] == callbacks;
  }

  /** Expiry and resume at the head of a round; `ok` when neither raised. */
  method Prepare(state: GroupState, round: Round) returns (ok: bool, ghost part: seq<Op>)
    modifies state
    ensures var g := old(state.Value());
            && state.Value() == Exec(g, part) && HandedOut(g, part) == [] && 1 <= |part| <= 2
            && part[0].OpRewind? && Expires(g, round, part[0].rewind)
            && (|part| == 1 ==> !ok && !LeastExpired(g, round.nowMs, part[0].rewind))
            && (|part| == 2 ==>
                  var paused := Rewind(g, part[0].rewind).paused;
                  && LeastExpired(g, round.nowMs, part[0].rewind)
                  && part[1].OpResume? && ResumePass(paused, round.clock, round.stuck, round.halted, part[1].due,
                                                     part[1].sought)
                  && ok == ResumesAll(paused, round, part[1]))
  {
    ghost var g := state.Value();
    var whole, rewound := state.ExpireInflight(round.nowMs, round.stuck);
    part := [] + [OpRewind(rewound)];
    OneMore(g, [], OpRewind(rewound));
    assert PassedUpTo(whole, rewound, round.stuck);
    if rewound != whole {
      if LeastExpired(g, round.nowMs, rewound) { LeastExpiredUnique(g, round.nowMs, rewound, whole); }
      return false, part;
    }
    var due := DueAt(state.paused, round.clock);
    var resumed, sought := state.ResumeDue(round.clock, round.stuck, round.halted);
    OneMore(g, part, OpResume(resumed, sought));
    part := part + [OpResume(resumed, sought)];
    ok := resumed == due && sought == {};
  }

  // ------------------------------------------------------------ when a poll ends

  /** What a round means for the loop. */
  datatype Ending = Goes | Stops | Raises

  function AnswerEnds(g: Group, round: Round, waits: bool): Ending {
    match round.answer
    case Silence => if waits then Goes else Stops
    case EndOfPartition => Goes
    case ClientError => Raises
    case Message(c, _, decodable, minted, seekOk) =>
      var d := DeliverResult(g, c, round.clock, decodable, minted, seekOk);
      if d.Handed? || d.Deferred? then Goes else Raises
  }

  /** A round raises if a client call of its passes or its poll does, or its message cannot be delivered. It stops the
      loop if there is no time left, or there is no message and nobody waits. */
  ghost function EndOf(g: Group, round: Round, waits: bool, part: seq<Op>): Ending
    requires RoundRuns(g, round, waits, part)
  {
    if |part| == 1 || !ResumesAll(Rewind(g, part[0].rewind).paused, round, part[1]) then Raises
    else if waits && round.late then Stops
    else AnswerEnds(Exec(g, part[..2] + CallbackOps(round.callbacks)), round, waits)
  }

  ghost function EndAt(g: Group, rounds: seq<Round>, waits: bool, parts: seq<seq<Op>>, i: nat): Ending
    requires i < |parts| <= |rounds| && RoundAt(g, rounds, waits, parts, i)
  {
    EndOf(Exec(g, Flatten(parts[..i])), rounds[i], waits, parts[i])
  }

  /** Every round but the last goes on with room for more; the last one ends in that way. */
  ghost predicate Loops(g: Group, rounds: seq<Round>, waits: bool, limit: nat, parts: seq<seq<Op>>, last: Ending) {
    && Rounds(g, rounds, waits, parts)
    && (parts == [] ==> last == Goes)
    && (forall i {:trigger RoundAt(g, rounds, waits, parts, i)} :: 0 <= i < |parts| ==>
          && RoundAt(g, rounds, waits, parts, i) && |HandedOut(g, Flatten(parts[..i]))| < limit
          && EndAt(g, rounds, waits, parts, i) == if i == |parts| - 1 then last else Goes)
  }

  lemma EndSame(g: Group, rounds: seq<Round>, waits: bool, parts: seq<seq<Op>>, all: seq<seq<Op>>, i: nat)
    requires i < |parts| < |all| <= |rounds| && all[..|parts|] == parts
    requires RoundAt(g, rounds, waits, parts, i) && RoundAt(g, rounds, waits, all, i)
    ensures all[..i] == parts[..i] && EndAt(g, rounds, waits, all, i) == EndAt(g, rounds, waits, parts, i)
  {
    assert all[..i] == parts[..i] && all[i] == parts[i];
  }

  lemma LoopsMore(g: Group, rounds: seq<Round>, waits: bool, limit: nat, parts: seq<seq<Op>>, part: seq<Op>,
                  last: Ending)
    requires Loops(g, rounds, waits, limit, parts, Goes) && |parts| < |rounds| && |HandedOut(g, Flatten(parts))| < limit
    requires RoundRuns(Exec(g, Flatten(parts)), rounds[|parts|], waits, part)
    requires EndOf(Exec(g, Flatten(parts)), rounds[|parts|], waits, part) == last
    ensures Loops(g, rounds, waits, limit, parts + [part], last)
  {
    var all := parts + [part];
    RoundsMore(g, rounds, waits, parts, part);
    forall i | 0 <= i < |all|
      ensures RoundAt(g, rounds, waits, all, i) && |HandedOut(g, Flatten(all[..i]))| < limit
      ensures EndAt(g, rounds, waits, all, i) == if i == |all| - 1 then last else Goes
    {
      assert RoundAt(g, rounds, waits, all, i);
      if i < |parts| {
        assert RoundAt(g, rounds, waits, parts, i);
        EndSame(g, rounds, waits, parts, all, i);
      } else {
        assert all[..i] == parts;
      }
    }
  }

  // ------------------------------------------------------------ what that means for the caller

  /** A client call of the expiry or the resume pass raised. */
  ghost predicate PassRaised(g: Group, round: Round, part: seq<Op>) {
    part == [] || !part[0].OpRewind? || !LeastExpired(g, round.nowMs, part[0].rewind)
    || |part| == 1 || part[1] != OpResume(DueAt(Rewind(g, part[0].rewind).paused, round.clock), {})
  }

  /** The round polled the client. */
  ghost predicate Polled(g: Group, round: Round, waits: bool, part: seq<Op>) {
    !PassRaised(g, round, part) && (waits ==> !round.late)
  }

  /** The state in which the answer of the client finds the group. */
  function AtAnswer(g: Group, round: Round, part: seq<Op>): Group
    requires |part| >= 2
  {
    Exec(g, part[..2] + CallbackOps(round.callbacks))
  }

  /** The partition rests at the record until a later time. */
  predicate Resting(g: Group, c: Coord, clock: int) {
    c.partition in g.paused && g.paused[c.partition].offset == c.offset && clock < g.paused[c.partition].resumeAt
  }

  /** The client answers with an error or with a message that cannot be delivered: it is held back and the seek raises,
      or it is not held back and cannot be decoded or given a token. */
  predicate AnswerRaised(g: Group, round: Round) {
    || round.answer.ClientError?
    || (round.answer.Message? && var m := round.answer;
          if Resting(g, m.c, round.clock) then !m.seekOk else !m.decodable || !m.minted)
  }

  /** A call of the round raised. */
  ghost predicate Raised(g: Group, round: Round, waits: bool, part: seq<Op>) {
    PassRaised(g, round, part) || (Polled(g, round, waits, part) && AnswerRaised(AtAnswer(g, round, part), round))
  }

  /** Time is up, or the client had nothing and nobody waits. */
  predicate Ended(round: Round, waits: bool) {
    if waits then round.late else round.answer.Silence?
  }

  lemma EndMeaning(g: Group, round: Round, waits: bool, part: seq<Op>)
    requires RoundRuns(g, round, waits, part)
    ensures EndOf(g, round, waits, part) == Raises <==> Raised(g, round, waits, part)
    ensures EndOf(g, round, waits, part) == Stops <==> !Raised(g, round, waits, part) && Ended(round, waits)
  {
    if |part| == 1 {
      assert PassRaised(g, round, part);
    } else {
      assert PassRaised(g, round, part) <==> !ResumesAll(Rewind(g, part[0].rewind).paused, round, part[1]);
    }
  }

  /** A round hands out a delivery iff it polled the client, the answer is a message, and that neither raises nor is
      held back; it is then a delivery of that message. */
  lemma RoundHandsIff(g: Group, round: Round, waits: bool, part: seq<Op>)
    requires RoundRuns(g, round, waits, part)
    ensures HandedOut(g, part) ==
            if Polled(g, round, waits, part) && Hands(AtAnswer(g, round, part), round)
            then [TokenOf(AtAnswer(g, round, part), round)] else []
    ensures Polled(g, round, waits, part) && Hands(AtAnswer(g, round, part), round) ==>
              InFlightUntil(Exec(g, part), TokenOf(AtAnswer(g, round, part), round), round.answer.expiresAt)
  {
    if Polled(g, round, waits, part) {
      PolledRound(g, round, waits, part, AtAnswer(g, round, part));
    } else {
      UnpolledHands(g, round, waits, part);
    }
  }

  lemma PolledRound(g: Group, round: Round, waits: bool, part: seq<Op>, h: Group)
    requires RoundRuns(g, round, waits, part) && Polled(g, round, waits, part) && h == AtAnswer(g, round, part)
    ensures HandedOut(g, part) ==
            if Hands(h, round) then [TokenOf(h, round)] else []
    ensures Hands(h, round) ==> InFlightUntil(Exec(g, part), TokenOf(h, round), round.answer.expiresAt)
  {
    RoundShape(g, round, waits, part);
    PassesHandNothing(g, part[..2]);
    PolledHands(g, round, part[..2], h, part);
  }

  lemma UnpolledHands(g: Group, round: Round, waits: bool, part: seq<Op>)
    requires RoundRuns(g, round, waits, part) && !Polled(g, round, waits, part)
    ensures HandedOut(g, part) == []
  {
    RoundShape(g, round, waits, part);
    if |part| == 1 { OneOp(g, part[0]); } else { PassesHandNothing(g, part[..2]); }
  }

  lemma RoundShape(g: Group, round: Round, waits: bool, part: seq<Op>)
    requires RoundRuns(g, round, waits, part)
    ensures |part| == 1 ==> !Polled(g, round, waits, part) && part == [part[0]] && part[0].OpRewind?
    ensures |part| >= 2 ==>
              && part[..2][0].OpRewind? && part[..2][1].OpResume?
              && part == if Polled(g, round, waits, part)
                         then part[..2] + (CallbackOps(round.callbacks) + AnswerOps(round)) else part[..2]
  {
    if |part| >= 2 { assert part == part[..2] + part[2..]; }
  }

  /** The delivery of the token is in flight, and expires at that time. */
  predicate InFlightUntil(g: Group, t: Token, expiresAt: int) {
    t.coord in g.inflight && g.inflight[t.coord] == Inflight(t.attempt, t.epoch, expiresAt)
  }

  /** The answer is a message that neither raises nor is held back. */
  predicate Hands(h: Group, round: Round) {
    round.answer.Message? && !AnswerRaised(h, round) && !Resting(h, round.answer.c, round.clock)
  }

  /** The next attempt at the message of the round. */
  function TokenOf(h: Group, round: Round): Token
    requires round.answer.Message?
  {
    Token(round.answer.c, h.epoch, Attempts(h, round.answer.c) + 1)
  }

  lemma AnswerHands(h: Group, round: Round)
    ensures HandedOut(h, AnswerOps(round)) ==
            if Hands(h, round) then [TokenOf(h, round)] else []
    ensures Hands(h, round) ==>
              InFlightUntil(Exec(h, AnswerOps(round)), TokenOf(h, round), round.answer.expiresAt)
  {
    if round.answer.Message? { OneOp(h, AnswerOps(round)[0]); }
  }

  lemma PolledHands(g: Group, round: Round, head: seq<Op>, h: Group, part: seq<Op>)
    requires HandedOut(g, head) == [] && h == Exec(g, head + CallbackOps(round.callbacks))
    requires part == head + (CallbackOps(round.callbacks) + AnswerOps(round))
    ensures HandedOut(g, part) ==
            if Hands(h, round) then [TokenOf(h, round)] else []
    ensures Hands(h, round) ==> InFlightUntil(Exec(g, part), TokenOf(h, round), round.answer.expiresAt)
  {
    CallbacksHandNothing(Exec(g, head), round.callbacks);
    Reassociate(head, CallbackOps(round.callbacks), AnswerOps(round));
    LastPart(g, head, CallbackOps(round.callbacks), head + CallbackOps(round.callbacks), AnswerOps(round), part);
    AnswerHands(h, round);
  }

  /** Where only the last part of a run can hand out anything. */
  lemma LastPart(g: Group, head: seq<Op>, mid: seq<Op>, both: seq<Op>, tail: seq<Op>, part: seq<Op>)
    requires HandedOut(g, head) == [] && HandedOut(Exec(g, head), mid) == []
    requires both == head + mid && part == both + tail
    ensures HandedOut(g, part) == HandedOut(Exec(g, both), tail) && Exec(g, part) == Exec(Exec(g, both), tail)
  {
    NothingTwice(g, head, mid);
    NothingFirst(g, both, tail, part);
  }

  lemma Reassociate(head: seq<Op>, mid: seq<Op>, tail: seq<Op>)
    ensures head + (mid + tail) == (head + mid) + tail
  {
  }

  lemma NothingTwice(g: Group, head: seq<Op>, mid: seq<Op>)
    requires HandedOut(g, head) == [] && HandedOut(Exec(g, head), mid) == []
    ensures HandedOut(g, head + mid) == []
  {
    HandedSplit(g, head, mid);
  }

  lemma NothingFirst(g: Group, head: seq<Op>, tail: seq<Op>, part: seq<Op>)
    requires HandedOut(g, head) == [] && part == head + tail
    ensures HandedOut(g, part) == HandedOut(Exec(g, head), tail) && Exec(g, part) == Exec(Exec(g, head), tail)
  {
    HandedSplit(g, head, tail);
  }

  lemma PassesHandNothing(g: Group, head: seq<Op>)
    requires |head| == 2 && head[0].OpRewind? && head[1].OpResume?
    ensures HandedOut(g, head) == []
  {
    OneMore(g, [], head[0]);
    OneMore(g, [] + [head[0]], head[1]);
    assert head == [] + [head[0]] + [head[1]];
  }

  lemma {:induction false} CallbacksHandNothing(g: Group, callbacks: seq<Callback>)
    ensures HandedOut(g, CallbackOps(callbacks)) == []
  {
    if callbacks != [] {
      var n := |callbacks| - 1;
      CallbacksHandNothing(g, callbacks[..n]);
      OneMore(g, CallbackOps(callbacks[..n]), CallbackOp(callbacks[n]));
    }
  }

  ghost predicate RaisedAt(g: Group, rounds: seq<Round>, waits: bool, parts: seq<seq<Op>>, i: nat)
    requires i < |parts| <= |rounds|
  {
    Raised(Exec(g, Flatten(parts[..i])), rounds[i], waits, parts[i])
  }

  /** No round before the last one raised or had a reason to stop. */
  ghost predicate WentOn(g: Group, rounds: seq<Round>, waits: bool, parts: seq<seq<Op>>)
    requires |parts| <= |rounds|
  {
    forall i {:trigger RaisedAt(g, rounds, waits, parts, i)} :: 0 <= i < |parts| - 1 ==>
        !RaisedAt(g, rounds, waits, parts, i) && !Ended(rounds[i], waits)
  }

  /** Round after round, each with room for more, and none but the last raised or had a reason to stop. */
  ghost predicate PollRun(g: Group, rounds: seq<Round>, waits: bool, limit: nat, parts: seq<seq<Op>>) {
    && Rounds(g, rounds, waits, parts) && WentOn(g, rounds, waits, parts)
    && forall i :: 0 <= i < |parts| ==> |HandedOut(g, Flatten(parts[..i]))| < limit
  }

  lemma LoopMeaning(g: Group, rounds: seq<Round>, waits: bool, limit: nat, parts: seq<seq<Op>>, last: Ending)
    requires Loops(g, rounds, waits, limit, parts, last)
    ensures PollRun(g, rounds, waits, limit, parts)
    ensures parts != [] ==>
              var n := |parts| - 1;
              && (last == Raises <==> RaisedAt(g, rounds, waits, parts, n))
              && (last == Stops <==> !RaisedAt(g, rounds, waits, parts, n) && Ended(rounds[n], waits))
  {
    forall i | 0 <= i < |parts|
      ensures EndAt(g, rounds, waits, parts, i) == Raises <==> RaisedAt(g, rounds, waits, parts, i)
      ensures EndAt(g, rounds, waits, parts, i) == Stops <==>
              !RaisedAt(g, rounds, waits, parts, i) && Ended(rounds[i], waits)
      ensures RoundAt(g, rounds, waits, parts, i)
    {
      assert RoundAt(g, rounds, waits, parts, i);
      EndMeaning(Exec(g, Flatten(parts[..i])), rounds[i], waits, parts[i]);
    }
    forall i | 0 <= i < |parts| ensures |HandedOut(g, Flatten(parts[..i]))| < limit {
      assert RoundAt(g, rounds, waits, parts, i);
    }
  }

  /** The answer of the client poll. */
  method Take(state: GroupState, round: Round, waits: bool) returns (token: Option<Token>, ending: Ending)
    modifies state
    ensures var g := old(state.Value());
            && state.Value() == Exec(g, AnswerOps(round)) && ending == AnswerEnds(g, round, waits)
            && HandedOut(g, AnswerOps(round)) == if token.Some? then [token.value] else []
  {
    token := None;
    match round.answer {
      case Silence => ending := if waits then Goes else Stops;
      case EndOfPartition => ending := Goes;
      case ClientError => ending := Raises;
      case Message(c, expiresAt, decodable, minted, seekOk) =>
        ghost var g := state.Value();
        var d := state.Deliver(c, round.clock, expiresAt, decodable, minted, seekOk);
        OneOp(g, OpDeliver(c, round.clock, expiresAt, decodable, minted, seekOk));
        token := if d.Handed? then Some(d.token) else None;
        ending := if d.Handed? || d.Deferred? then Goes else Raises;
    }
  }

  lemma OneOp(g: Group, op: Op)
    ensures Exec(g, [op]) == Apply(g, op)
    ensures HandedOut(g, [op]) == if Issues(g, op).Some? then [Issues(g, op).value] else []
  {
    OneMore(g, [], op);
    assert [] + [op] == [op];
  }

  /** One round: what it hands out, and what that means for the loop. */
  method RunRound(state: GroupState, round: Round, waits: bool)
      returns (token: Option<Token>, ending: Ending, ghost part: seq<Op>)
    modifies state
    ensures var g := old(state.Value());
            && RoundRuns(g, round, waits, part) && state.Value() == Exec(g, part)
            && ending == EndOf(g, round, waits, part)
            && HandedOut(g, part) == if token.Some? then [token.value] else []
  {
    ghost var g := state.Value();
    var ok;
    ok, part := Prepare(state, round);
    if !ok || (waits && round.late) { return None, if ok then Stops else Raises, part; }
    ghost var head, tail := part, CallbackOps(round.callbacks) + AnswerOps(round);
    ghost var mid := state.Value();
    RunCallbacks(state, round.callbacks);
    HandedSplit(g, head, CallbackOps(round.callbacks));
    token, ending := Take(state, round, waits);
    HandedSplit(mid, CallbackOps(round.callbacks), AnswerOps(round));
    HandedSplit(g, head, tail);
    part := head + tail;
    assert part[2..] == tail && part[..2] == head;
  }

  /** The call fails iff a call of its last round raised, and else returns exactly what was handed out, which is at most
      the limit, and less only after a round that ended the loop or the last of the rounds. */
  ghost predicate PollOutcome(g: Group, rounds: seq<Round>, waits: bool, limit: nat, parts: seq<seq<Op>>, r: PollResult)
    requires |parts| <= |rounds|
  {
    var handed := HandedOut(g, Flatten(parts));
    && |handed| <= limit
    && (r == PollFailed <==> parts != [] && RaisedAt(g, rounds, waits, parts, |parts| - 1))
    && (r.Deliveries? ==> r.tokens == handed)
    && (r.Deliveries? && |handed| < limit && |parts| < |rounds| ==>
          parts != [] && Ended(rounds[|parts| - 1], waits))
  }

  lemma PollMeaning(g: Group, rounds: seq<Round>, waits: bool, limit: nat, parts: seq<seq<Op>>, ending: Ending,
                    tokens: seq<Token>, r: PollResult)
    requires Loops(g, rounds, waits, limit, parts, ending) && tokens == HandedOut(g, Flatten(parts))
    requires |tokens| <= limit && (ending == Goes ==> |tokens| == limit || |parts| == |rounds|)
    requires r == if ending == Raises then PollFailed else Deliveries(tokens)
    ensures PollRun(g, rounds, waits, limit, parts) && PollOutcome(g, rounds, waits, limit, parts, r)
  {
    LoopMeaning(g, rounds, waits, limit, parts, ending);
  }

  /** A poll is a run of rounds, each with room for more. It fails iff a call of its last round raised, and else returns
      exactly what was handed out. It goes on after every round that did not raise, unless time is up or the client had
      nothing and nobody waits; so it ends with such a round, at the limit, or when the rounds are used up. */
  method Poll(state: GroupState, limit: nat, waits: bool, rounds: seq<Round>)
      returns (r: PollResult, ghost parts: seq<seq<Op>>)
    modifies state
    ensures var g := old(state.Value());
            && PollRun(g, rounds, waits, limit, parts) && PollOutcome(g, rounds, waits, limit, parts, r)
            && state.Value() == Exec(g, Flatten(parts))
  {
    ghost var g := state.Value();
    parts := [];
    var tokens: seq<Token> := [];
    var i, ending := 0, Goes;
    while |tokens| < limit && i < |rounds| && ending == Goes
      invariant i == |parts| <= |rounds| && Loops(g, rounds, waits, limit, parts, ending)
      invariant state.Value() == Exec(g, Flatten(parts)) && tokens == HandedOut(g, Flatten(parts)) && |tokens| <= limit
      decreases |rounds| - i
    {
      var token;
      ghost var part;
      token, ending, part := RunRound(state, rounds[i], waits);
      RoundsMore(g, rounds, waits, parts, part);
      LoopsMore(g, rounds, waits, limit, parts, part, ending);
      parts := parts + [part];
      i := i + 1;
      if token.Some? { tokens := tokens + [token.value]; }
    }
    r := if ending == Raises then PollFailed else Deliveries(tokens);
    PollMeaning(g, rounds, waits, limit, parts, ending, tokens, r);
  }

  // ------------------------------------------------------------ polls as runs of the runtime

  /** What polling does to a group. */
  predicate PollOp(op: Op) {
    op.OpRewind? || op.OpResume? || op.OpAssigned? || op.OpRevoked? || op.OpDeliver?
  }

  function StepOf(k: Key, op: Op): Step
    requires PollOp(op)
  {
    match op
    case OpRewind(rewind) => Expired(k, rewind)
    case OpResume(due, sought) => Resumed(k, due, sought)
    case OpAssigned(starts) => Step.Assigned(k, starts)
    case OpRevoked(partitions) => Step.Revoked(k, partitions)
    case OpDeliver(c, clock, expiresAt, decodable, minted, seekOk) =>
      Step.Delivered(k, c, clock, expiresAt, decodable, minted, seekOk)
  }

  predicate AllPoll(ops: seq<Op>) {
    forall i :: 0 <= i < |ops| ==> PollOp(ops[i])
  }

  function StepsOf(k: Key, ops: seq<Op>): seq<Step>
    requires AllPoll(ops)
  {
    seq(|ops|, i requires 0 <= i < |ops| => StepOf(k, ops[i]))
  }

  lemma {:induction false} CallbacksPoll(callbacks: seq<Callback>)
    ensures AllPoll(CallbackOps(callbacks))
  {
    if callbacks != [] { CallbacksPoll(callbacks[..|callbacks| - 1]); }
  }

  lemma RoundPolls(g: Group, round: Round, waits: bool, part: seq<Op>)
    requires RoundRuns(g, round, waits, part)
    ensures AllPoll(part)
  {
    CallbacksPoll(round.callbacks);
    if |part| >= 2 {
      forall i | 0 <= i < |part| ensures PollOp(part[i]) {
        if i >= 2 { assert part[i] == part[2..][i - 2]; }
      }
    }
  }

  lemma {:induction false} RoundsPoll(g: Group, rounds: seq<Round>, waits: bool, parts: seq<seq<Op>>, n: nat)
    requires Rounds(g, rounds, waits, parts) && n <= |parts|
    ensures AllPoll(Flatten(parts[..n]))
  {
    if n > 0 {
      RoundsPoll(g, rounds, waits, parts, n - 1);
      assert RoundAt(g, rounds, waits, parts, n - 1);
      RoundPolls(Exec(g, Flatten(parts[..n - 1])), rounds[n - 1], waits, parts[n - 1]);
      assert parts[..n][..n - 1] == parts[..n - 1];
    }
  }

  lemma PollStep(s: Sys, k: Key, op: Op)
    requires PollOp(op) && Live(s, k).Some?
    ensures Live(Next(s, StepOf(k, op)), k) == Some(Apply(Live(s, k).value, op))
    ensures forall j :: j != k ==> Live(Next(s, StepOf(k, op)), j) == Live(s, j)
  {
  }

  /** A poll of a group is a run of the runtime: its expiry passes, resumes, callbacks and messages are the steps of
      that name, it takes the live state where those take it, and it leaves the other groups alone. */
  lemma {:induction false} PollIsRun(s: Sys, k: Key, ops: seq<Op>)
    requires AllPoll(ops) && Live(s, k).Some?
    ensures Live(Run(s, StepsOf(k, ops)), k) == Some(Exec(Live(s, k).value, ops))
    ensures forall j :: j != k ==> Live(Run(s, StepsOf(k, ops)), j) == Live(s, j)
  {
    if ops != [] {
      var rest, last := ops[..|ops| - 1], ops[|ops| - 1];
      PollIsRun(s, k, rest);
      assert StepsOf(k, ops)[..|ops| - 1] == StepsOf(k, rest) && StepsOf(k, ops)[|ops| - 1] == StepOf(k, last);
      PollStep(Run(s, StepsOf(k, rest)), k, last);
    }
  }

  /** The expiry pass of each round is one that the runtime allows. */
  lemma ExpiryEnabled(s: Sys, k: Key, g: Group, rounds: seq<Round>, waits: bool, parts: seq<seq<Op>>, i: nat)
    requires Live(s, k) == Some(g) && Rounds(g, rounds, waits, parts) && i < |parts| && AllPoll(Flatten(parts[..i]))
    ensures RoundAt(g, rounds, waits, parts, i)
    ensures Enabled(Run(s, StepsOf(k, Flatten(parts[..i]))), StepOf(k, parts[i][0]))
  {
    assert RoundAt(g, rounds, waits, parts, i);
    PollIsRun(s, k, Flatten(parts[..i]));
    RoundAllowed(Exec(g, Flatten(parts[..i])), rounds[i], waits, parts[i]);
  }
}
