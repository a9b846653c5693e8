/** Finite range reads: one loop over whatever the client polls, in any interleaving of partitions, and the paging
    that follows its cursors. */
module RangeReader {
  import opened Basics
  import opened ConsumerGroup

  // ------------------------------------------------------------ the visible log of a partition

  /** Visible offsets in increasing order. */
  type Offsets = seq<nat>

  ghost predicate Increasing(s: Offsets) {
    forall i, j :: 0 <= i < j < |s| ==> s[i] < s[j]
  }

  /** The visible offsets in `[a, b)`, in order. */
  function Within(s: Offsets, a: nat, b: nat): Offsets {
    if s == [] then [] else Head(s[0], a, b) + Within(s[1..], a, b)
  }

  function Head(o: nat, a: nat, b: nat): Offsets {
    if a <= o < b then [o] else []
  }

  lemma {:induction false} WithinMembers(s: Offsets, a: nat, b: nat)
    ensures forall o :: o in Within(s, a, b) <==> o in s && a <= o < b
  {
    if s != [] {
      WithinMembers(s[1..], a, b);
      assert s == [s[0]] + s[1..];
    }
  }

  lemma WithinNone(s: Offsets, a: nat, b: nat)
    ensures Within(s, a, b) == [] <==> forall o :: o in s ==> !(a <= o < b)
  {
    WithinMembers(s, a, b);
    var w := Within(s, a, b);
    assert w != [] ==> w[0] in w;
  }

  lemma {:induction false} WithinSplit(s: Offsets, a: nat, m: nat, b: nat)
    requires Increasing(s) && a <= m <= b
    ensures Within(s, a, b) == Within(s, a, m) + Within(s, m, b)
  {
    if s != [] {
      WithinSplit(s[1..], a, m, b);
      if s[0] >= m { NoneBelow(s, a, m); }
      Assemble(s[0], a, m, b, Within(s[1..], a, m), Within(s[1..], m, b));
    }
  }

  lemma NoneBelow(s: Offsets, a: nat, m: nat)
    requires Increasing(s) && s != [] && s[0] >= m
    ensures Within(s[1..], a, m) == []
  {
    WithinNone(s[1..], a, m);
  }

  lemma Assemble(h: nat, a: nat, m: nat, b: nat, low: Offsets, up: Offsets)
    requires a <= m <= b && (h >= m ==> low == [])
    ensures Head(h, a, b) + (low + up) == (Head(h, a, m) + low) + (Head(h, m, b) + up)
  {
  }

  lemma {:induction false} WithinOne(s: Offsets, o: nat)
    requires Increasing(s) && o in s
    ensures Within(s, o, o + 1) == [o]
  {
    if s[0] == o { WithinNone(s[1..], o, o + 1); } else { WithinOne(s[1..], o); }
  }

  lemma {:induction false} WithinIncreasing(s: Offsets, a: nat, b: nat)
    requires Increasing(s)
    ensures Increasing(Within(s, a, b))
  {
    if s != [] {
      WithinIncreasing(s[1..], a, b);
      WithinMembers(s[1..], a, b);
      var rest := Within(s[1..], a, b);
      assert forall i :: 0 <= i < |rest| ==> rest[i] in rest;
    }
  }

  // ------------------------------------------------------------ the bounds of a read

  datatype RangeError =
    TooManyPartitions | CursorExpired | BoundBeyondHigh | EndBeforeStart | UnknownPartition | InvalidEvent |
    ClientFailed | CursorTooLarge

  datatype Page = Page(events: seq<Coord>, next: map<nat, nat>, truncated: bool)

  datatype RangeResult = Ok(page: Page) | Err(error: RangeError)

  const MAX_CURSOR_PARTITIONS: nat := 128

  /** The decoded bound, with the watermark for every partition it does not name. */
  function Bound(given: Option<map<nat, nat>>, marks: map<nat, nat>): map<nat, nat> {
    if given.None? then marks else marks + given.value
  }

  function FaultAt(p: nat, start: map<nat, nat>, end: map<nat, nat>, lows: map<nat, nat>, highs: map<nat,
                   nat>): Option<RangeError>
    requires p in start && p in end && p in lows && p in highs
  {
    if start[p] < lows[p] then Some(CursorExpired)
    else if start[p] > highs[p] || end[p] > highs[p] then Some(BoundBeyondHigh)
    else if end[p] < start[p] then Some(EndBeforeStart)
    else None
  }

  predicate Marked(partitions: seq<nat>, m: map<nat, nat>) {
    forall p :: p in partitions ==> p in m
  }

  /** The first partition in order whose bounds are refused decides. */
  function FirstFault(partitions: seq<nat>, start: map<nat, nat>, end: map<nat, nat>, lows: map<nat, nat>,
                      highs: map<nat, nat>)
    : Option<RangeError>
    requires Marked(partitions, start) && Marked(partitions, end) && Marked(partitions, lows)
    requires Marked(partitions, highs)
  {
    if partitions == [] then None
    else
      var fault := FaultAt(partitions[0], start, end, lows, highs);
      if fault.Some? then fault else FirstFault(partitions[1..], start, end, lows, highs)
  }

  function Refusal(partitions: seq<nat>, start: map<nat, nat>, end: map<nat, nat>, lows: map<nat, nat>, highs: map<nat,
                   nat>)
    : Option<RangeError>
    requires Marked(partitions, start) && Marked(partitions, end) && Marked(partitions, lows)
    requires Marked(partitions, highs)
  {
    if |partitions| > MAX_CURSOR_PARTITIONS then Some(TooManyPartitions)
    else if FirstFault(partitions, start, end, lows, highs).Some? then FirstFault(partitions, start, end, lows, highs)
    else if start.Keys != (set p | p in partitions) || end.Keys != (set p | p in partitions) then Some(UnknownPartition)
    else None
  }

  /** Exactly the reads whose bounds lie in order within the watermarks are let through. */
  lemma {:induction false} FirstFaultMeaning(partitions: seq<nat>, start: map<nat, nat>, end: map<nat, nat>,
                                             lows: map<nat, nat>, highs: map<nat, nat>)
    requires Marked(partitions, start) && Marked(partitions, end) && Marked(partitions, lows)
    requires Marked(partitions, highs)
    ensures FirstFault(partitions, start, end, lows, highs).None? <==>
            forall p :: p in partitions ==> lows[p] <= start[p] <= end[p] <= highs[p]
  {
    if partitions != [] { FirstFaultMeaning(partitions[1..], start, end, lows, highs); }
  }

  // ------------------------------------------------------------ what the client may answer

  datatype Answer = Silence | EndOfPartition(p: nat, offset: nat) | Record(c: Coord, decodable: bool) | Failure

  type Log = map<nat, Offsets>

  function Max(a: nat, b: nat): nat { if a < b then b else a }

  function Min(a: nat, b: nat): nat { if a < b then a else b }

  /** Where the client stands after an answer. */
  function Advance(at: map<nat, nat>, a: Answer): map<nat, nat> {
    match a
    case EndOfPartition(p, offset) => if p in at then at[p := Max(at[p], offset)] else at
    case Record(c, _) => if c.partition in at then at[c.partition := Max(at[c.partition], c.offset + 1)] else at
    case _ => at
  }

  /** The client passes over no visible record. `tips` is where the log ends when the read is over; it may have grown
      past the watermarks that the read began with. */
  ghost predicate Faithful(log: Log, tips: map<nat, nat>, at: map<nat, nat>, a: Answer) {
    match a
    case EndOfPartition(p, offset) =>
      p in at && p in log && p in tips && offset <= tips[p] && forall o :: o in log[p] ==> !(at[p] <= o < offset)
    case Record(c, _) =>
      && c.partition in at && c.partition in log && c.partition in tips && c.offset < tips[c.partition]
      && c.offset in log[c.partition] && at[c.partition] <= c.offset
      && forall o :: o in log[c.partition] ==> !(at[c.partition] <= o < c.offset)
    case _ => true
  }

  ghost predicate AllFaithful(log: Log, tips: map<nat, nat>, at: map<nat, nat>, answers: seq<Answer>)
    decreases |answers|
  {
    answers == [] || (Faithful(log, tips, at, answers[0])
                      && AllFaithful(log, tips, Advance(at, answers[0]), answers[1..]))
  }

  // ------------------------------------------------------------ the page

  /** The offsets of one partition among the events, in page order. */
  function Of(events: seq<Coord>, p: nat): Offsets {
    if events == [] then []
    else Of(events[..|events| - 1], p) +
         (if events[|events| - 1].partition == p then [events[|events| - 1].offset] else [])
  }

  /** The page holds, for each partition and in order, exactly the visible records from the start up to where it
      stands. */
  ghost predicate Exact(log: Log, start: map<nat, nat>, end: map<nat, nat>, events: seq<Coord>, at: map<nat, nat>) {
    && at.Keys == start.Keys == end.Keys
    && (forall p {:trigger ExactAt(log, start, end, events, at, p)} :: p in at ==>
          ExactAt(log, start, end, events, at, p))
    && (forall c :: c in events ==> c.partition in at)
  }

  ghost predicate ExactAt(log: Log, start: map<nat, nat>, end: map<nat, nat>, events: seq<Coord>, at: map<nat, nat>,
                          p: nat)
    requires p in at && at.Keys == start.Keys == end.Keys
  {
    start[p] <= at[p] && p in log && Of(events, p) == Within(log[p], start[p], Min(at[p], end[p]))
  }

  predicate Unfinished(at: map<nat, nat>, end: map<nat, nat>) {
    exists p :: p in at && p in end && at[p] < end[p]
  }

  ghost predicate Increases(log: Log) {
    forall p :: p in log ==> Increasing(log[p])
  }

  ghost predicate Capped(at: map<nat, nat>, tips: map<nat, nat>) {
    forall p :: p in at ==> p in tips && at[p] <= tips[p]
  }

  /** What a page promises: the visible records up to where it stands, at most `limit` of them, and whether that is
      all. */
  ghost predicate PageExact(log: Log, tips: map<nat, nat>, start: map<nat, nat>, end: map<nat, nat>, limit: nat,
                            page: Page) {
    && Exact(log, start, end, page.events, page.next)
    && Capped(page.next, tips)
    && |page.events| <= limit
    && (page.truncated <==> Unfinished(page.next, end))
  }

  lemma OfAppend(events: seq<Coord>, c: Coord, p: nat)
    ensures Of(events + [c], p) == Of(events, p) + if c.partition == p then [c.offset] else []
  {
    assert (events + [c])[..|events|] == events;
  }

  lemma RecordInPartition(s: Offsets, start: nat, at: nat, offset: nat, end: nat)
    requires Increasing(s) && start <= at <= offset && offset in s && (forall o :: o in s ==> !(at <= o < offset))
    ensures Within(s, start, Min(offset + 1, end)) ==
            Within(s, start, Min(at, end)) + if offset < end then [offset] else []
  {
    if offset < end {
      WithinSplit(s, start, at, offset + 1);
      NextOne(s, at, offset);
    } else {
      PassOver(s, start, at, offset + 1, end);
    }
  }

  lemma NextOne(s: Offsets, at: nat, offset: nat)
    requires Increasing(s) && at <= offset && offset in s && (forall o :: o in s ==> !(at <= o < offset))
    ensures Within(s, at, offset + 1) == [offset]
  {
    WithinNone(s, at, offset);
    WithinSplit(s, at, offset, offset + 1);
    WithinOne(s, offset);
  }

  lemma RecordStep(log: Log, start: map<nat, nat>, end: map<nat, nat>, events: seq<Coord>, at: map<nat, nat>, c: Coord)
    requires Increases(log) && Exact(log, start, end, events, at)
    requires c.partition in at && c.partition in log && at[c.partition] <= c.offset && c.offset in log[c.partition]
    requires forall o :: o in log[c.partition] ==> !(at[c.partition] <= o < c.offset)
    ensures Exact(log, start, end, if c.offset < end[c.partition] then events + [c] else events,
                  at[c.partition := c.offset + 1])
  {
    var p, at' := c.partition, at[c.partition := c.offset + 1];
    var events' := if c.offset < end[p] then events + [c] else events;
    assert ExactAt(log, start, end, events, at, p);
    RecordInPartition(log[p], start[p], at[p], c.offset, end[p]);
    forall q | q in at' ensures ExactAt(log, start, end, events', at', q) {
      assert ExactAt(log, start, end, events, at, q);
      OfAppend(events, c, q);
    }
  }

  /** Nothing visible below the end is between the two positions, so the page stays as it is. */
  lemma PassOver(s: Offsets, start: nat, at: nat, to: nat, end: nat)
    requires Increasing(s) && start <= at <= to && (forall o :: o in s ==> !(at <= o < Min(to, end)))
    ensures Within(s, start, Min(to, end)) == Within(s, start, Min(at, end))
  {
    if at < end {
      WithinSplit(s, start, at, Min(to, end));
      WithinNone(s, at, Min(to, end));
    }
  }

  lemma EofStep(log: Log, start: map<nat, nat>, end: map<nat, nat>, events: seq<Coord>, at: map<nat, nat>, p: nat,
                offset: nat)
    requires Increases(log) && Exact(log, start, end, events, at) && p in at && p in log
    requires forall o :: o in log[p] ==> !(at[p] <= o < offset)
    ensures Exact(log, start, end, events, at[p := Max(at[p], offset)])
  {
    var at' := at[p := Max(at[p], offset)];
    assert ExactAt(log, start, end, events, at, p);
    PassOver(log[p], start[p], at[p], at'[p], end[p]);
    forall q | q in at' ensures ExactAt(log, start, end, events, at', q) {
      assert ExactAt(log, start, end, events, at, q);
    }
  }

  lemma StartExact(log: Log, start: map<nat, nat>, end: map<nat, nat>)
    requires start.Keys == end.Keys && forall p :: p in start ==> p in log && start[p] <= end[p]
    ensures Exact(log, start, end, [], start)
  {
    forall p | p in start ensures ExactAt(log, start, end, [], start, p) {
      WithinNone(log[p], start[p], start[p]);
    }
  }

  /** A record before the end joins the page; any other answer only moves the position. */
  function Gather(events: seq<Coord>, end: map<nat, nat>, a: Answer): seq<Coord> {
    if a.Record? && a.c.partition in end && a.c.offset < end[a.c.partition] then events + [a.c] else events
  }

  lemma AnswerStep(log: Log, tips: map<nat, nat>, start: map<nat, nat>, end: map<nat, nat>, events: seq<Coord>,
                   at: map<nat, nat>, a: Answer)
    requires Increases(log) && Exact(log, start, end, events, at) && Capped(at, tips) && Faithful(log, tips, at, a)
    ensures Exact(log, start, end, Gather(events, end, a), Advance(at, a)) && Capped(Advance(at, a), tips)
  {
    match a
    case EndOfPartition(p, offset) => EofStep(log, start, end, events, at, p, offset);
    case Record(c, _) => RecordStep(log, start, end, events, at, c);
    case _ =>
  }

  // ------------------------------------------------------------ the polling loop

  /** An answer that ends the read. */
  function Fault(end: map<nat, nat>, a: Answer): Option<RangeError> {
    if a.Failure? then Some(ClientFailed)
    else if a.Record? && !a.decodable && a.c.partition in end && a.c.offset < end[a.c.partition] then Some(InvalidEvent)
    else None
  }

  /** What the loop makes of the answers that arrive before the deadline. */
  function Reading(at: map<nat, nat>, end: map<nat, nat>, limit: nat, events: seq<Coord>,
                   answers: seq<Answer>): RangeResult
    decreases |answers|
  {
    if |events| >= limit || !Unfinished(at, end) || answers == [] then Ok(Page(events, at, Unfinished(at, end)))
    else if Fault(end, answers[0]).Some? then Err(Fault(end, answers[0]).value)
    else Reading(Advance(at, answers[0]), end, limit, Gather(events, end, answers[0]), answers[1..])
  }

  /** Whatever the interleaving, the page is exact. */
  lemma {:induction false} ReadingExact(log: Log, tips: map<nat, nat>, start: map<nat, nat>, at: map<nat, nat>,
                                        end: map<nat, nat>, limit: nat, events: seq<Coord>, answers: seq<Answer>)
    requires Increases(log) && Exact(log, start, end, events, at) && Capped(at, tips) && |events| <= limit
    requires AllFaithful(log, tips, at, answers)
    ensures var r := Reading(at, end, limit, events, answers); r.Ok? ==> PageExact(log, tips, start, end, limit, r.page)
    decreases |answers|
  {
    if |events| < limit && Unfinished(at, end) && answers != [] && Fault(end, answers[0]).None? {
      AnswerStep(log, tips, start, end, events, at, answers[0]);
      ReadingExact(log, tips, start, Advance(at, answers[0]), end, limit, Gather(events, end, answers[0]),
                   answers[1..]);
    }
  }

  method Collect(start: map<nat, nat>, end: map<nat, nat>, limit: nat, answers: seq<Answer>) returns (r: RangeResult)
    ensures r == Reading(start, end, limit, [], answers)
  {
    var events: seq<Coord> := [];
    var at, i := start, 0;
    assert answers[0..] == answers;
    while |events| < limit && Unfinished(at, end) && i < |answers|
      invariant 0 <= i <= |answers|
      invariant Reading(at, end, limit, events, answers[i..]) == Reading(start, end, limit, [], answers)
    {
      var a := answers[i];
      assert answers[i..][0] == a && answers[i..][1..] == answers[i + 1..];
      if Fault(end, a).Some? { return Err(Fault(end, a).value); }
      events := Gather(events, end, a);
      at := Advance(at, a);
      i := i + 1;
    }
    r := Ok(Page(events, at, Unfinished(at, end)));
  }

  /** What a read returns: the refusal of its bounds, or what the loop makes of the answers. */
  function ReadResult(partitions: seq<nat>, lows: map<nat, nat>, highs: map<nat, nat>, source: Option<map<nat, nat>>,
                      until: Option<map<nat, nat>>, limit: nat, answers: seq<Answer>, cursorOk: bool): RangeResult
    requires lows.Keys == highs.Keys == set p | p in partitions
  {
    var start, end := Bound(source, lows), Bound(until, highs);
    var refused, reading := Refusal(partitions, start, end, lows, highs), Reading(start, end, limit, [], answers);
    if refused.Some? then Err(refused.value) else if reading.Ok? && !cursorOk then Err(CursorTooLarge) else reading
  }

  /** Read a page. The answers are what the client polls until the deadline; the log and where it ends are only there to
      state the contract. `cursorOk` says whether the cursor of the page fits into a token. */
  method Read(partitions: seq<nat>, lows: map<nat, nat>, highs: map<nat, nat>, source: Option<map<nat, nat>>,
              until: Option<map<nat, nat>>, limit: nat, answers: seq<Answer>, cursorOk: bool, ghost log: Log,
              ghost tips: map<nat, nat>) returns (r: RangeResult)
    requires lows.Keys == highs.Keys == set p | p in partitions
    requires Increases(log) && (forall p :: p in partitions ==> p in log) && Capped(highs, tips)
    requires Refusal(partitions, Bound(source, lows), Bound(until, highs), lows, highs).None? ==>
               AllFaithful(log, tips, Bound(source, lows), answers)
    ensures var start, end := Bound(source, lows), Bound(until, highs);
            && r == ReadResult(partitions, lows, highs, source, until, limit, answers, cursorOk)
            && (r.Ok? ==> PageExact(log, tips, start, end, limit, r.page))
  {
    var start, end := Bound(source, lows), Bound(until, highs);
    if |partitions| > MAX_CURSOR_PARTITIONS { return Err(TooManyPartitions); }
    var fault := CheckBounds(partitions, start, end, lows, highs);
    if fault.Some? { return Err(fault.value); }
    if start.Keys != (set p | p in partitions) || end.Keys != (set p | p in partitions) {
      return Err(UnknownPartition);
    }
    FirstFaultMeaning(partitions, start, end, lows, highs);
    r := Collect(start, end, limit, answers);
    StartExact(log, start, end);
    ReadingExact(log, tips, start, start, end, limit, [], answers);
    if r.Ok? && !cursorOk { return Err(CursorTooLarge); }
  }

  method CheckBounds(partitions: seq<nat>, start: map<nat, nat>, end: map<nat, nat>, lows: map<nat, nat>,
                     highs: map<nat, nat>)
      returns (fault: Option<RangeError>)
    requires Marked(partitions, start) && Marked(partitions, end) && Marked(partitions, lows)
    requires Marked(partitions, highs)
    ensures fault == FirstFault(partitions, start, end, lows, highs)
  {
    var i := 0;
    while i < |partitions|
      invariant 0 <= i <= |partitions|
      invariant FirstFault(partitions[i..], start, end, lows, highs) == FirstFault(partitions, start, end, lows, highs)
    {
      fault := FaultAt(partitions[i], start, end, lows, highs);
      if fault.Some? { return; }
      i := i + 1;
    }
    fault := None;
  }
}
