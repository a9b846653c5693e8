/** What a call of the range reader returns, from what the caller gave and what the client answered, and what the pages
    of successive calls hold together. */
module RangeCalls {
  import opened Basics
  import opened ConsumerGroup
  import opened RangeReader
  import opened RangePaging

  // ------------------------------------------------------------ the bounds

  predicate Names(given: Option<map<nat, nat>>, p: nat) {
    given.Some? && p in given.value
  }

  /** A bound that is not given is the watermark, partition by partition. */
  function Edge(given: Option<map<nat, nat>>, marks: map<nat, nat>, p: nat): nat
    requires p in marks
  {
    if Names(given, p) then given.value[p] else marks[p]
  }

  lemma BoundMeaning(given: Option<map<nat, nat>>, marks: map<nat, nat>)
    ensures forall p :: p in Bound(given, marks) <==> p in marks || Names(given, p)
    ensures forall p :: p in marks ==> Bound(given, marks)[p] == Edge(given, marks, p)
    ensures given.None? ==> Bound(given, marks) == marks
  {
  }

  /** Why the bounds of a partition are refused, if they are. */
  predicate Refuses(e: RangeError, start: nat, end: nat, low: nat, high: nat) {
    match e
    case CursorExpired => start < low
    case BoundBeyondHigh => low <= start && (high < start || high < end)
    case EndBeforeStart => low <= start && start <= high && end <= high && end < start
    case _ => false
  }

  predicate InOrder(start: nat, end: nat, low: nat, high: nat) {
    low <= start <= end <= high
  }

  lemma {:induction false} FirstFaultIs(partitions: seq<nat>, start: map<nat, nat>, end: map<nat, nat>,
                                        lows: map<nat, nat>, highs: map<nat, nat>) returns (i: nat)
    requires Marked(partitions, start) && Marked(partitions, end) && Marked(partitions, lows)
    requires Marked(partitions, highs)
    requires FirstFault(partitions, start, end, lows, highs).Some?
    ensures i < |partitions|
    ensures forall j :: 0 <= j < i ==>
        InOrder(start[partitions[j]], end[partitions[j]], lows[partitions[j]], highs[partitions[j]])
    ensures var p := partitions[i];
            Refuses(FirstFault(partitions, start, end, lows, highs).value, start[p], end[p], lows[p], highs[p])
  {
    if FaultAt(partitions[0], start, end, lows, highs).Some? {
      i := 0;
    } else {
      i := FirstFaultIs(partitions[1..], start, end, lows, highs);
      i := i + 1;
    }
  }

  /** The bounds of the first n partitions are in order. */
  predicate FirstInOrder(partitions: seq<nat>, lows: map<nat, nat>, highs: map<nat, nat>, source: Option<map<nat, nat>>,
                         until: Option<map<nat, nat>>, n: nat)
    requires lows.Keys == highs.Keys == (set p | p in partitions) && n <= |partitions|
  {
    forall j :: 0 <= j < n ==> OrderAt(partitions[j], lows, highs, source, until)
  }

  predicate OrderAt(p: nat, lows: map<nat, nat>, highs: map<nat, nat>, source: Option<map<nat, nat>>,
                    until: Option<map<nat, nat>>)
    requires p in lows && p in highs
  {
    InOrder(Edge(source, lows, p), Edge(until, highs, p), lows[p], highs[p])
  }

  /** Neither bound names a partition that the topic does not have. */
  ghost predicate AllKnown(partitions: seq<nat>, source: Option<map<nat, nat>>, until: Option<map<nat, nat>>) {
    forall p :: Names(source, p) || Names(until, p) ==> p in partitions
  }

  /** Which refusal a read gets: too many partitions; else the first partition whose bounds are out of order decides, by
      its expired start, a bound past the high watermark, or an end before the start; else a partition that the topic
      does not have. */
  lemma RefusalMeaning(partitions: seq<nat>, lows: map<nat, nat>, highs: map<nat, nat>, source: Option<map<nat, nat>>,
                       until: Option<map<nat, nat>>) returns (i: nat)
    requires lows.Keys == highs.Keys == set p | p in partitions
    ensures var r := Refusal(partitions, Bound(source, lows), Bound(until, highs), lows, highs);
            var ordered := FirstInOrder(partitions, lows, highs, source, until, |partitions|);
            && (r == Some(TooManyPartitions) <==> |partitions| > 128)
            && (r == Some(UnknownPartition) <==> |partitions| <= 128 && ordered && !AllKnown(partitions, source, until))
            && (r == None <==> |partitions| <= 128 && ordered && AllKnown(partitions, source, until))
            && (|partitions| <= 128 && !ordered ==>
                  && r.Some? && i < |partitions| && FirstInOrder(partitions, lows, highs, source, until, i)
                  && var p := partitions[i];
                     Refuses(r.value, Edge(source, lows, p), Edge(until, highs, p), lows[p], highs[p]))
  {
    i := FaultIs(partitions, lows, highs, source, until);
    UnknownIff(partitions, lows, highs, source, until);
  }

  lemma FaultIs(partitions: seq<nat>, lows: map<nat, nat>, highs: map<nat, nat>, source: Option<map<nat, nat>>,
                until: Option<map<nat, nat>>) returns (i: nat)
    requires lows.Keys == highs.Keys == set p | p in partitions
    ensures var start, end := Bound(source, lows), Bound(until, highs);
            && Marked(partitions, start) && Marked(partitions, end)
            && var fault := FirstFault(partitions, start, end, lows, highs);
               && (fault.None? <==> FirstInOrder(partitions, lows, highs, source, until, |partitions|))
               && (fault.Some? ==>
                     && i < |partitions| && FirstInOrder(partitions, lows, highs, source, until, i)
                     && var p := partitions[i];
                        Refuses(fault.value, Edge(source, lows, p), Edge(until, highs, p), lows[p], highs[p]))
  {
    var start, end := Bound(source, lows), Bound(until, highs);
    BoundMeaning(source, lows);
    BoundMeaning(until, highs);
    FirstFaultMeaning(partitions, start, end, lows, highs);
    i := 0;
    if FirstFault(partitions, start, end, lows, highs).Some? {
      i := FirstFaultIs(partitions, start, end, lows, highs);
    } else {
      forall j | 0 <= j < |partitions| ensures OrderAt(partitions[j], lows, highs, source, until) {
        assert partitions[j] in partitions;
      }
    }
  }

  lemma UnknownIff(partitions: seq<nat>, lows: map<nat, nat>, highs: map<nat, nat>, source: Option<map<nat, nat>>,
                   until: Option<map<nat, nat>>)
    requires lows.Keys == highs.Keys == set p | p in partitions
    ensures AllKnown(partitions, source, until) <==>
            && Bound(source, lows).Keys == (set p | p in partitions)
            && Bound(until, highs).Keys == (set p | p in partitions)
  {
    BoundMeaning(source, lows);
    BoundMeaning(until, highs);
    if forall p :: Names(source, p) || Names(until, p) ==> p in partitions {
      assert forall p :: p in Bound(source, lows) <==> p in partitions;
      assert forall p :: p in Bound(until, highs) <==> p in partitions;
    } else {
      var p :| (Names(source, p) || Names(until, p)) && p !in partitions;
      assert p in Bound(source, lows) || p in Bound(until, highs);
    }
  }

  // ------------------------------------------------------------ the loop

  /** Where the client stands after some answers. */
  function After(at: map<nat, nat>, taken: seq<Answer>): map<nat, nat> {
    if taken == [] then at else Advance(After(at, taken[..|taken| - 1]), taken[|taken| - 1])
  }

  /** The page after some answers. */
  function PageAfter(end: map<nat, nat>, taken: seq<Answer>): seq<Coord> {
    if taken == [] then [] else Gather(PageAfter(end, taken[..|taken| - 1]), end, taken[|taken| - 1])
  }

  /** The position that an answer tells of a partition. */
  predicate Tells(a: Answer, p: nat, x: nat) {
    (a.Record? && a.c.partition == p && x == a.c.offset + 1) || (a.EndOfPartition? && a.p == p && x == a.offset)
  }

  /** The client stands at the furthest position of a partition that the start or an answer tells. */
  lemma {:induction false} AfterMeaning(at: map<nat, nat>, taken: seq<Answer>, p: nat)
    requires p in at
    ensures After(at, taken).Keys == at.Keys
    ensures var x := After(at, taken)[p];
            && at[p] <= x && (forall i, y :: 0 <= i < |taken| && Tells(taken[i], p, y) ==> y <= x)
            && (x == at[p] || exists i :: 0 <= i < |taken| && Tells(taken[i], p, x))
  {
    if taken != [] {
      var n := |taken| - 1;
      var rest, last := taken[..n], taken[n];
      AfterMeaning(at, rest, p);
      var x, x' := After(at, rest)[p], After(at, taken)[p];
      assert forall i :: 0 <= i < n ==> rest[i] == taken[i];
      if x' == x && x != at[p] {
        var i :| 0 <= i < n && Tells(rest[i], p, x);
        assert Tells(taken[i], p, x);
      } else if x' != x {
        assert Tells(taken[n], p, x');
      }
    }
  }

  /** A record that belongs on the page. */
  predicate Fits(end: map<nat, nat>, a: Answer) {
    a.Record? && a.c.partition in end && a.c.offset < end[a.c.partition]
  }

  /** The page holds the records below the end in the order in which they came, each at the place that those before it
      leave. */
  lemma {:induction false} PageAfterMeaning(end: map<nat, nat>, taken: seq<Answer>, i: nat)
    requires i < |taken|
    ensures var before, after := |PageAfter(end, taken[..i])|, |PageAfter(end, taken[..i + 1])|;
            && after <= |PageAfter(end, taken)|
            && if Fits(end, taken[i]) then after == before + 1 && PageAfter(end, taken)[before] == taken[i].c
               else after == before
  {
    var n := |taken| - 1;
    assert taken[..i + 1][..i] == taken[..i];
    if i < n {
      PageAfterMeaning(end, taken[..n], i);
      assert taken[..n][..i] == taken[..i] && taken[..n][..i + 1] == taken[..i + 1];
    } else {
      assert taken[..i + 1] == taken;
    }
  }

  /** Why an answer ends the read with an error, if it does: the client failed, or a record that belongs on the page
      cannot be decoded. */
  predicate Spoils(end: map<nat, nat>, a: Answer, e: RangeError) {
    (e.ClientFailed? && a.Failure?) || (e.InvalidEvent? && Fits(end, a) && !a.decodable)
  }

  /** After the first j answers there is room on the page, and something is left to read. */
  predicate Wants(start: map<nat, nat>, end: map<nat, nat>, limit: nat, answers: seq<Answer>, j: nat)
    requires j <= |answers|
  {
    |PageAfter(end, answers[..j])| < limit && Unfinished(After(start, answers[..j]), end)
  }

  ghost predicate Sound(end: map<nat, nat>, a: Answer) {
    forall e :: !Spoils(end, a, e)
  }

  /** The loop takes the first k answers: all of them, or until the page is full, everything is read or one of them
      spoils the read. */
  ghost predicate Takes(start: map<nat, nat>, end: map<nat, nat>, limit: nat, answers: seq<Answer>, k: nat,
                        r: RangeResult) {
    && k <= |answers|
    && (forall j :: 0 <= j < k ==> Wants(start, end, limit, answers, j) && Sound(end, answers[j]))
    && match r
       case Ok(page) =>
         && (k < |answers| ==> !Wants(start, end, limit, answers, k))
         && page.events == PageAfter(end, answers[..k]) && page.next == After(start, answers[..k])
         && (page.truncated <==> Unfinished(page.next, end))
       case Err(e) => k < |answers| && Wants(start, end, limit, answers, k) && Spoils(end, answers[k], e)
  }

  lemma {:induction false} ReadingFrom(start: map<nat, nat>, end: map<nat, nat>, limit: nat, answers: seq<Answer>,
                                       i: nat) returns (k: nat)
    requires i <= |answers|
    requires forall j :: 0 <= j < i ==> Wants(start, end, limit, answers, j) && Sound(end, answers[j])
    ensures Takes(start, end, limit, answers, k,
                  Reading(After(start, answers[..i]), end, limit, PageAfter(end, answers[..i]), answers[i..]))
    decreases |answers| - i
  {
    k := i;
    if Wants(start, end, limit, answers, i) && i < |answers| {
      var a := answers[i];
      assert answers[i..][0] == a && answers[i..][1..] == answers[i + 1..];
      if Fault(end, a).None? {
        assert Sound(end, a) && answers[..i + 1][..i] == answers[..i];
        k := ReadingFrom(start, end, limit, answers, i + 1);
      }
    }
  }

  /** What the loop does with any answers. */
  lemma ReadingMeaning(start: map<nat, nat>, end: map<nat, nat>, limit: nat, answers: seq<Answer>) returns (k: nat)
    ensures Takes(start, end, limit, answers, k, Reading(start, end, limit, [], answers))
  {
    assert answers[..0] == [] && answers[0..] == answers;
    k := ReadingFrom(start, end, limit, answers, 0);
  }

  // ------------------------------------------------------------ one read after the other

  /** Reads without an end, each from the cursor of the one before, of a log that stays as it is. */
  ghost predicate ReadsOn(log: Log, partitions: seq<nat>, lows: map<nat, nat>, highs: map<nat, nat>,
                          source: Option<map<nat, nat>>, pages: seq<Page>)
    requires lows.Keys == highs.Keys == set p | p in partitions
    decreases |pages|
  {
    pages == [] ||
    (&& (exists limit, answers :: ReadGives(log, partitions, lows, highs, source, limit, answers, pages[0]))
     && ReadsOn(log, partitions, lows, highs, Some(pages[0].next), pages[1..]))
  }

  ghost predicate ReadGives(log: Log, partitions: seq<nat>, lows: map<nat, nat>, highs: map<nat, nat>,
                            source: Option<map<nat, nat>>, limit: nat, answers: seq<Answer>, page: Page)
    requires lows.Keys == highs.Keys == set p | p in partitions
  {
    && ReadResult(partitions, lows, highs, source, None, limit, answers, true) == Ok(page)
    && AllFaithful(log, highs, Bound(source, lows), answers)
  }

  /** A page that a read without an end returns is one that the paging theorems speak of. */
  lemma ReadPageOk(log: Log, partitions: seq<nat>, lows: map<nat, nat>, highs: map<nat, nat>,
                   source: Option<map<nat, nat>>, limit: nat, answers: seq<Answer>, page: Page)
    requires lows.Keys == highs.Keys == set p | p in partitions
    requires Increases(log) && (forall p :: p in partitions ==> p in log)
    requires ReadGives(log, partitions, lows, highs, source, limit, answers, page)
    ensures Bound(source, lows).Keys == highs.Keys && PageOk(log, highs, Bound(source, lows), page)
    ensures page.next.Keys == highs.Keys
    ensures forall p :: p in partitions ==> Bound(source, lows)[p] == Edge(source, lows, p) <= highs[p]
  {
    var start := Bound(source, lows);
    BoundMeaning(source, lows);
    BoundMeaning(None, highs);
    var i := RefusalMeaning(partitions, lows, highs, source, None);
    UnknownIff(partitions, lows, highs, source, None);
    forall p | p in partitions ensures InOrder(Edge(source, lows, p), Edge(None, highs, p), lows[p], highs[p]) {
      var j :| 0 <= j < |partitions| && partitions[j] == p;
      assert OrderAt(partitions[j], lows, highs, source, None);
    }
    StartExact(log, start, highs);
    ReadingExact(log, highs, start, start, highs, limit, [], answers);
    assert PageExact(log, highs, start, highs, limit, page);
  }

  lemma {:induction false} ReadsFollow(log: Log, partitions: seq<nat>, lows: map<nat, nat>, highs: map<nat, nat>,
                                       source: Option<map<nat, nat>>, pages: seq<Page>)
    requires lows.Keys == highs.Keys == set p | p in partitions
    requires Increases(log) && (forall p :: p in partitions ==> p in log)
    requires ReadsOn(log, partitions, lows, highs, source, pages)
    ensures Follows(log, highs, Bound(source, lows), pages)
    decreases |pages|
  {
    if pages != [] {
      var limit, answers :| ReadGives(log, partitions, lows, highs, source, limit, answers, pages[0]);
      ReadPageOk(log, partitions, lows, highs, source, limit, answers, pages[0]);
      ReadsFollow(log, partitions, lows, highs, Some(pages[0].next), pages[1..]);
      BoundMeaning(Some(pages[0].next), lows);
      assert Bound(Some(pages[0].next), lows) == pages[0].next;
    }
  }

  /** Reading on without a start and without an end until a page is not truncated gives every visible record between the
      watermarks, in order and exactly once. */
  lemma ReadsComplete(log: Log, partitions: seq<nat>, lows: map<nat, nat>, highs: map<nat, nat>, pages: seq<Page>,
                      p: nat)
    requires lows.Keys == highs.Keys == set q | q in partitions
    requires Snapshot(log, highs) && (forall q :: q in partitions ==> q in log) && p in partitions
    requires ReadsOn(log, partitions, lows, highs, None, pages) && pages != [] && !pages[|pages| - 1].truncated
    ensures Gathered(pages, p) == Within(log[p], lows[p], highs[p])
    ensures Increasing(Gathered(pages, p)) && forall o :: o in Gathered(pages, p) <==> o in log[p] && lows[p] <= o
  {
    ReadsFollow(log, partitions, lows, highs, None, pages);
    var limit, answers :| ReadGives(log, partitions, lows, highs, None, limit, answers, pages[0]);
    ReadPageOk(log, partitions, lows, highs, None, limit, answers, pages[0]);
    BoundMeaning(None, lows);
    PagingExact(log, highs, lows, pages, p);
    LastPageOk(log, highs, lows, pages);
    Finished(Reached(lows, pages), highs, p);
    WithinIncreasing(log[p], lows[p], highs[p]);
    WithinMembers(log[p], lows[p], highs[p]);
  }
}
