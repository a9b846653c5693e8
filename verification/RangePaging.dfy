/** Following the cursors of finite reads, page after page. */
module RangePaging {
  import opened Basics
  import opened ConsumerGroup
  import opened RangeReader

  /** What `Read` promises of a page that was asked for without an end, of a log that still ends at the watermarks when
      the read is over. */
  ghost predicate PageOk(log: Log, highs: map<nat, nat>, start: map<nat, nat>, page: Page) {
    exists limit :: PageExact(log, highs, start, highs, limit, page)
  }

  /** Each page starts at the cursor of the one before; limits, deadlines and interleavings may differ from page to
      page. */
  ghost predicate Follows(log: Log, highs: map<nat, nat>, start: map<nat, nat>, pages: seq<Page>)
    decreases |pages|
  {
    pages == [] || (PageOk(log, highs, start, pages[0]) && Follows(log, highs, pages[0].next, pages[1..]))
  }

  function Gathered(pages: seq<Page>, p: nat): Offsets {
    if pages == [] then [] else Of(pages[0].events, p) + Gathered(pages[1..], p)
  }

  function Reached(start: map<nat, nat>, pages: seq<Page>): map<nat, nat> {
    if pages == [] then start else pages[|pages| - 1].next
  }

  /** The log does not grow past the snapshot: every visible record lies below the high watermark. */
  ghost predicate Snapshot(log: Log, highs: map<nat, nat>) {
    Increases(log) && forall p, o :: p in log && p in highs && o in log[p] ==> o < highs[p]
  }

  /** Any sequence of pages gathers, per partition and without repetition, the records up to where it stands. */
  lemma {:induction false} PagingExact(log: Log, highs: map<nat, nat>, start: map<nat, nat>, pages: seq<Page>, p: nat)
    requires Snapshot(log, highs) && Follows(log, highs, start, pages) && p in start && p in log && p in highs
    requires start[p] <= highs[p]
    ensures var at := Reached(start, pages);
            p in at && start[p] <= at[p] <= highs[p] && Gathered(pages, p) == Within(log[p], start[p], at[p])
    decreases |pages|
  {
    if pages == [] {
      WithinNone(log[p], start[p], start[p]);
    } else {
      var next := pages[0].next;
      OnePage(log, highs, start, pages[0], p);
      PagingExact(log, highs, next, pages[1..], p);
      var at := Reached(start, pages);
      assert at == Reached(next, pages[1..]);
      WithinSplit(log[p], start[p], next[p], at[p]);
    }
  }

  lemma OnePage(log: Log, highs: map<nat, nat>, start: map<nat, nat>, page: Page, p: nat)
    requires PageOk(log, highs, start, page) && p in start && p in log && p in highs
    ensures p in page.next && start[p] <= page.next[p] <= highs[p]
    ensures Of(page.events, p) == Within(log[p], start[p], page.next[p])
  {
    assert ExactAt(log, start, highs, page.events, page.next, p);
  }

  /** When the last page is not truncated, the pages hold every record from the start, in order and exactly once: what a
      single read without a limit returns. */
  lemma PagingComplete(log: Log, highs: map<nat, nat>, start: map<nat, nat>, pages: seq<Page>, whole: Page, p: nat)
    requires Snapshot(log, highs) && Follows(log, highs, start, pages) && p in start && p in log && p in highs
    requires start[p] <= highs[p]
    requires pages != [] && !pages[|pages| - 1].truncated
    requires PageOk(log, highs, start, whole) && !whole.truncated
    ensures Gathered(pages, p) == Within(log[p], start[p], highs[p]) == Of(whole.events, p)
    ensures Increasing(Gathered(pages, p)) && forall o :: o in Gathered(pages, p) <==> o in log[p] && start[p] <= o
  {
    PagingExact(log, highs, start, pages, p);
    LastPageOk(log, highs, start, pages);
    Finished(pages[|pages| - 1].next, highs, p);
    Finished(whole.next, highs, p);
    assert ExactAt(log, start, highs, whole.events, whole.next, p);
    WithinIncreasing(log[p], start[p], highs[p]);
    WithinMembers(log[p], start[p], highs[p]);
  }

  lemma {:induction false} LastPageOk(log: Log, highs: map<nat, nat>, start: map<nat, nat>, pages: seq<Page>)
    requires Follows(log, highs, start, pages) && pages != []
    ensures var last := pages[|pages| - 1];
            Capped(last.next, highs) && (last.truncated <==> Unfinished(last.next, highs))
    decreases |pages|
  {
    if |pages| > 1 {
      LastPageOk(log, highs, pages[0].next, pages[1..]);
      assert pages[1..][|pages| - 2] == pages[|pages| - 1];
    }
  }

  lemma Finished(at: map<nat, nat>, highs: map<nat, nat>, p: nat)
    requires !Unfinished(at, highs) && p in at && p in highs && Capped(at, highs)
    ensures at[p] == highs[p]
  {
  }

  /** A cursor returned by a page is accepted by the bounds checks of the next read. */
  lemma FollowUpAccepted(partitions: seq<nat>, log: Log, lows: map<nat, nat>, highs: map<nat, nat>, start: map<nat,
                         nat>, page: Page)
    requires lows.Keys == highs.Keys == set p | p in partitions
    requires start.Keys == lows.Keys && Refusal(partitions, start, highs, lows, highs).None?
    requires PageOk(log, highs, start, page)
    ensures Bound(Some(page.next), lows) == page.next && Refusal(partitions, page.next, highs, lows, highs).None?
  {
    var next := page.next;
    assert lows + next == next;
    FirstFaultMeaning(partitions, start, highs, lows, highs);
    forall p | p in partitions ensures lows[p] <= next[p] <= highs[p] {
      assert p in next && ExactAt(log, start, highs, page.events, next, p);
    }
    FirstFaultMeaning(partitions, next, highs, lows, highs);
  }

  // ------------------------------------------------------------ cursors past the end

  lemma WithinResumes(s: Offsets, start: nat, end: nat, next: nat, later: nat)
    requires Increasing(s) && start <= next <= later && start <= end <= later
    ensures Within(s, start, Min(next, end)) + Within(s, next, later) == Within(s, start, later) <==>
            forall o :: o in s ==> !(end <= o < next)
  {
    WithinNone(s, end, next);
    if next <= end {
      WithinSplit(s, start, next, later);
    } else {
      WithinSplit(s, start, end, later);
      WithinSplit(s, end, next, later);
      var a, b, c := Within(s, start, end), Within(s, end, next), Within(s, next, later);
      assert Within(s, start, later) == a + (b + c);
      assert |a + c| == |a + (b + c)| <==> b == [];
    }
  }

  lemma CursorResumesIff(log: Log, tips: map<nat, nat>, start: map<nat, nat>, end: map<nat, nat>, limit: nat,
                         answers: seq<Answer>, page: Page, p: nat, later: nat)
    requires Increases(log) && start.Keys == end.Keys && (forall q :: q in start ==> q in log && start[q] <= end[q])
    requires Capped(start, tips) && AllFaithful(log, tips, start, answers)
    requires Reading(start, end, limit, [], answers) == Ok(page)
    requires p in start && p in tips && tips[p] <= later && end[p] <= later
    ensures p in page.next
    ensures Of(page.events, p) + Within(log[p], page.next[p], later) == Within(log[p], start[p], later) <==>
            NoneBetween(log[p], end[p], page.next[p])
  {
    StartExact(log, start, end);
    ReadingExact(log, tips, start, start, end, limit, [], answers);
    assert ExactAt(log, start, end, page.events, page.next, p);
    WithinResumes(log[p], start[p], end[p], page.next[p], later);
  }

  ghost predicate NoneBetween(s: Offsets, a: nat, b: nat) {
    forall o :: o in s ==> !(a <= o < b)
  }

  /** An answer that the loop takes is a record of the partition at or past its end. */
  predicate Overtakes(at: map<nat, nat>, end: map<nat, nat>, limit: nat, events: seq<Coord>, answers: seq<Answer>,
                      p: nat)
    decreases |answers|
  {
    if |events| >= limit || !Unfinished(at, end) || answers == [] || Fault(end, answers[0]).Some? then false
    else
      || PastEnd(end, answers[0], p)
      || Overtakes(Advance(at, answers[0]), end, limit, Gather(events, end, answers[0]), answers[1..], p)
  }

  predicate PastEnd(end: map<nat, nat>, a: Answer, p: nat) {
    a.Record? && a.c.partition == p && p in end && end[p] <= a.c.offset
  }

  lemma {:induction false} CursorAdvances(at: map<nat, nat>, end: map<nat, nat>, limit: nat, events: seq<Coord>,
                                          answers: seq<Answer>, p: nat)
    requires p in at
    ensures var r := Reading(at, end, limit, events, answers); r.Ok? ==> p in r.page.next && at[p] <= r.page.next[p]
    decreases |answers|
  {
    if |events| < limit && Unfinished(at, end) && answers != [] && Fault(end, answers[0]).None? {
      CursorAdvances(Advance(at, answers[0]), end, limit, Gather(events, end, answers[0]), answers[1..], p);
    }
  }

  /** One answer moves the position over a record at or past the end iff it is such a record. */
  lemma AnswerOvertakes(log: Log, tips: map<nat, nat>, at: map<nat, nat>, end: map<nat, nat>, a: Answer, p: nat)
    requires Faithful(log, tips, at, a) && p in at && p in end && p in log && NoneBetween(log[p], end[p], at[p])
    ensures p in Advance(at, a) && (NoneBetween(log[p], end[p], Advance(at, a)[p]) <==> !PastEnd(end, a, p))
  {
    if PastEnd(end, a, p) { assert a.c.offset in log[p]; }
  }

  lemma {:induction false} OvertakenIff(log: Log, tips: map<nat, nat>, at: map<nat, nat>, end: map<nat, nat>,
                                        limit: nat,
                                        events: seq<Coord>, answers: seq<Answer>, p: nat)
    requires AllFaithful(log, tips, at, answers) && p in at && p in end && p in log
    requires NoneBetween(log[p], end[p], at[p]) && Reading(at, end, limit, events, answers).Ok?
    ensures var next := Reading(at, end, limit, events, answers).page.next;
            p in next && (NoneBetween(log[p], end[p], next[p]) <==> !Overtakes(at, end, limit, events, answers, p))
    decreases |answers|
  {
    if |events| < limit && Unfinished(at, end) && answers != [] {
      var at', events', a := Advance(at, answers[0]), Gather(events, end, answers[0]), answers[0];
      AnswerOvertakes(log, tips, at, end, a, p);
      CursorAdvances(at', end, limit, events', answers[1..], p);
      if PastEnd(end, a, p) {
        assert a.c.offset in log[p] && a.c.offset < at'[p];
      } else {
        OvertakenIff(log, tips, at', end, limit, events', answers[1..], p);
      }
    }
  }

  /** A page and everything from its cursor up to a later end of the log: nothing is lost in between iff the loop takes
      no answer that is a record of the partition at or past its end. The end is an explicit one, or the watermark that
      the log has outgrown. */
  lemma PageResumesIff(log: Log, tips: map<nat, nat>, start: map<nat, nat>, end: map<nat, nat>, limit: nat,
                       answers: seq<Answer>, page: Page, p: nat, later: nat)
    requires Increases(log) && start.Keys == end.Keys && (forall q :: q in start ==> q in log && start[q] <= end[q])
    requires Capped(start, tips) && AllFaithful(log, tips, start, answers)
    requires Reading(start, end, limit, [], answers) == Ok(page)
    requires p in start && p in tips && tips[p] <= later && end[p] <= later
    ensures p in page.next
    ensures Of(page.events, p) + Within(log[p], page.next[p], later) == Within(log[p], start[p], later) <==>
            !Overtakes(start, end, limit, [], answers, p)
  {
    CursorResumesIff(log, tips, start, end, limit, answers, page, p, later);
    OvertakenIff(log, tips, start, end, limit, [], answers, p);
  }

  // Two partitions; record 1 of partition 0 lies at the end of the page.
  const LOG: Log := map[0 := [0, 1], 1 := [0]]
  const TIPS: map<nat, nat> := map[0 := 2, 1 := 1]
  const END: map<nat, nat> := map[0 := 1, 1 := 1]
  const BEGIN: map<nat, nat> := map[0 := 0, 1 := 0]
  const POLLED: seq<Answer> := [Record(Coord(0, 0), true), Record(Coord(0, 1), true), Record(Coord(1, 0), true)]

  lemma Polling()
    ensures Reading(BEGIN, END, 9, [], POLLED) == Ok(Page([Coord(0, 0), Coord(1, 0)], map[0 := 2, 1 := 1], false))
    ensures AllFaithful(LOG, TIPS, BEGIN, POLLED)
  {
    var at1, at2, at3 := map[0 := 1, 1 := 0], map[0 := 2, 1 := 0], map[0 := 2, 1 := 1];
    var rest1, rest2 := [Record(Coord(0, 1), true), Record(Coord(1, 0), true)], [Record(Coord(1, 0), true)];
    assert POLLED[1..] == rest1 && rest1[1..] == rest2 && rest2[1..] == [];
    assert Advance(BEGIN, POLLED[0]) == at1 && Advance(at1, rest1[0]) == at2 && Advance(at2, rest2[0]) == at3;
    assert 1 in at2 && at2[1] < END[1] && 1 in at1 && at1[1] < END[1] && 1 in BEGIN && BEGIN[1] < END[1];
    assert Gather([], END, POLLED[0]) == [Coord(0, 0)];
    assert Gather([Coord(0, 0)], END, rest1[0]) == [Coord(0, 0)];
    assert Gather([Coord(0, 0)], END, rest2[0]) == [Coord(0, 0), Coord(1, 0)];
    assert !Unfinished(at3, END);
    assert AllFaithful(LOG, TIPS, at3, []) && AllFaithful(LOG, TIPS, at2, rest2) && AllFaithful(LOG, TIPS, at1, rest1);
  }

  /** A page of `Read` that loses a record: partition 0 is finished, the loop goes on for partition 1, and record 1 of
      partition 0 is polled in between. It is not on the page, and the cursor has passed it. With `END` as the
      watermarks the log has grown during the read; with `TIPS` as the watermarks and `END` as an explicit end it has
      not. */
  lemma CursorCanLose()
    ensures var page := Reading(BEGIN, END, 9, [], POLLED);
            && page.Ok? && AllFaithful(LOG, TIPS, BEGIN, POLLED)
            && 0 in page.page.next
            && Of(page.page.events, 0) + Within(LOG[0], page.page.next[0], 2) != Within(LOG[0], 0, 2)
  {
    Polling();
    var page := Reading(BEGIN, END, 9, [], POLLED).page;
    assert Increases(LOG);
    CursorResumesIff(LOG, TIPS, BEGIN, END, 9, POLLED, page, 0, 2);
    assert LOG[0][1] == 1 && 1 in LOG[0];
  }
}
