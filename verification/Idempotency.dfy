/** The producer's replay cache: an ordered dictionary of bounded size, against the history of accepted publishes. */
module Idempotency {
  import opened Basics
  import opened ConsumerGroup

  const MAX_IDEMPOTENCY_ENTRIES: nat := 10_000

  // ------------------------------------------------------------ publishing

  /** What the delivery callback of one event left behind. */
  datatype Report = Rejected | Silent | Stored(at: Coord)

  datatype Receipt = Receipt(event: Text, at: Coord)

  /** The fingerprint is that of the stream and the events. */
  datatype Command = Command(key: Option<Text>, fingerprint: Text, events: seq<Text>)

  /** How sending goes: whether every event could be queued, how many were left after the flush, and the reports. */
  datatype Sending = Sending(queuedAll: bool, left: nat, reports: seq<Report>)

  datatype Call = Call(command: Command, transactional: bool, sending: Sending)

  datatype Answer = Conflict | Replayed(receipts: seq<Receipt>) | NotPublished | Published(receipts: seq<Receipt>)

  /** An event whose callback was not called has no metadata. */
  function ReportAt(c: Call, i: nat): Report {
    if i < |c.sending.reports| then c.sending.reports[i] else Silent
  }

  /** The receipts of the first k events, if all of them were stored. */
  function Receipts(c: Call, k: nat): Option<seq<Receipt>>
    requires k <= |c.command.events|
  {
    if k == 0 then Some([])
    else
      var rest, last := Receipts(c, k - 1), ReportAt(c, k - 1);
      if rest.None? || !last.Stored? then None else Some(rest.value + [Receipt(c.command.events[k - 1], last.at)])
  }

  /** A publish returns one receipt for each event, in order, with the place where it was stored, or none at all. */
  lemma {:induction false} ReceiptsMeaning(c: Call, k: nat)
    requires k <= |c.command.events|
    ensures Receipts(c, k).Some? <==> forall i :: 0 <= i < k ==> ReportAt(c, i).Stored?
    ensures Receipts(c, k).Some? ==>
              var r := Receipts(c, k).value;
              |r| == k && forall i :: 0 <= i < k ==> r[i] == Receipt(c.command.events[i], ReportAt(c, i).at)
  {
    if k > 0 { ReceiptsMeaning(c, k - 1); }
  }

  lemma {:induction false} NoReceipts(c: Call, k: nat)
    requires k <= |c.command.events| && Receipts(c, k).None?
    ensures Receipts(c, |c.command.events|).None?
    decreases |c.command.events| - k
  {
    if k < |c.command.events| { NoReceipts(c, k + 1); }
  }

  function Send(c: Call): Answer {
    var receipts := Receipts(c, |c.command.events|);
    if c.sending.queuedAll && c.sending.left == 0 && receipts.Some? then Published(receipts.value) else NotPublished
  }

  /** Everything was queued, nothing was left after the flush, and every event was reported as stored. */
  predicate AllStored(c: Call) {
    && c.sending.queuedAll && c.sending.left == 0 && |c.command.events| <= |c.sending.reports|
    && forall i :: 0 <= i < |c.command.events| ==> c.sending.reports[i].Stored?
  }

  /** One receipt for each event, in order, with the place that was reported for it. */
  predicate ReceiptsOf(c: Call, receipts: seq<Receipt>)
    requires AllStored(c)
  {
    && |receipts| == |c.command.events|
    && forall i :: 0 <= i < |receipts| ==> receipts[i] == Receipt(c.command.events[i], c.sending.reports[i].at)
  }

  lemma SendMeaning(c: Call)
    ensures Send(c).Published? <==> AllStored(c)
    ensures Send(c).Published? ==> ReceiptsOf(c, Send(c).receipts)
    ensures !Send(c).Published? ==> Send(c) == NotPublished
  {
    var n := |c.command.events|;
    ReceiptsMeaning(c, n);
    if Receipts(c, n).Some? {
      forall i | 0 <= i < n ensures i < |c.sending.reports| && c.sending.reports[i].Stored? {
        assert ReportAt(c, i).Stored?;
      }
    }
    if AllStored(c) {
      forall i | 0 <= i < n ensures ReportAt(c, i).Stored? { assert c.sending.reports[i].Stored?; }
    }
  }

  predicate Keyed(c: Call) {
    !c.transactional && c.command.key.Some?
  }

  // ------------------------------------------------------------ the ordered dictionary

  datatype Entry = Entry(key: Text, fingerprint: Text, receipts: seq<Receipt>)

  function Init(s: seq<Entry>): seq<Entry>
    requires s != []
  {
    s[..|s| - 1]
  }

  function End(s: seq<Entry>): Entry
    requires s != []
  {
    s[|s| - 1]
  }

  function KeysOf(s: seq<Entry>): set<Text> {
    if s == [] then {} else KeysOf(Init(s)) + {End(s).key}
  }

  predicate Distinct(s: seq<Entry>) {
    s == [] || (Distinct(Init(s)) && End(s).key !in KeysOf(Init(s)))
  }

  /** The last entry with that key. */
  function Find(s: seq<Entry>, key: Text): Option<Entry> {
    if s == [] then None else if End(s).key == key then Some(End(s)) else Find(Init(s), key)
  }

  /** What comes after the last entry with that key; everything, if there is none. */
  function Since(s: seq<Entry>, key: Text): seq<Entry> {
    if s == [] || End(s).key == key then [] else Since(Init(s), key) + [End(s)]
  }

  function Without(s: seq<Entry>, key: Text): seq<Entry> {
    if s == [] then [] else Without(Init(s), key) + if End(s).key == key then [] else [End(s)]
  }

  /** Assignment keeps the place of a key that is there. */
  function Put(s: seq<Entry>, e: Entry): seq<Entry> {
    if s == [] then [e] else if End(s).key == e.key then Init(s) + [e] else Put(Init(s), e) + [End(s)]
  }

  function MoveToEnd(s: seq<Entry>, key: Text): seq<Entry> {
    var found := Find(s, key);
    if found.Some? then Without(s, key) + [found.value] else s
  }

  function Last(s: seq<Entry>, n: nat): seq<Entry> {
    if |s| <= n then s else s[|s| - n..]
  }

  /** The entry becomes the most recent one of its key and of all. */
  function Touch(s: seq<Entry>, e: Entry): seq<Entry> {
    Without(s, e.key) + [e]
  }

  lemma Snoc(s: seq<Entry>, e: Entry)
    ensures Init(s + [e]) == s && End(s + [e]) == e
  {
  }

  lemma AppendInit(a: seq<Entry>, b: seq<Entry>)
    requires b != []
    ensures Init(a + b) == a + Init(b) && End(a + b) == End(b)
  {
  }

  lemma Associates(a: seq<Entry>, b: seq<Entry>, c: seq<Entry>)
    ensures a + b + c == a + (b + c)
  {
  }

  lemma AppendNothing(a: seq<Entry>)
    ensures a + [] == a
  {
  }

  lemma {:induction false} KeysAppend(a: seq<Entry>, b: seq<Entry>)
    ensures KeysOf(a + b) == KeysOf(a) + KeysOf(b)
  {
    if b == [] {
      AppendNothing(a);
    } else {
      AppendInit(a, b);
      KeysAppend(a, Init(b));
    }
  }

  lemma KeysSnoc(s: seq<Entry>, e: Entry)
    ensures KeysOf(s + [e]) == KeysOf(s) + {e.key}
  {
    Snoc(s, e);
  }

  lemma {:induction false} WithoutAppend(a: seq<Entry>, b: seq<Entry>, key: Text)
    ensures Without(a + b, key) == Without(a, key) + Without(b, key)
  {
    if b == [] {
      AppendNothing(a);
    } else {
      AppendInit(a, b);
      WithoutAppend(a, Init(b), key);
    }
  }

  lemma {:induction false} WithoutKeys(s: seq<Entry>, key: Text)
    ensures KeysOf(Without(s, key)) == KeysOf(s) - {key}
  {
    if s != [] {
      WithoutKeys(Init(s), key);
      if End(s).key == key {
        AppendNothing(Without(Init(s), key));
      } else {
        KeysSnoc(Without(Init(s), key), End(s));
      }
    }
  }

  lemma {:induction false} WithoutDistinct(s: seq<Entry>, key: Text)
    requires Distinct(s)
    ensures Distinct(Without(s, key))
  {
    if s != [] {
      WithoutDistinct(Init(s), key);
      if End(s).key == key {
        AppendNothing(Without(Init(s), key));
      } else {
        WithoutKeys(Init(s), key);
        Snoc(Without(Init(s), key), End(s));
      }
    }
  }

  lemma {:induction false} WithoutSize(s: seq<Entry>, key: Text)
    requires Distinct(s)
    ensures |Without(s, key)| == if key in KeysOf(s) then |s| - 1 else |s|
  {
    if s != [] { WithoutSize(Init(s), key); }
  }

  lemma TouchDistinct(s: seq<Entry>, e: Entry)
    requires Distinct(s)
    ensures Distinct(Touch(s, e))
  {
    WithoutDistinct(s, e.key);
    WithoutKeys(s, e.key);
    Snoc(Without(s, e.key), e);
  }

  lemma {:induction false} FindKeys(s: seq<Entry>, key: Text)
    ensures Find(s, key).Some? <==> key in KeysOf(s)
    ensures Find(s, key).Some? ==> Find(s, key).value.key == key && Find(s, key).value in s
  {
    if s != [] { FindKeys(Init(s), key); }
  }

  lemma {:induction false} FindAppend(a: seq<Entry>, b: seq<Entry>, key: Text)
    ensures Find(a + b, key) == if Find(b, key).Some? then Find(b, key) else Find(a, key)
  {
    if b == [] {
      AppendNothing(a);
    } else {
      AppendInit(a, b);
      FindAppend(a, Init(b), key);
    }
  }

  lemma {:induction false} SinceAppend(a: seq<Entry>, b: seq<Entry>, key: Text)
    ensures Since(a + b, key) == if Find(b, key).Some? then Since(b, key) else Since(a, key) + b
  {
    if b == [] {
      AppendNothing(a);
      AppendNothing(Since(a, key));
    } else {
      AppendInit(a, b);
      SinceAppend(a, Init(b), key);
      assert Init(b) + [End(b)] == b;
      Associates(Since(a, key), Init(b), [End(b)]);
    }
  }

  lemma {:induction false} SinceShorter(s: seq<Entry>, key: Text)
    ensures Find(s, key).Some? ==> |Since(s, key)| < |s|
  {
    if s != [] { SinceShorter(Init(s), key); }
  }

  lemma {:induction false} SinceDistinct(s: seq<Entry>, key: Text)
    ensures KeysOf(Since(s, key)) <= KeysOf(s)
    ensures Distinct(s) ==> Distinct(Since(s, key))
  {
    if s != [] && End(s).key != key {
      SinceDistinct(Init(s), key);
      Snoc(Since(Init(s), key), End(s));
    }
  }

  lemma {:induction false} PutFinds(s: seq<Entry>, e: Entry)
    ensures Find(Put(s, e), e.key) == Some(e) && Without(Put(s, e), e.key) == Without(s, e.key)
  {
    if s == [] {
      Snoc([], e);
    } else if End(s).key == e.key {
      Snoc(Init(s), e);
    } else {
      PutFinds(Init(s), e);
      Snoc(Put(Init(s), e), End(s));
    }
  }

  lemma {:induction false} DistinctSize(s: seq<Entry>)
    requires Distinct(s)
    ensures |KeysOf(s)| == |s|
  {
    if s != [] { DistinctSize(Init(s)); }
  }

  lemma {:induction false} DistinctAppend(a: seq<Entry>, b: seq<Entry>)
    requires Distinct(a + b)
    ensures Distinct(b)
  {
    if b != [] {
      AppendInit(a, b);
      DistinctAppend(a, Init(b));
      KeysAppend(a, Init(b));
    }
  }

  lemma LastSplit(s: seq<Entry>, n: nat)
    requires |s| > n
    ensures s == s[..|s| - n] + Last(s, n) && |Last(s, n)| == n
  {
  }

  // ------------------------------------------------------------ one call on the cache

  predicate Accepts(a: Answer) {
    a.Replayed? || a.Published?
  }

  function Lookup(entries: seq<Entry>, c: Call): Option<Entry> {
    if Keyed(c) then Find(entries, c.command.key.value) else None
  }

  /** A key that is found is answered from the dictionary, whatever the sending would do. */
  function AnswerFrom(found: Option<Entry>, c: Call): Answer {
    if found.None? then Send(c)
    else if found.value.fingerprint != c.command.fingerprint then Conflict
    else Replayed(found.value.receipts)
  }

  /** What an accepted keyed publish leaves: its key, its data and the receipts that it returned. */
  function Trace(c: Call, a: Answer): seq<Entry> {
    if Keyed(c) && Accepts(a) then [Entry(c.command.key.value, c.command.fingerprint, a.receipts)] else []
  }

  function Remembered(entries: seq<Entry>, trace: seq<Entry>, n: nat): seq<Entry> {
    if trace == [] then entries else Last(Touch(entries, trace[0]), n)
  }

  class ProducerEngine {
    var entries: seq<Entry>
    /** The commands that were handed to the producer client. */
    var handed: seq<Command>

    ghost predicate Valid()
      reads this
    {
      Distinct(entries) && |entries| <= MAX_IDEMPOTENCY_ENTRIES
    }

    constructor ()
      ensures Valid() && entries == [] && handed == []
    {
      entries, handed := [], [];
    }

    method Publish(c: Call) returns (a: Answer)
      requires Valid()
      modifies this
      ensures Valid()
      ensures a == AnswerFrom(Lookup(old(entries), c), c)
      ensures Lookup(old(entries), c).None? ==>
                && (a.Published? <==> AllStored(c)) && (!a.Published? ==> a == NotPublished)
                && (a.Published? ==> ReceiptsOf(c, a.receipts))
      ensures Lookup(old(entries), c).Some? ==>
                var e := Lookup(old(entries), c).value;
                && !c.transactional && c.command.key == Some(e.key) && e in old(entries)
                && a == if e.fingerprint == c.command.fingerprint then Replayed(e.receipts) else Conflict
      ensures entries == Remembered(old(entries), Trace(c, a), 10_000)
      ensures handed == old(handed) + if Lookup(old(entries), c).Some? then [] else [c.command]
    {
      SendMeaning(c);
      if Keyed(c) {
        FindKeys(entries, c.command.key.value);
        var replay := Find(entries, c.command.key.value);
        if replay.Some? {
          if replay.value.fingerprint != c.command.fingerprint { return Conflict; }
          Replay(c.command.key.value);
          return Replayed(replay.value.receipts);
        }
      }
      handed := handed + [c.command];
      if !c.sending.queuedAll || c.sending.left > 0 { return NotPublished; }
      var receipts := Collect(c);
      if receipts.None? { return NotPublished; }
      if Keyed(c) { Remember(Entry(c.command.key.value, c.command.fingerprint, receipts.value)); }
      a := Published(receipts.value);
    }

    /** Move a found entry to the end. */
    method Replay(key: Text)
      requires Valid() && Find(entries, key).Some?
      modifies this`entries
      ensures Valid()
      ensures var e := Find(old(entries), key).value;
              e.key == key && entries == Last(Touch(old(entries), e), MAX_IDEMPOTENCY_ENTRIES)
    {
      FindKeys(entries, key);
      TouchDistinct(entries, Find(entries, key).value);
      WithoutSize(entries, key);
      entries := MoveToEnd(entries, key);
    }

    /** Enter the receipts as the most recent ones and evict from the other end. */
    method Remember(e: Entry)
      requires Valid()
      modifies this`entries
      ensures Valid()
      ensures entries == Last(Touch(old(entries), e), MAX_IDEMPOTENCY_ENTRIES)
    {
      PutFinds(entries, e);
      TouchDistinct(entries, e);
      entries := Put(entries, e);
      entries := MoveToEnd(entries, e.key);
      ghost var all := entries;
      while |entries| > MAX_IDEMPOTENCY_ENTRIES
        invariant |entries| <= |all| && entries == all[|all| - |entries|..]
        invariant |all| <= MAX_IDEMPOTENCY_ENTRIES ==> entries == all
        invariant |all| > MAX_IDEMPOTENCY_ENTRIES ==> |entries| >= MAX_IDEMPOTENCY_ENTRIES
        decreases |entries|
      {
        entries := entries[1..];
      }
      if |all| > MAX_IDEMPOTENCY_ENTRIES {
        LastSplit(all, MAX_IDEMPOTENCY_ENTRIES);
        DistinctAppend(all[..|all| - MAX_IDEMPOTENCY_ENTRIES], entries);
      }
    }

    /** One receipt for each event, unless a report is an error or is missing. */
    static method Collect(c: Call) returns (r: Option<seq<Receipt>>)
      ensures r == Receipts(c, |c.command.events|)
    {
      var receipts: seq<Receipt> := [];
      for i := 0 to |c.command.events|
        invariant Receipts(c, i) == Some(receipts)
      {
        var report := ReportAt(c, i);
        if !report.Stored? {
          NoReceipts(c, i + 1);
          return None;
        }
        receipts := receipts + [Receipt(c.command.events[i], report.at)];
      }
      r := Some(receipts);
    }
  }

  // ------------------------------------------------------------ the history of accepted publishes

  /** Every key once, at the place of its latest entry. */
  function Recency(history: seq<Entry>): seq<Entry> {
    if history == [] then [] else Touch(Recency(Init(history)), End(history))
  }

  lemma {:induction false} RecencyDistinct(history: seq<Entry>)
    ensures Distinct(Recency(history))
  {
    if history != [] {
      RecencyDistinct(Init(history));
      TouchDistinct(Recency(Init(history)), End(history));
    }
  }

  lemma {:induction false} FindWithout(s: seq<Entry>, key: Text, other: Text)
    requires key != other
    ensures Find(Without(s, other), key) == Find(s, key)
    ensures Since(Without(s, other), key) == Without(Since(s, key), other)
  {
    if s != [] {
      FindWithout(Init(s), key, other);
      if End(s).key == other {
        AppendNothing(Without(Init(s), other));
        Snoc(Since(Init(s), key), End(s));
        AppendNothing(Without(Since(Init(s), key), other));
      } else {
        Snoc(Without(Init(s), other), End(s));
        if End(s).key != key { Snoc(Since(Init(s), key), End(s)); }
      }
    }
  }

  /** The recency list has the latest entry of a key, and behind it exactly the keys that the history has since then. */
  lemma {:induction false} StackProperty(history: seq<Entry>, key: Text)
    ensures Find(Recency(history), key) == Find(history, key)
    ensures KeysOf(Since(Recency(history), key)) == KeysOf(Since(history, key))
  {
    if history != [] {
      var past, e := Recency(Init(history)), End(history);
      StackProperty(Init(history), key);
      Snoc(Without(past, e.key), e);
      if e.key != key {
        FindWithout(past, key, e.key);
        WithoutKeys(Since(past, key), e.key);
        KeysSnoc(Without(Since(past, key), e.key), e);
        KeysSnoc(Since(Init(history), key), e);
      }
    }
  }

  /** Whether the n last entries still have a key. */
  lemma LastHolds(s: seq<Entry>, key: Text, n: nat)
    requires Distinct(s)
    ensures Find(Last(s, n), key) == if |KeysOf(Since(s, key))| < n then Find(s, key) else None
  {
    SinceDistinct(s, key);
    DistinctSize(Since(s, key));
    SinceShorter(s, key);
    if |s| > n {
      var gone, kept := s[..|s| - n], Last(s, n);
      LastSplit(s, n);
      FindAppend(gone, kept, key);
      SinceAppend(gone, kept, key);
      SinceShorter(kept, key);
    } else if Find(s, key).None? {
      assert Find(Last(s, n), key) == None;
    }
  }

  /** The entry that still answers for a key: its latest one, unless n other keys have been used since. */
  function Standing(history: seq<Entry>, c: Call, n: nat): Option<Entry> {
    if Keyed(c) && |KeysOf(Since(history, c.command.key.value))| < n then Find(history, c.command.key.value) else None
  }

  /** Touching and then keeping n entries needs no more than the n entries kept before. */
  lemma LastTouch(s: seq<Entry>, e: Entry, n: nat)
    requires Distinct(s)
    ensures Last(Touch(Last(s, n), e), n) == Last(Touch(s, e), n)
  {
    if |s| > n {
      var gone, kept := s[..|s| - n], Last(s, n);
      LastSplit(s, n);
      WithoutAppend(gone, kept, e.key);
      DistinctAppend(gone, kept);
      WithoutSize(kept, e.key);
      Associates(Without(gone, e.key), Without(kept, e.key), [e]);
      LastAppend(Without(gone, e.key), Touch(kept, e), n);
    }
  }

  lemma LastAppend(a: seq<Entry>, b: seq<Entry>, n: nat)
    requires |b| >= n
    ensures Last(a + b, n) == Last(b, n)
  {
  }

  /** A call on the n most recent entries does what the whole history says. */
  lemma CallRefines(history: seq<Entry>, c: Call, trace: seq<Entry>, n: nat)
    requires |trace| <= 1
    ensures Lookup(Last(Recency(history), n), c) == Standing(history, c, n)
    ensures Remembered(Last(Recency(history), n), trace, n) == Last(Recency(history + trace), n)
  {
    RecencyDistinct(history);
    if Keyed(c) {
      StackProperty(history, c.command.key.value);
      LastHolds(Recency(history), c.command.key.value, n);
    }
    if trace == [] {
      AppendNothing(history);
    } else {
      assert trace == [trace[0]];
      Snoc(history, trace[0]);
      LastTouch(Recency(history), trace[0], n);
    }
  }

  // ------------------------------------------------------------ runs

  type Rule = (seq<Entry>, Call) -> seq<Entry>

  function Fold(rule: Rule, calls: seq<Call>, i: nat): seq<Entry>
    requires i <= |calls|
  {
    if i == 0 then [] else rule(Fold(rule, calls, i - 1), calls[i - 1])
  }

  /** Two rules that keep a relation keep it over every run. */
  lemma {:induction false} Simulation(f: Rule, g: Rule, related: (seq<Entry>, seq<Entry>) -> bool, calls: seq<Call>,
                                      i: nat)
    requires i <= |calls| && related([], []) && forall x, y, c :: related(x, y) ==> related(f(x, c), g(y, c))
    ensures related(Fold(f, calls, i), Fold(g, calls, i))
  {
    if i > 0 { Simulation(f, g, related, calls, i - 1); }
  }

  function Extended(past: seq<Entry>, c: Call, n: nat): seq<Entry> {
    past + Trace(c, AnswerFrom(Standing(past, c, n), c))
  }

  function Extending(n: nat): Rule {
    (past: seq<Entry>, c: Call) => Extended(past, c, n)
  }

  function Updated(entries: seq<Entry>, c: Call, n: nat): seq<Entry> {
    Remembered(entries, Trace(c, AnswerFrom(Lookup(entries, c), c)), n)
  }

  function Updating(n: nat): Rule {
    (entries: seq<Entry>, c: Call) => Updated(entries, c, n)
  }

  lemma UpdateRefines(past: seq<Entry>, c: Call, n: nat)
    ensures Updated(Last(Recency(past), n), c, n) == Last(Recency(Extended(past, c, n)), n)
  {
    CallRefines(past, c, Trace(c, AnswerFrom(Standing(past, c, n), c)), n);
  }

  lemma UpdateRefinesAs(entries: seq<Entry>, past: seq<Entry>, c: Call, n: nat, newEntries: seq<Entry>,
                        newPast: seq<Entry>)
    requires entries == Last(Recency(past), n) && newEntries == Updated(entries, c, n)
    requires newPast == Extended(past, c, n)
    ensures newEntries == Last(Recency(newPast), n)
  {
    UpdateRefines(past, c, n);
  }

  /** The history that the first i calls leave, by the rule of the standing entry alone. */
  function History(calls: seq<Call>, i: nat, n: nat): seq<Entry>
    requires i <= |calls|
  {
    Fold(Extending(n), calls, i)
  }

  /** The cache that the first i calls leave, one after the other. */
  function Cache(calls: seq<Call>, i: nat, n: nat): seq<Entry>
    requires i <= |calls|
  {
    Fold(Updating(n), calls, i)
  }

  /** The answer to call i. */
  function AnswerAt(calls: seq<Call>, i: nat, n: nat): Answer
    requires i < |calls|
  {
    AnswerFrom(Lookup(Cache(calls, i, n), calls[i]), calls[i])
  }

  /** Over every run the cache is the n most recent entries of the unbounded recency list. */
  lemma CacheRefinesHistory(calls: seq<Call>, i: nat, n: nat)
    requires i <= |calls|
    ensures Cache(calls, i, n) == Last(Recency(History(calls, i, n)), n)
  {
    var f, g := Updating(n), Extending(n);
    var related := (x: seq<Entry>, y: seq<Entry>) => x == Last(Recency(y), n);
    forall x, y, c | related(x, y) ensures related(f(x, c), g(y, c)) {
      UpdateRefinesAs(x, y, c, n, f(x, c), g(y, c));
    }
    Simulation(f, g, related, calls, i);
  }

  /** Every call is answered by the standing entry of its key, and only an accepted keyed publish is remembered. */
  lemma HistoryStep(calls: seq<Call>, i: nat, n: nat)
    requires i < |calls|
    ensures AnswerAt(calls, i, n) == AnswerFrom(Standing(History(calls, i, n), calls[i], n), calls[i])
    ensures History(calls, i + 1, n) == History(calls, i, n) + Trace(calls[i], AnswerAt(calls, i, n))
  {
    CacheRefinesHistory(calls, i, n);
    CallRefines(History(calls, i, n), calls[i], [], n);
  }

  // ------------------------------------------------------------ what a caller can rely on

  /** A run as a caller sees it: the calls, their answers, and the history before and after each. */
  datatype Run = Run(calls: seq<Call>, answers: seq<Answer>, histories: seq<seq<Entry>>)

  predicate Answered(past: seq<Entry>, c: Call, a: Answer, next: seq<Entry>, n: nat) {
    a == AnswerFrom(Standing(past, c, n), c) && next == past + Trace(c, a)
  }

  predicate Shaped(r: Run) {
    |r.answers| == |r.calls| && |r.histories| == |r.calls| + 1 && r.histories[0] == []
  }

  predicate AnsweredAt(r: Run, i: nat, n: nat)
    requires Shaped(r) && i < |r.calls|
  {
    Answered(r.histories[i], r.calls[i], r.answers[i], r.histories[i + 1], n)
  }

  predicate Obeys(r: Run, n: nat) {
    Shaped(r) && forall i {:trigger AnsweredAt(r, i, n)} :: 0 <= i < |r.calls| ==> AnsweredAt(r, i, n)
  }

  /** The run of the cache. */
  function CacheRun(calls: seq<Call>, n: nat): Run {
    Run(calls, seq(|calls|, i requires 0 <= i < |calls| => AnswerAt(calls, i, n)),
        seq(|calls| + 1, i requires 0 <= i <= |calls| => History(calls, i, n)))
  }

  /** Every run of the cache answers each call by the standing entry of its key. */
  lemma CacheRunObeys(calls: seq<Call>, n: nat)
    ensures Obeys(CacheRun(calls, n), n)
  {
    var r := CacheRun(calls, n);
    forall i | 0 <= i < |calls| ensures AnsweredAt(r, i, n) {
      HistoryStep(calls, i, n);
      AnsweredAs(r, i, n, History(calls, i, n), AnswerAt(calls, i, n), History(calls, i + 1, n));
    }
  }

  lemma AnsweredAs(r: Run, i: nat, n: nat, past: seq<Entry>, a: Answer, next: seq<Entry>)
    requires Shaped(r) && i < |r.calls| && r.histories[i] == past && r.answers[i] == a && r.histories[i + 1] == next
    requires Answered(past, r.calls[i], a, next, n)
    ensures AnsweredAt(r, i, n)
  {
  }

  /** The call published these receipts, under this key and with this data, outside a transaction. */
  predicate Publishes(c: Call, a: Answer, e: Entry) {
    Keyed(c) && a == Published(e.receipts) && c.command.key.value == e.key && c.command.fingerprint == e.fingerprint
  }

  /** An entry that is new to the history is that of a publish. */
  lemma Entered(past: seq<Entry>, c: Call, a: Answer, next: seq<Entry>, e: Entry, n: nat)
    requires Answered(past, c, a, next, n) && e in next && e !in past
    ensures Publishes(c, a, e)
  {
    if Keyed(c) { FindKeys(past, c.command.key.value); }
  }

  /** Every entry of the history goes back to a publish of its own key and data. */
  lemma {:induction false} HistoryPublished(r: Run, i: nat, e: Entry, n: nat) returns (j: nat)
    requires Obeys(r, n) && i <= |r.calls| && e in r.histories[i]
    ensures j < i && Publishes(r.calls[j], r.answers[j], e)
  {
    if e in r.histories[i - 1] {
      j := HistoryPublished(r, i - 1, e, n);
    } else {
      j := i - 1;
      assert AnsweredAt(r, j, n);
      Entered(r.histories[j], r.calls[j], r.answers[j], r.histories[i], e, n);
    }
  }

  lemma ReplayedEntry(past: seq<Entry>, c: Call, a: Answer, next: seq<Entry>, n: nat) returns (e: Entry)
    requires Answered(past, c, a, next, n) && a.Replayed?
    ensures Keyed(c) && e in past && e == Entry(c.command.key.value, c.command.fingerprint, a.receipts)
  {
    e := Standing(past, c, n).value;
    FindKeys(past, c.command.key.value);
  }

  /** A replay returns the receipts of an earlier publish of the same key and the same data. */
  lemma ReplayIsOriginal(r: Run, i: nat, n: nat) returns (j: nat)
    requires Obeys(r, n) && i < |r.calls| && r.answers[i].Replayed?
    ensures j < i && Keyed(r.calls[i])
    ensures Publishes(r.calls[j], r.answers[j],
                      Entry(r.calls[i].command.key.value, r.calls[i].command.fingerprint, r.answers[i].receipts))
  {
    assert AnsweredAt(r, i, n);
    var e := ReplayedEntry(r.histories[i], r.calls[i], r.answers[i], r.histories[i + 1], n);
    j := HistoryPublished(r, i, e, n);
  }

  /** The entries that the calls from i up to j have added. */
  lemma {:induction false} HistoryGrows(r: Run, i: nat, j: nat, n: nat) returns (added: seq<Entry>)
    requires Obeys(r, n) && i <= j <= |r.calls|
    ensures r.histories[j] == r.histories[i] + added
  {
    if i < j {
      var first := HistoryGrows(r, i, j - 1, n);
      assert AnsweredAt(r, j - 1, n);
      var more := Grown(r.histories[j - 1], r.calls[j - 1], r.answers[j - 1], r.histories[j], n);
      added := first + more;
      Associates(r.histories[i], first, more);
    } else {
      added := [];
    }
  }

  lemma Grown(past: seq<Entry>, c: Call, a: Answer, next: seq<Entry>, n: nat) returns (more: seq<Entry>)
    requires Answered(past, c, a, next, n)
    ensures next == past + more
  {
    more := Trace(c, a);
  }

  /** A key that was accepted is bound until n other keys have been accepted: a later call under it that does anything
      but replay the same receipts for the same data, or refuse other data, comes after at least n of them. */
  lemma BoundUntilEvicted(r: Run, i: nat, j: nat, n: nat) returns (between: seq<Entry>)
    requires Obeys(r, n) && i < j < |r.calls|
    requires Keyed(r.calls[i]) && Accepts(r.answers[i])
    requires Keyed(r.calls[j]) && r.calls[j].command.key == r.calls[i].command.key
    requires r.answers[j].Published? || r.answers[j].NotPublished?
    ensures r.histories[j] == r.histories[i + 1] + between && |KeysOf(between)| >= n
  {
    assert AnsweredAt(r, i, n) && AnsweredAt(r, j, n);
    between := HistoryGrows(r, i + 1, j, n);
    SentAgain(r.histories[i], r.calls[i], r.answers[i], between, r.histories[j], r.calls[j], r.answers[j],
              r.histories[j + 1], n);
  }

  lemma SentAgain(past: seq<Entry>, c: Call, a: Answer, between: seq<Entry>, now: seq<Entry>, d: Call, b: Answer,
                  next: seq<Entry>,
                  n: nat)
    requires now == past + Trace(c, a) + between && Answered(now, d, b, next, n)
    requires Keyed(c) && Accepts(a) && Keyed(d) && d.command.key == c.command.key && (b.Published? || b.NotPublished?)
    ensures |KeysOf(between)| >= n
  {
    NothingStands(past, Trace(c, a)[0], between, d, n);
  }

  lemma NothingStands(past: seq<Entry>, e: Entry, between: seq<Entry>, c: Call, n: nat)
    requires Keyed(c) && c.command.key.value == e.key && Standing(past + [e] + between, c, n).None?
    ensures |KeysOf(between)| >= n
  {
    Snoc(past, e);
    FindAppend(past + [e], between, e.key);
    SinceAppend(past + [e], between, e.key);
    SinceDistinct(between, e.key);
    assert [] + between == between;
    SubsetSize(KeysOf(Since(between, e.key)), KeysOf(between));
  }


  // ------------------------------------------------------------ what a bound key answers

  /** The entry of an accepted call. */
  function EntryOf(c: Call, a: Answer): Entry
    requires Keyed(c) && Accepts(a)
  {
    Entry(c.command.key.value, c.command.fingerprint, a.receipts)
  }

  /** Nothing else has been bound to the key since, as long as fewer than n keys were accepted. */
  lemma {:induction false} Bound(r: Run, i: nat, j: nat, n: nat) returns (between: seq<Entry>)
    requires Obeys(r, n) && i < j <= |r.calls| && Keyed(r.calls[i]) && Accepts(r.answers[i])
    ensures r.histories[j] == r.histories[i + 1] + between
    ensures var e := EntryOf(r.calls[i], r.answers[i]);
            |KeysOf(between)| < n ==>
                Find(r.histories[j], e.key) == Some(e) && |KeysOf(Since(r.histories[j], e.key))| < n
    decreases j
  {
    var e := EntryOf(r.calls[i], r.answers[i]);
    assert AnsweredAt(r, i, n);
    JustBound(r.histories[i], r.calls[i], r.answers[i], r.histories[i + 1], n);
    if j == i + 1 {
      between := [];
      AppendNothing(r.histories[j]);
    } else {
      var before := Bound(r, i, j - 1, n);
      assert AnsweredAt(r, j - 1, n);
      var more := StillBound(r.histories[i + 1], before, r.histories[j - 1], r.calls[j - 1], r.answers[j - 1],
                             r.histories[j], e, n);
      between := before + more;
      Associates(r.histories[i + 1], before, more);
    }
  }

  lemma JustBound(past: seq<Entry>, c: Call, a: Answer, next: seq<Entry>, n: nat)
    requires Answered(past, c, a, next, n) && Keyed(c) && Accepts(a)
    ensures var e := EntryOf(c, a); Find(next, e.key) == Some(e) && KeysOf(Since(next, e.key)) == {}
  {
    Snoc(past, EntryOf(c, a));
  }

  lemma StillBound(first: seq<Entry>, before: seq<Entry>, past: seq<Entry>, c: Call, a: Answer, next: seq<Entry>,
                   e: Entry,
                   n: nat) returns (more: seq<Entry>)
    requires past == first + before && Answered(past, c, a, next, n)
    requires |KeysOf(before)| < n ==> Find(past, e.key) == Some(e) && |KeysOf(Since(past, e.key))| < n
    requires Find(first, e.key) == Some(e) && KeysOf(Since(first, e.key)) == {}
    ensures next == past + more
    ensures |KeysOf(before + more)| < n ==> Find(next, e.key) == Some(e) && |KeysOf(Since(next, e.key))| < n
  {
    more := Trace(c, a);
    KeysAppend(before, more);
    if |KeysOf(before + more)| < n {
      SubsetSize(KeysOf(before), KeysOf(before + more));
      if more != [] {
        Snoc(past, more[0]);
        assert more == [more[0]];
        if more[0].key != e.key {
          FindAppend(first, before + more, e.key);
          SinceAppend(first, before + more, e.key);
          Associates(first, before, more);
          SinceFrom(first, before + more, e.key, n);
        }
      } else {
        AppendNothing(past);
      }
    }
  }

  /** What was accepted since the last entry of a key is no more than what was accepted since its first one. */
  lemma SinceFrom(first: seq<Entry>, more: seq<Entry>, key: Text, n: nat)
    requires KeysOf(Since(first, key)) == {} && |KeysOf(more)| < n
    ensures |KeysOf(Since(first + more, key))| < n
  {
    SinceAppend(first, more, key);
    SinceDistinct(more, key);
    KeysAppend(Since(first, key), more);
    SubsetSize(KeysOf(Since(more, key)), KeysOf(more));
    assert {} + KeysOf(more) == KeysOf(more);
  }

  /** While fewer than n keys were accepted since, a call under a bound key replays the receipts if its data is the
      same, and is refused if it is not, whatever has become of the calls in between. */
  lemma BoundAnswer(r: Run, i: nat, j: nat, n: nat) returns (between: seq<Entry>)
    requires Obeys(r, n) && i < j < |r.calls| && Keyed(r.calls[i]) && Accepts(r.answers[i])
    requires Keyed(r.calls[j]) && r.calls[j].command.key == r.calls[i].command.key
    ensures r.histories[j] == r.histories[i + 1] + between
    ensures |KeysOf(between)| < n ==>
              r.answers[j] == if r.calls[j].command.fingerprint == r.calls[i].command.fingerprint
                              then Replayed(r.answers[i].receipts) else Conflict
  {
    between := Bound(r, i, j, n);
    assert AnsweredAt(r, j, n);
  }

  // ------------------------------------------------------------ what an answer means

  /** Over every run, an answer that publishes comes of a call whose every event was stored, and carries one receipt for
      each; and a call that finds its key bound to nothing is answered so iff every event was stored. */
  lemma PublishedMeaning(r: Run, i: nat, n: nat)
    requires Obeys(r, n) && i < |r.calls|
    ensures r.answers[i].Published? ==> AllStored(r.calls[i]) && ReceiptsOf(r.calls[i], r.answers[i].receipts)
    ensures r.answers[i].NotPublished? ==> !AllStored(r.calls[i])
  {
    assert AnsweredAt(r, i, n);
    SendMeaning(r.calls[i]);
  }

  /** A call inside a transaction or without a key is never answered from the cache and leaves nothing in it; neither
      does a call that was refused or failed. Any other call binds its key to what it returned. */
  lemma Remembers(r: Run, i: nat, n: nat)
    requires Obeys(r, n) && i < |r.calls|
    ensures var c, a := r.calls[i], r.answers[i];
            if c.transactional || c.command.key.None? || a.Conflict? || a.NotPublished?
            then r.histories[i + 1] == r.histories[i]
            else r.histories[i + 1] ==
                 r.histories[i] + [Entry(c.command.key.value, c.command.fingerprint, a.receipts)]
    ensures r.answers[i].Conflict? || r.answers[i].Replayed? ==>
              !r.calls[i].transactional && r.calls[i].command.key.Some?
  {
    assert AnsweredAt(r, i, n);
    AppendNothing(r.histories[i]);
  }

  /** Where the fingerprint tells the data, a replay has one receipt for each event of the call that it answers. */
  lemma ReplayIsComplete(r: Run, i: nat, n: nat)
    requires Obeys(r, n) && i < |r.calls| && r.answers[i].Replayed?
    requires forall c, d :: c in r.calls && d in r.calls && c.command.fingerprint == d.command.fingerprint ==>
        c.command.events == d.command.events
    ensures var receipts, events := r.answers[i].receipts, r.calls[i].command.events;
            |receipts| == |events| && forall k :: 0 <= k < |events| ==> receipts[k].event == events[k]
  {
    var j := ReplayIsOriginal(r, i, n);
    PublishedMeaning(r, j, n);
    assert r.calls[j] in r.calls && r.calls[i] in r.calls;
  }

  // ------------------------------------------------------------ dead letters

  /** A dead letter: its key is made of the event and the attempt, its data also has the time at which it was made. */
  datatype Letter = Letter(event: Text, attempt: Text, producedAt: Text)

  function LetterKey(l: Letter): Text {
    "dead-letter-" + l.event + "-" + l.attempt
  }

  /** Different deliveries have different letters: an attempt is printed without a dash. */
  lemma LetterKeysDiffer(l: Letter, m: Letter)
    requires '-' !in l.attempt && '-' !in m.attempt
    ensures LetterKey(l) == LetterKey(m) <==> l.event == m.event && l.attempt == m.attempt
  {
    if LetterKey(l) == LetterKey(m) {
      var head := "dead-letter-";
      var a, b := l.event + "-" + l.attempt, m.event + "-" + m.attempt;
      assert LetterKey(l) == head + a && LetterKey(m) == head + b;
      assert a == (head + a)[|head|..] && b == (head + b)[|head|..];
      LastDash(l.event, l.attempt, m.event, m.attempt);
    }
  }

  lemma LastDash(a: Text, x: Text, b: Text, y: Text)
    requires a + "-" + x == b + "-" + y && '-' !in x && '-' !in y
    ensures a == b && x == y
  {
    var s, t := a + "-" + x, b + "-" + y;
    assert s[|a|] == '-' && t[|b|] == '-';
    NoDashAfter(a, x);
    NoDashAfter(b, y);
    assert a == s[..|a|] && b == t[..|b|] && x == s[|a| + 1..] && y == t[|b| + 1..];
  }

  lemma NoDashAfter(a: Text, x: Text)
    requires '-' !in x
    ensures forall i :: |a| < i < |a + "-" + x| ==> (a + "-" + x)[i] != '-'
  {
    forall i | |a| < i < |a + "-" + x| ensures (a + "-" + x)[i] != '-' {
      assert (a + "-" + x)[i] == x[i - |a| - 1];
    }
  }

  ghost predicate IsLetter(c: Call, l: Letter, mark: Letter -> Text) {
    !c.transactional && c.command.key == Some(LetterKey(l)) && c.command.fingerprint == mark(l)
  }

  /** A dead letter was written, but its delivery could not be acknowledged. The retry makes the letter anew, at another
      time, and is refused until n other keys were accepted. */
  lemma LetterRetryRefused(r: Run, i: nat, j: nat, n: nat, l: Letter, again: Letter, mark: Letter -> Text)
      returns (between: seq<Entry>)
    requires Obeys(r, n) && i < j < |r.calls| && Accepts(r.answers[i])
    requires IsLetter(r.calls[i], l, mark) && IsLetter(r.calls[j], again, mark)
    requires again.event == l.event && again.attempt == l.attempt && again.producedAt != l.producedAt
    requires forall a, b :: mark(a) == mark(b) ==> a == b
    ensures r.histories[j] == r.histories[i + 1] + between && (|KeysOf(between)| < n ==> r.answers[j] == Conflict)
  {
    between := BoundAnswer(r, i, j, n);
    assert mark(l) != mark(again);
  }
}
