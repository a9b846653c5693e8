/** Position maps as tokens and fingerprints carry them: partitions printed as decimal strings. */
module Positions {
  import opened Basics

  // ------------------------------------------------------------ decimal numbers

  function Figure(d: nat): char
    requires d < 10
  {
    ('0' as int + d) as char
  }

  predicate IsFigure(c: char) {
    '0' <= c <= '9'
  }

  function Str(n: nat): Text {
    if n < 10 then [Figure(n)] else Str(n / 10) + [Figure(n % 10)]
  }

  /** A non-empty string of figures; leading zeros are allowed, as `int` allows them. */
  predicate IsNumber(s: Text) {
    s != [] && forall c :: c in s ==> IsFigure(c)
  }

  function FigureValue(c: char): nat
    requires IsFigure(c)
  {
    c as int - '0' as int
  }

  function Int(s: Text): nat
    requires forall c :: c in s ==> IsFigure(c)
  {
    if s == [] then 0 else Int(s[..|s| - 1]) * 10 + FigureValue(s[|s| - 1])
  }

  lemma {:induction false} IntStr(n: nat)
    ensures IsNumber(Str(n)) && Int(Str(n)) == n
  {
    if n >= 10 {
      IntStr(n / 10);
      var s := Str(n);
      assert s[..|s| - 1] == Str(n / 10);
    } else {
      assert Str(n)[..0] == [];
    }
  }

  lemma StrInjective(m: nat, n: nat)
    requires Str(m) == Str(n)
    ensures m == n
  {
    IntStr(m);
    IntStr(n);
  }

  // ------------------------------------------------------------ printing and parsing

  const MAX_POSITIONS: nat := 128

  function Printed(positions: map<nat, nat>): map<Text, nat> {
    AllInjective();
    map p | p in positions :: Str(p) := positions[p]
  }

  lemma AllInjective()
    ensures forall m: nat, n: nat {:trigger Str(m), Str(n)} :: Str(m) == Str(n) ==> m == n
  {
    forall m: nat, n: nat | Str(m) == Str(n) ensures m == n {
      StrInjective(m, n);
    }
  }

  lemma PrintedAt(positions: map<nat, nat>, p: nat)
    requires p in positions
    ensures Str(p) in Printed(positions) && Printed(positions)[Str(p)] == positions[p]
  {
    AllInjective();
  }

  lemma PrintedInjective(a: map<nat, nat>, b: map<nat, nat>)
    requires Printed(a) == Printed(b)
    ensures a == b
  {
    AllInjective();
    forall p | p in a ensures p in b && b[p] == a[p] { assert Str(p) in Printed(a); }
    forall p | p in b ensures p in a { assert Str(p) in Printed(b); }
  }

  /** A member of the positions object: its key, and its value if that is an integer. */
  datatype Item = Item(key: Text, value: int)

  /** The members are read in order; a key that spells the same number again replaces the earlier entry. */
  function Parsed(items: seq<Item>): Option<map<nat, nat>> {
    if items == [] then Some(map[])
    else
      var rest, last := Parsed(items[..|items| - 1]), items[|items| - 1];
      if rest.None? || !IsNumber(last.key) || last.value < 0 then None
      else Some(rest.value[Int(last.key) := last.value])
  }

  function Checked(positions: map<nat, nat>): Option<map<nat, nat>> {
    if 1 <= |positions| <= MAX_POSITIONS then Some(positions) else None
  }

  method ParsePositions(items: seq<Item>) returns (r: Option<map<nat, nat>>)
    ensures r == if Parsed(items).None? then None else Checked(Parsed(items).value)
  {
    var parsed: map<nat, nat> := map[];
    for i := 0 to |items|
      invariant Parsed(items[..i]) == Some(parsed)
    {
      var item := items[i];
      assert items[..i + 1][..i] == items[..i];
      if !IsNumber(item.key) || item.value < 0 {
        StaysNone(items, i + 1);
        return None;
      }
      parsed := parsed[Int(item.key) := item.value];
    }
    assert items[..|items|] == items;
    r := Checked(parsed);
  }

  lemma {:induction false} StaysNone(items: seq<Item>, i: nat)
    requires i <= |items| && Parsed(items[..i]).None?
    ensures Parsed(items).None?
    decreases |items|
  {
    if i < |items| {
      assert items[..|items| - 1][..i] == items[..i];
      StaysNone(items[..|items| - 1], i);
    } else {
      assert items[..i] == items;
    }
  }

  /** The members, in any order, print every entry of the map and nothing else. */
  ghost predicate Lists(items: seq<Item>, positions: map<nat, nat>) {
    && (forall i :: 0 <= i < |items| ==> IsEntry(items[i], positions))
    && (forall p :: p in positions ==> Item(Str(p), positions[p]) in items)
  }

  ghost predicate IsEntry(item: Item, positions: map<nat, nat>) {
    exists p :: p in positions && item == Item(Str(p), positions[p])
  }

  /** What the first n members, all of them entries of the map, have put into the result. */
  ghost predicate Agrees(r: Option<map<nat, nat>>, items: seq<Item>, positions: map<nat, nat>, n: nat)
    requires n <= |items|
  {
    && r.Some?
    && (forall p :: p in r.value ==> p in positions && r.value[p] == positions[p])
    && (forall p, i :: p in positions && 0 <= i < n && items[i].key == Str(p) ==> p in r.value)
  }

  lemma {:induction false} ParsedPrefix(items: seq<Item>, positions: map<nat, nat>, n: nat)
    requires Lists(items, positions) && n <= |items|
    ensures Agrees(Parsed(items[..n]), items, positions, n)
  {
    if n > 0 {
      ParsedPrefix(items, positions, n - 1);
      var p := PrintedBy(items, positions, n - 1);
      ParsedStep(items, n, p);
      AgreesStep(Parsed(items[..n - 1]), items, positions, n, p);
    }
  }

  lemma PrintedBy(items: seq<Item>, positions: map<nat, nat>, i: nat) returns (p: nat)
    requires Lists(items, positions) && i < |items|
    ensures p in positions && items[i] == Item(Str(p), positions[p])
  {
    assert IsEntry(items[i], positions);
    p :| p in positions && items[i] == Item(Str(p), positions[p]);
  }

  lemma ParsedStep(items: seq<Item>, n: nat, p: nat)
    requires 0 < n <= |items| && Parsed(items[..n - 1]).Some? && items[n - 1].key == Str(p) && items[n - 1].value >= 0
    ensures Parsed(items[..n]) == Some(Parsed(items[..n - 1]).value[p := items[n - 1].value])
  {
    IntStr(p);
    var s := items[..n];
    assert s[..|s| - 1] == items[..n - 1];
  }

  lemma AgreesStep(r: Option<map<nat, nat>>, items: seq<Item>, positions: map<nat, nat>, n: nat, p: nat)
    requires 0 < n <= |items| && Agrees(r, items, positions, n - 1)
    requires p in positions && items[n - 1] == Item(Str(p), positions[p])
    ensures Agrees(Some(r.value[p := positions[p]]), items, positions, n)
  {
    AllInjective();
  }

  /** Parsing what was printed gives back the map, whatever order the members come in. */
  lemma ParseInverts(items: seq<Item>, positions: map<nat, nat>)
    requires Lists(items, positions)
    ensures Parsed(items) == Some(positions)
  {
    ParsedPrefix(items, positions, |items|);
    assert items[..|items|] == items;
    forall p | p in positions ensures p in Parsed(items).value {
      var i :| 0 <= i < |items| && items[i] == Item(Str(p), positions[p]);
    }
    SameMap(Parsed(items).value, positions);
  }

  lemma SameMap(r: map<nat, nat>, positions: map<nat, nat>)
    requires forall p :: p in r ==> p in positions && r[p] == positions[p]
    requires forall p :: p in positions ==> p in r
    ensures r == positions
  {
  }

  // ------------------------------------------------------------ fingerprints

  /** The fingerprint hash, taken as a function of the topic and the printed map that has no collisions. */
  type Hash = (Text, map<Text, nat>) -> Text

  ghost predicate CollisionFree(h: Hash) {
    forall t, a, u, b :: h(t, a) == h(u, b) ==> t == u && a == b
  }

  function Fingerprint(h: Hash, topic: Text, positions: map<nat, nat>): Text {
    h(topic, Printed(positions))
  }

  lemma FingerprintInjective(h: Hash, topic: Text, a: map<nat, nat>, b: map<nat, nat>)
    requires CollisionFree(h) && Fingerprint(h, topic, a) == Fingerprint(h, topic, b)
    ensures a == b
  {
    assert h(topic, Printed(a)) == h(topic, Printed(b));
    PrintedInjective(a, b);
  }
}
