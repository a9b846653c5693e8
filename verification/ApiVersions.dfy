/** The ApiVersions probe: framing over a socket that delivers in pieces, the version 0 response, and version
    negotiation. */
module ApiVersions {
  import opened Basics

  // ------------------------------------------------------------ big-endian integers

  function Power(n: nat): nat {
    if n == 0 then 1 else 256 * Power(n - 1)
  }

  function Unsigned(b: seq<byte>): nat {
    if b == [] then 0 else Unsigned(b[..|b| - 1]) * 256 + b[|b| - 1]
  }

  /** Two's complement. */
  function Signed(b: seq<byte>): int {
    if b != [] && b[0] >= 128 then Unsigned(b) - Power(|b|) else Unsigned(b)
  }

  function Big(v: nat, size: nat): seq<byte> {
    if size == 0 then [] else Big(v / 256, size - 1) + [v % 256]
  }

  lemma {:induction false} BigUnsigned(v: nat, size: nat)
    ensures |Big(v, size)| == size
    ensures v < Power(size) ==> Unsigned(Big(v, size)) == v
  {
    if size > 0 {
      BigUnsigned(v / 256, size - 1);
      var b := Big(v, size);
      assert b[..|b| - 1] == Big(v / 256, size - 1);
    }
  }

  lemma {:induction false} UnsignedBig(b: seq<byte>)
    ensures Unsigned(b) < Power(|b|) && Big(Unsigned(b), |b|) == b
  {
    if b != [] {
      var rest, last := b[..|b| - 1], b[|b| - 1];
      UnsignedBig(rest);
      assert (Unsigned(rest) * 256 + last) / 256 == Unsigned(rest) && (Unsigned(rest) * 256 + last) % 256 == last;
      assert b == rest + [last];
    }
  }

  lemma {:induction false} TopBit(b: seq<byte>)
    requires b != []
    ensures b[0] >= 128 <==> Unsigned(b) >= 128 * Power(|b| - 1)
  {
    var rest, last := b[..|b| - 1], b[|b| - 1];
    if |b| > 1 {
      TopBit(rest);
      assert Power(|b| - 1) == 256 * Power(|rest| - 1);
    } else {
      assert Unsigned(rest) == 0;
    }
  }

  /** The bytes that read as a number that is not negative are those that print it. */
  lemma SignedExact(b: seq<byte>, v: nat)
    requires b != []
    ensures Signed(b) == v <==> v < 128 * Power(|b| - 1) && b == Big(v, |b|)
  {
    TopBit(b);
    UnsignedBig(b);
    BigUnsigned(v, |b|);
    assert Power(|b|) == 256 * Power(|b| - 1);
  }

  lemma Sizes()
    ensures Power(1) == 256 && Power(2) == 65_536 && Power(3) == 16_777_216 && Power(4) == 4_294_967_296
  {
    assert Power(1) == 256 * Power(0);
    assert Power(2) == 256 * Power(1);
    assert Power(3) == 256 * Power(2);
  }

  const INT16: nat := 32_768
  const INT32: nat := 2_147_483_648

  lemma Signed16(b: seq<byte>, v: nat)
    requires |b| == 2
    ensures Signed(b) == v <==> v < INT16 && b == Big(v, 2)
  {
    Sizes();
    SignedExact(b, v);
  }

  lemma Signed32(b: seq<byte>, v: nat)
    requires |b| == 4
    ensures Signed(b) == v <==> v < INT32 && b == Big(v, 4)
  {
    Sizes();
    SignedExact(b, v);
  }

  // ------------------------------------------------------------ the reader

  class Reader {
    const data: seq<byte>
    var offset: nat

    ghost predicate Valid()
      reads this
    {
      offset <= |data|
    }

    constructor (data: seq<byte>)
      ensures this.data == data && offset == 0 && Valid()
    {
      this.data, offset := data, 0;
    }

    method Take(size: int) returns (r: Option<seq<byte>>)
      requires Valid()
      modifies this
      ensures Valid()
      ensures r.Some? <==> 0 <= size <= |data| - old(offset)
      ensures offset == if r.Some? then old(offset) + size else old(offset)
      ensures r.Some? ==> r.value == data[old(offset)..offset]
    {
      if size < 0 || offset + size > |data| { return None; }
      r := Some(data[offset..offset + size]);
      offset := offset + size;
    }

    method Integer(size: nat) returns (r: Option<int>)
      requires Valid()
      modifies this
      ensures Valid()
      ensures r.Some? <==> size <= |data| - old(offset)
      ensures if r.Some? then offset == old(offset) + size && r.value == Signed(data[old(offset)..offset])
              else offset == old(offset)
    {
      var b := Take(size);
      r := if b.None? then None else Some(Signed(b.value));
    }
  }

  // ------------------------------------------------------------ the response

  datatype Range = Range(key: int, minimum: int, maximum: int)

  predicate RangeOk(r: Range) {
    0 <= r.key && 0 <= r.minimum <= r.maximum
  }

  /** What fits into the two bytes of each field. */
  predicate Fits(r: Range) {
    RangeOk(r) && r.key < INT16 && r.maximum < INT16
  }

  const MAX_RANGES: nat := 1_000

  predicate Listable(list: seq<Range>) {
    && 1 <= |list| <= 1_000
    && AllFit(list)
    && DistinctKeys(list)
  }

  function PrintRange(r: Range): seq<byte>
    requires Fits(r)
  {
    Big(r.key, 2) + Big(r.minimum, 2) + Big(r.maximum, 2)
  }

  function PrintAll(list: seq<Range>): seq<byte>
    requires AllFit(list)
  {
    if list == [] then [] else PrintAll(list[..|list| - 1]) + PrintRange(list[|list| - 1])
  }

  /** No error, the number of ranges, the ranges. */
  function Print(list: seq<Range>): seq<byte>
    requires Listable(list)
  {
    Big(0, 2) + Big(|list|, 4) + PrintAll(list)
  }

  function AsMap(list: seq<Range>): map<int, (int, int)> {
    if list == [] then map[]
    else var last := list[|list| - 1]; AsMap(list[..|list| - 1])[last.key := (last.minimum, last.maximum)]
  }

  ghost predicate Encodes(data: seq<byte>, list: seq<Range>) {
    Listable(list) && data == Print(list)
  }

  /** The range that stands at place i. */
  function RangeAt(data: seq<byte>, i: nat): Range
    requires 12 + 6 * i <= |data|
  {
    var at := 6 + 6 * i;
    Range(Signed(data[at..at + 2]), Signed(data[at + 2..at + 4]), Signed(data[at + 4..at + 6]))
  }

  lemma RangeExact(b: seq<byte>, r: Range)
    requires |b| == 6 && RangeOk(r)
    ensures Range(Signed(b[..2]), Signed(b[2..4]), Signed(b[4..6])) == r <==> Fits(r) && b == PrintRange(r)
  {
    Signed16(b[..2], r.key);
    Signed16(b[2..4], r.minimum);
    Signed16(b[4..6], r.maximum);
    BigUnsigned(r.key, 2);
    BigUnsigned(r.minimum, 2);
    BigUnsigned(r.maximum, 2);
    ThreePairs(b, Big(r.key, 2), Big(r.minimum, 2), Big(r.maximum, 2));
  }

  lemma ThreePairs(b: seq<byte>, x: seq<byte>, y: seq<byte>, z: seq<byte>)
    requires |b| == 6 && |x| == |y| == |z| == 2
    ensures b == x + y + z <==> b[..2] == x && b[2..4] == y && b[4..6] == z
  {
    if b[..2] == x && b[2..4] == y && b[4..6] == z { assert b == b[..2] + b[2..4] + b[4..6]; }
  }

  lemma {:induction false} PrintAllAt(list: seq<Range>, i: nat)
    requires i < |list| && AllFit(list)
    ensures |PrintAll(list)| == 6 * |list| && PrintAll(list)[6 * i..6 * i + 6] == PrintRange(list[i])
    decreases |list|
  {
    var rest, last := list[..|list| - 1], list[|list| - 1];
    PrintRangeSize(last);
    if rest == [] {
      assert PrintAll(list) == PrintRange(last);
    } else {
      PrintAllAt(rest, if i < |rest| then i else 0);
      if i < |rest| { assert PrintAll(list)[6 * i..6 * i + 6] == PrintAll(rest)[6 * i..6 * i + 6]; }
    }
  }

  lemma PrintRangeSize(r: Range)
    requires Fits(r)
    ensures |PrintRange(r)| == 6
  {
    BigUnsigned(r.key, 2);
    BigUnsigned(r.minimum, 2);
    BigUnsigned(r.maximum, 2);
  }

  lemma PrintShape(list: seq<Range>)
    requires Listable(list)
    ensures var data := Print(list);
            && |data| == 6 + 6 * |list| && data[..2] == Big(0, 2) && data[2..6] == Big(|list|, 4)
            && data[6..] == PrintAll(list)
  {
    BigUnsigned(0, 2);
    BigUnsigned(|list|, 4);
    PrintAllAt(list, 0);
  }

  /** What a reader finds in the printed response. */
  lemma PrintReads(data: seq<byte>, list: seq<Range>, i: nat)
    requires Encodes(data, list) && i < |list|
    ensures |data| == 6 + 6 * |list| && Signed(data[..2]) == 0 && Signed(data[2..6]) == |list|
    ensures RangeAt(data, i) == list[i]
  {
    PrintShape(list);
    Signed16(data[..2], 0);
    Signed32(data[2..6], |list|);
    PrintAllAt(list, i);
    var at := 6 + 6 * i;
    assert data[at..at + 6] == data[6..][6 * i..6 * i + 6];
    RangeBytes(data, i, list[i]);
  }

  lemma SliceOfSlice(data: seq<byte>, at: nat, i: nat, j: nat)
    requires i <= j <= 6 && at + 6 <= |data|
    ensures data[at..at + 6][i..j] == data[at + i..at + j]
  {
    var a, b := data[at..at + 6][i..j], data[at + i..at + j];
    assert forall k :: 0 <= k < j - i ==> a[k] == data[at + i + k] && b[k] == data[at + i + k];
  }

  lemma RangeBytes(data: seq<byte>, i: nat, r: Range)
    requires 12 + 6 * i <= |data| && RangeOk(r)
    ensures RangeAt(data, i) == r <==> Fits(r) && data[6 + 6 * i..12 + 6 * i] == PrintRange(r)
  {
    var b := data[6 + 6 * i..12 + 6 * i];
    SliceOfSlice(data, 6 + 6 * i, 0, 2);
    SliceOfSlice(data, 6 + 6 * i, 2, 4);
    SliceOfSlice(data, 6 + 6 * i, 4, 6);
    assert b[0..2] == b[..2];
    RangeExact(b, r);
  }

  /** The ranges read so far: they stand in the data one after the other, and they are in order. */
  ghost predicate ReadSoFar(data: seq<byte>, list: seq<Range>) {
    && 6 + 6 * |list| <= |data|
    && (forall i :: 0 <= i < |list| ==> Stands(data, i, list[i]))
    && DistinctKeys(list)
  }

  ghost predicate Stands(data: seq<byte>, i: nat, r: Range)
    requires 12 + 6 * i <= |data|
  {
    RangeOk(r) && r == RangeAt(data, i)
  }

  predicate DistinctKeys(list: seq<Range>) {
    forall i, j :: 0 <= i < j < |list| ==> list[i].key != list[j].key
  }

  predicate AllFit(list: seq<Range>) {
    forall i :: 0 <= i < |list| ==> Fits(list[i])
  }

  lemma ReadFits(data: seq<byte>, list: seq<Range>)
    requires ReadSoFar(data, list)
    ensures AllFit(list)
  {
    forall i | 0 <= i < |list| ensures Fits(list[i]) {
      assert Stands(data, i, list[i]);
      RangeBytes(data, i, list[i]);
    }
  }

  lemma {:induction false} ReadsPrintAll(data: seq<byte>, list: seq<Range>, n: nat)
    requires ReadSoFar(data, list) && AllFit(list) && n <= |list|
    ensures data[6..6 + 6 * n] == PrintAll(list[..n])
  {
    if n > 0 {
      ReadsPrintAll(data, list, n - 1);
      assert Stands(data, n - 1, list[n - 1]);
      RangeBytes(data, n - 1, list[n - 1]);
      PrintAllStep(data[6..6 * n], data[6 * n..6 + 6 * n], list, n);
      SplitSlice(data, 6, 6 * n, 6 + 6 * n);
    }
  }

  lemma SplitSlice(data: seq<byte>, i: nat, j: nat, k: nat)
    requires i <= j <= k <= |data|
    ensures data[i..k] == data[i..j] + data[j..k]
  {
  }

  lemma PrintAllStep(a: seq<byte>, b: seq<byte>, list: seq<Range>, n: nat)
    requires 0 < n <= |list| && AllFit(list) && a == PrintAll(list[..n - 1]) && b == PrintRange(list[n - 1])
    ensures a + b == PrintAll(list[..n])
  {
    var s := list[..n];
    assert s[..|s| - 1] == list[..n - 1] && s[|s| - 1] == list[n - 1];
  }

  /** Nothing else reads like that. */
  lemma ReadsEncode(data: seq<byte>, list: seq<Range>)
    requires |data| >= 6 && Signed(data[..2]) == 0 && Signed(data[2..6]) == |list| && 1 <= |list| <= MAX_RANGES
    requires ReadSoFar(data, list) && |data| == 6 + 6 * |list|
    ensures Encodes(data, list)
  {
    Signed16(data[..2], 0);
    Signed32(data[2..6], |list|);
    ReadFits(data, list);
    ReadsPrintAll(data, list, |list|);
    assert list[..|list|] == list;
    assert data == data[..2] + data[2..6] + data[6..6 + 6 * |list|];
  }

  lemma {:induction false} AsMapKeys(list: seq<Range>, key: int)
    ensures key in AsMap(list) <==> exists i :: 0 <= i < |list| && list[i].key == key
  {
    if list != [] {
      var n := |list| - 1;
      AsMapKeys(list[..n], key);
      if list[n].key != key && key in AsMap(list[..n]) {
        var i :| 0 <= i < n && list[..n][i].key == key;
        assert list[i].key == key;
      }
    }
  }

  /** A range that cannot be next: then nothing that could have been printed is being read. */
  lemma NotEncoded(data: seq<byte>, list: seq<Range>, r: Range)
    requires ReadSoFar(data, list) && 12 + 6 * |list| <= |data| && r == RangeAt(data, |list|)
    requires Signed(data[2..6]) > |list|
    requires !RangeOk(r) || r.key in AsMap(list)
    ensures forall other :: !Encodes(data, other)
  {
    forall other ensures !Encodes(data, other) {
      if Encodes(data, other) {
        PrintReads(data, other, 0);
        PrintReads(data, other, |list|);
        if r.key in AsMap(list) {
          AsMapKeys(list, r.key);
          var i :| 0 <= i < |list| && list[i].key == r.key;
          PrintReads(data, other, i);
        }
      }
    }
  }

  lemma OneList(data: seq<byte>, list: seq<Range>, other: seq<Range>)
    requires Encodes(data, list) && Encodes(data, other)
    ensures list == other
  {
    PrintReads(data, list, 0);
    PrintReads(data, other, 0);
    forall i | 0 <= i < |list| ensures list[i] == other[i] {
      PrintReads(data, list, i);
      PrintReads(data, other, i);
    }
  }

  method ReadRange(reader: Reader, ghost i: nat) returns (r: Option<Range>)
    requires reader.Valid() && reader.offset == 6 + 6 * i
    modifies reader
    ensures reader.Valid()
    ensures r.Some? <==> 12 + 6 * i <= |reader.data|
    ensures r.Some? ==> reader.offset == 12 + 6 * i && r.value == RangeAt(reader.data, i)
  {
    var key := reader.Integer(2);
    if key.None? { return None; }
    var minimum := reader.Integer(2);
    if minimum.None? { return None; }
    var maximum := reader.Integer(2);
    if maximum.None? { return None; }
    r := Some(Range(key.value, minimum.value, maximum.value));
  }

  lemma Unencoded(data: seq<byte>)
    requires |data| >= 6 && Signed(data[..2]) == 0 && 1 <= Signed(data[2..6]) <= MAX_RANGES ==>
        |data| != 6 + 6 * Signed(data[2..6])
    ensures forall list :: !Encodes(data, list)
  {
    forall list ensures !Encodes(data, list) {
      if Encodes(data, list) { PrintReads(data, list, 0); }
    }
  }

  /** The parser accepts exactly what is printed from a list of valid ranges with distinct keys, and returns that
      list. */
  method ParseApiVersions(data: seq<byte>) returns (r: Option<map<int, (int, int)>>)
    ensures r.Some? ==> exists list :: Encodes(data, list) && r.value == AsMap(list)
    ensures forall list :: Encodes(data, list) ==> r == Some(AsMap(list))
  {
    var reader := new Reader(data);
    var header := ReadHeader(reader);
    if header.None? {
      Unencoded(data);
      return None;
    }
    var result, list := ReadRanges(reader, header.value);
    if result.None? { return None; }
    if reader.offset != |data| {
      Unencoded(data);
      return None;
    }
    ReadsEncode(data, list);
    forall other | Encodes(data, other) ensures other == list { OneList(data, other, list); }
    r := result;
  }

  /** The ranges, one after the other, until one is cut short or invalid or has a key that is already there. */
  method ReadRanges(reader: Reader, count: nat) returns (r: Option<map<int, (int, int)>>, ghost list: seq<Range>)
    requires reader.Valid() && reader.offset == 6 && 1 <= count <= MAX_RANGES && Signed(reader.data[2..6]) == count
    modifies reader
    ensures r.Some? ==>
        |list| == count && ReadSoFar(reader.data, list) && r.value == AsMap(list) && reader.offset == 6 + 6 * count
    ensures r.None? ==> forall other :: !Encodes(reader.data, other)
  {
    list := [];
    var result: map<int, (int, int)> := map[];
    for i := 0 to count
      invariant reader.Valid() && reader.offset == 6 + 6 * i
      invariant |list| == i && ReadSoFar(reader.data, list) && result == AsMap(list)
    {
      var range := ReadRange(reader, i);
      if range.None? {
        Unencoded(reader.data);
        return None, [];
      }
      if !RangeOk(range.value) || range.value.key in result {
        NotEncoded(reader.data, list, range.value);
        return None, [];
      }
      ReadMore(reader.data, list, range.value);
      list := list + [range.value];
      result := result[range.value.key := (range.value.minimum, range.value.maximum)];
    }
    r := Some(result);
  }

  lemma ReadMore(data: seq<byte>, list: seq<Range>, r: Range)
    requires ReadSoFar(data, list) && 12 + 6 * |list| <= |data| && r == RangeAt(data, |list|)
    requires RangeOk(r) && r.key !in AsMap(list)
    ensures ReadSoFar(data, list + [r]) && AsMap(list + [r]) == AsMap(list)[r.key := (r.minimum, r.maximum)]
  {
    var more := list + [r];
    assert more[..|list|] == list && more[|list|] == r;
    DistinctMore(list, r);
    forall i | 0 <= i < |more| ensures Stands(data, i, more[i]) {
      if i < |list| { assert more[i] == list[i]; }
    }
  }

  lemma DistinctMore(list: seq<Range>, r: Range)
    requires DistinctKeys(list) && r.key !in AsMap(list)
    ensures DistinctKeys(list + [r])
  {
    var more := list + [r];
    forall i, j | 0 <= i < j < |more| ensures more[i].key != more[j].key {
      AsMapKeys(list, r.key);
      assert more[i] == list[i];
    }
  }

  /** The error code and the number of ranges. */
  method ReadHeader(reader: Reader) returns (count: Option<nat>)
    requires reader.Valid() && reader.offset == 0
    modifies reader
    ensures reader.Valid()
    ensures var data := reader.data;
            count.Some? <==> |data| >= 6 && Signed(data[..2]) == 0 && 1 <= Signed(data[2..6]) <= MAX_RANGES
    ensures count.Some? ==> count.value == Signed(reader.data[2..6]) && reader.offset == 6
  {
    var error := reader.Integer(2);
    if error.None? || error.value != 0 { return None; }
    var n := reader.Integer(4);
    if n.None? || !(1 <= n.value <= MAX_RANGES) { return None; }
    count := Some(n.value);
  }

  // ------------------------------------------------------------ the connection

  /** What a call of recv meets: at most so many bytes at once, or the deadline. */
  datatype Arrival = Piece(size: nat) | Deadline

  /** The name of the client, "meridian-probe", with its length. */
  const CLIENT: seq<byte> := [0, 14, 109, 101, 114, 105, 100, 105, 97, 110, 45, 112, 114, 111, 98, 101]

  function RequestFrame(key: nat, version: nat, correlation: nat, body: seq<byte>): seq<byte> {
    var payload := Big(key, 2) + Big(version, 2) + Big(correlation, 4) + CLIENT + body;
    Big(|payload|, 4) + payload
  }

  const NAME: string := "meridian-probe"

  lemma ClientSpelled()
    ensures |CLIENT| == 16 && Signed(CLIENT[..2]) == |NAME| == 14
    ensures forall i :: 0 <= i < 14 ==> CLIENT[2..][i] == NAME[i] as int
  {
    var size := CLIENT[..2];
    assert size[..1] == [0] && size[..1][..0] == [];
    assert Unsigned(size[..1]) == 0;
  }

  /** What the broker reads in a request: its length, the API and the version that are asked for, the correlation, the
      name of the client behind its length, and the body. */
  lemma RequestReads(key: nat, version: nat, correlation: nat, body: seq<byte>)
    requires key < INT16 && version < INT16 && correlation < INT32 && Sendable(body)
    ensures var f := RequestFrame(key, version, correlation, body);
            && |f| == 28 + |body| && Signed(f[..4]) == |f| - 4
            && Signed(f[4..6]) == key && Signed(f[6..8]) == version && Signed(f[8..12]) == correlation
            && Signed(f[12..14]) == |NAME| && (forall i :: 0 <= i < |NAME| ==> f[14..28][i] == NAME[i] as int)
            && f[28..] == body
  {
    BigUnsigned(24 + |body|, 4);
    BigUnsigned(key, 2);
    BigUnsigned(version, 2);
    BigUnsigned(correlation, 4);
    ClientSpelled();
    var f := RequestFrame(key, version, correlation, body);
    SixParts(f, Big(24 + |body|, 4), Big(key, 2), Big(version, 2), Big(correlation, 4), CLIENT, body);
    Signed32(f[..4], 24 + |body|);
    Signed16(f[4..6], key);
    Signed16(f[6..8], version);
    Signed32(f[8..12], correlation);
  }

  lemma SixParts(f: seq<byte>, size: seq<byte>, key: seq<byte>, version: seq<byte>, correlation: seq<byte>,
                 name: seq<byte>, body: seq<byte>)
    requires |size| == 4 && |key| == 2 && |version| == 2 && |correlation| == 4 && |name| == 16
    requires f == size + (key + version + correlation + name + body)
    ensures |f| == 28 + |body| && f[..4] == size && f[4..6] == key && f[6..8] == version && f[8..12] == correlation
    ensures f[12..14] == name[..2] && f[14..28] == name[2..] && f[28..] == body
  {
  }

  predicate Sendable(body: seq<byte>) {
    24 + |body| < INT32
  }

  const MAX_FRAME: nat := 1_048_576

  /** `incoming` is all that the broker sends before it closes; `arrivals` is how it arrives. */
  class Connection {
    var incoming: seq<byte>
    var arrivals: seq<Arrival>
    var sent: seq<byte>
    var correlation: nat

    constructor (incoming: seq<byte>, arrivals: seq<Arrival>)
      ensures this.incoming == incoming && this.arrivals == arrivals && sent == [] && correlation == 0
    {
      this.incoming, this.arrivals, sent, correlation := incoming, arrivals, [], 0;
    }

    /** At least one byte, unless the broker has closed; the deadline passes when the arrivals are used up. */
    method Receive(limit: nat) returns (r: Option<seq<byte>>)
      requires limit > 0
      modifies this`incoming, this`arrivals
      ensures r.Some? ==> old(incoming) == r.value + incoming && |r.value| <= limit && |arrivals| < |old(arrivals)|
      ensures r.Some? && r.value == [] ==> old(incoming) == []
      ensures r.None? <==> old(arrivals) == [] || old(arrivals)[0].Deadline?
      ensures r.None? ==> incoming == old(incoming)
      ensures r.Some? ==> arrivals == old(arrivals)[1..]
    {
      if arrivals == [] || arrivals[0].Deadline? { return None; }
      var n := if arrivals[0].size == 0 then 1 else arrivals[0].size;
      n := if n > limit then limit else n;
      n := if n > |incoming| then |incoming| else n;
      r := Some(incoming[..n]);
      incoming := incoming[n..];
      arrivals := arrivals[1..];
    }

    /** The next `size` bytes, however they arrive; nothing beyond them is taken. */
    method Read(size: nat) returns (r: Option<seq<byte>>)
      modifies this`incoming, this`arrivals
      ensures r.Some? ==> |r.value| == size && old(incoming) == r.value + incoming
      ensures r.None? ==> |old(incoming)| < size || Late(old(arrivals), size)
      ensures r.Some? ==> exists k :: 0 <= k <= size && k <= |old(arrivals)| && arrivals == old(arrivals)[k..]
    {
      var chunks: seq<byte> := [];
      ghost var taken: nat := 0;
      while |chunks| < size
        invariant old(incoming) == chunks + incoming && |chunks| <= size
        invariant taken <= |chunks| && taken <= |old(arrivals)| && arrivals == old(arrivals)[taken..]
        decreases size - |chunks|
      {
        var chunk := Receive(size - |chunks|);
        if chunk.None? {
          assert LateAt(old(arrivals), taken);
          return None;
        }
        if chunk.value == [] { return None; }
        assert old(incoming) == chunks + chunk.value + incoming;
        chunks := chunks + chunk.value;
        taken := taken + 1;
      }
      r := Some(chunks);
    }

    /** Send a request and take the frame that answers it, unless the deadline passes first. */
    method Request(key: nat, version: nat, body: seq<byte>, onTime: bool) returns (r: Option<seq<byte>>)
      requires key < INT16 && version < INT16
      modifies this
      ensures correlation == old(correlation) + 1
      ensures sent == old(sent) + if onTime && correlation < INT32 && Sendable(body)
                                  then RequestFrame(key, version, correlation, body) else []
      ensures r.Some? ==> Framed(correlation, r.value) && old(incoming) == Frame(correlation, r.value) + incoming
      ensures onTime && Sendable(body) ==>
          forall answer :: Arrives(old(incoming), old(arrivals), correlation, answer) ==> r == Some(answer)
    {
      correlation := correlation + 1;
      if correlation >= INT32 || !onTime || !Sendable(body) { return None; }
      sent := sent + RequestFrame(key, version, correlation, body);
      r := ReadFrame();
    }

    /** Ask for the versions. However the answer arrives, a printed list comes back as that list. */
    method Probe(onTime: bool) returns (r: Option<map<int, (int, int)>>)
      modifies this
      ensures correlation == old(correlation) + 1
      ensures r.Some? ==>
          exists list :: Listable(list) && Answers(old(incoming), correlation, Print(list)) && r.value == AsMap(list)
      ensures onTime ==>
          forall list :: Listable(list) && Arrives(old(incoming), old(arrivals), correlation, Print(list)) ==>
              r == Some(AsMap(list))
    {
      var response := Request(18, 0, [], onTime);
      if response.None? { return None; }
      assert Answers(old(incoming), correlation, response.value);
      r := ParseApiVersions(response.value);
    }

    /** The payload that the length announces, without the correlation at its head. */
    method ReadPayload(head: seq<byte>) returns (r: Option<seq<byte>>)
      requires |head| == 4
      modifies this`incoming, this`arrivals
      ensures r.Some? ==> Framed(correlation, r.value) && head + old(incoming) == Frame(correlation, r.value) + incoming
      ensures forall answer :: PayloadIs(head, old(incoming), correlation, answer) ==>
                                 Late(old(arrivals), 4 + |answer|) || r == Some(answer)
    {
      var size := Signed(head);
      if !(4 <= size <= MAX_FRAME) { return None; }
      var payload := Read(size);
      if payload.None? { return None; }
      assert forall k :: 0 <= k <= size ==> old(incoming)[..k] == payload.value[..k];
      if Signed(payload.value[..4]) != correlation { return None; }
      PartsFrame(correlation, head, payload.value);
      r := Some(payload.value[4..]);
    }

    method ReadFrame() returns (r: Option<seq<byte>>)
      requires correlation < INT32
      modifies this`incoming, this`arrivals
      ensures r.Some? ==> Framed(correlation, r.value) && old(incoming) == Frame(correlation, r.value) + incoming
      ensures forall answer :: Arrives(old(incoming), old(arrivals), correlation, answer) ==> r == Some(answer)
    {
      ghost var all, pieces := incoming, arrivals;
      forall answer | Answers(all, correlation, answer) ensures |all| >= 8 + |answer| {
        FrameParts(correlation, answer);
      }
      var head := Read(4);
      if head.None? {
        forall answer | Answers(all, correlation, answer) ensures Late(pieces, 8 + |answer|) {
          LateMore(pieces, 4, 8 + |answer|);
        }
        return None;
      }
      forall answer | Answers(all, correlation, answer) ensures PayloadIs(head.value, incoming, correlation, answer) {
        AnswerParts(all, correlation, answer, head.value, incoming);
      }
      ghost var left := arrivals;
      r := ReadPayload(head.value);
      ghost var k :| 0 <= k <= 4 && k <= |pieces| && left == pieces[k..];
      forall answer | Answers(all, correlation, answer) && Late(left, 4 + |answer|) ensures Late(pieces, 8 + |answer|) {
        StillLate(pieces, 4, k, 4 + |answer|);
      }
    }
  }

  /** The length and the rest of the data hold that answer. */
  ghost predicate PayloadIs(head: seq<byte>, rest: seq<byte>, correlation: nat, answer: seq<byte>) {
    && |rest| >= 4 + |answer| && 4 + |answer| <= MAX_FRAME
    && Signed(head) == 4 + |answer| && Signed(rest[..4]) == correlation && rest[4..4 + |answer|] == answer
  }

  /** The data begins with the frame of that answer. */
  ghost predicate Answers(incoming: seq<byte>, correlation: nat, answer: seq<byte>) {
    Framed(correlation, answer) && Frame(correlation, answer) <= incoming
  }

  /** That answer is next and is all there before the deadline. */
  ghost predicate Arrives(incoming: seq<byte>, arrivals: seq<Arrival>, correlation: nat, answer: seq<byte>) {
    Answers(incoming, correlation, answer) && !Late(arrivals, 8 + |answer|)
  }

  lemma AnswerParts(all: seq<byte>, correlation: nat, answer: seq<byte>, head: seq<byte>, rest: seq<byte>)
    requires Answers(all, correlation, answer) && all == head + rest && |head| == 4
    ensures PayloadIs(head, rest, correlation, answer)
  {
    FrameParts(correlation, answer);
    var f := Frame(correlation, answer);
    assert head == all[..4] == f[..4];
    assert rest[..4] == all[4..8] == f[4..8];
    assert rest[4..4 + |answer|] == all[8..8 + |answer|] == f[8..];
  }

  lemma LateMore(arrivals: seq<Arrival>, i: nat, j: nat)
    requires Late(arrivals, i) && i <= j
    ensures Late(arrivals, j)
  {
  }

  /** The deadline comes before that many pieces. */
  predicate Late(arrivals: seq<Arrival>, pieces: nat) {
    exists k :: 0 <= k < pieces && LateAt(arrivals, k)
  }

  predicate LateAt(arrivals: seq<Arrival>, k: nat) {
    k >= |arrivals| || arrivals[k].Deadline?
  }

  lemma StillLate(arrivals: seq<Arrival>, k: nat, used: nat, pieces: nat)
    requires used <= k && used <= |arrivals| && Late(arrivals[used..], pieces)
    ensures Late(arrivals, k + pieces)
  {
    var i :| 0 <= i < pieces && LateAt(arrivals[used..], i);
    assert LateAt(arrivals, used + i);
  }

  // ------------------------------------------------------------ frames

  function Frame(correlation: nat, body: seq<byte>): seq<byte> {
    Big(4 + |body|, 4) + Big(correlation, 4) + body
  }

  predicate Framed(correlation: nat, body: seq<byte>) {
    4 + |body| <= 1_048_576 && correlation < INT32
  }

  /** The length, then a payload of that length whose first four bytes are the correlation. */
  lemma FrameParts(correlation: nat, body: seq<byte>)
    requires Framed(correlation, body)
    ensures var f := Frame(correlation, body);
            && |f| == 8 + |body| && Signed(f[..4]) == 4 + |body| && Signed(f[4..8]) == correlation && f[8..] == body
  {
    var f := Frame(correlation, body);
    BigUnsigned(4 + |body|, 4);
    BigUnsigned(correlation, 4);
    assert f[..4] == Big(4 + |body|, 4) && f[4..8] == Big(correlation, 4) && f[8..] == body;
    Signed32(f[..4], 4 + |body|);
    Signed32(f[4..8], correlation);
  }

  lemma PartsFrame(correlation: nat, head: seq<byte>, payload: seq<byte>)
    requires |head| == 4 && 4 <= |payload| <= MAX_FRAME && Signed(head) == |payload|
    requires Signed(payload[..4]) == correlation
    ensures Framed(correlation, payload[4..]) && head + payload == Frame(correlation, payload[4..])
  {
    Signed32(head, |payload|);
    Signed32(payload[..4], correlation);
    assert payload == payload[..4] + payload[4..];
  }

  // ------------------------------------------------------------ negotiation

  datatype Requirement = Requirement(name: string, minimum: nat, maximum: nat)

  const BASE_APIS: map<nat, Requirement> := map[
    0 := Requirement("Produce/record-batch-v2", 3, 10),
    1 := Requirement("Fetch/committed-reads", 4, 16),
    2 := Requirement("ListOffsets/retained-range", 1, 7),
    3 := Requirement("Metadata", 0, 13),
    8 := Requirement("OffsetCommit", 1, 9),
    9 := Requirement("OffsetFetch", 1, 9),
    10 := Requirement("FindCoordinator", 0, 2),
    11 := Requirement("JoinGroup", 0, 5),
    12 := Requirement("Heartbeat", 0, 3),
    13 := Requirement("LeaveGroup", 0, 1),
    14 := Requirement("SyncGroup", 0, 3),
    18 := Requirement("ApiVersions", 0, 0),
    22 := Requirement("InitProducerId/idempotence", 0, 4),
    32 := Requirement("DescribeConfigs/physical-lifecycle", 0, 1)
  ]

  const TRANSACTION_APIS: map<nat, Requirement> := map[
    10 := Requirement("FindCoordinator/transaction", 1, 2),
    24 := Requirement("AddPartitionsToTxn", 0, 0),
    25 := Requirement("AddOffsetsToTxn", 0, 0),
    26 := Requirement("EndTxn", 0, 1),
    28 := Requirement("TxnOffsetCommit/group-generation", 3, 3)
  ]

  type Versions = map<int, (int, int)>

  function Required(transactional: bool): map<nat, Requirement> {
    if transactional then BASE_APIS + TRANSACTION_APIS else BASE_APIS
  }

  /** A version that both sides have. */
  predicate Common(observed: (int, int), need: Requirement, v: int) {
    observed.0 <= v <= observed.1 && need.minimum <= v <= need.maximum
  }

  ghost predicate Meets(observed: (int, int), need: Requirement) {
    0 <= observed.0 && exists v :: Common(observed, need, v)
  }

  /** The highest version that both sides have. */
  ghost predicate Highest(observed: (int, int), need: Requirement, v: int) {
    Common(observed, need, v) && forall w :: Common(observed, need, w) ==> w <= v
  }

  ghost predicate Served(versions: Versions, required: map<nat, Requirement>, key: nat)
    requires key in required
  {
    key in versions && Meets(versions[key], required[key])
  }

  predicate Sane(required: map<nat, Requirement>) {
    forall key :: key in required ==> required[key].minimum <= required[key].maximum
  }

  lemma RequiredSane(transactional: bool)
    ensures Sane(Required(transactional))
  {
  }

  /** The test of one requirement. */
  predicate Passes(observed: (int, int), need: Requirement) {
    0 <= observed.0 <= observed.1 && observed.1 >= need.minimum && observed.0 <= need.maximum
  }

  lemma PassesExact(observed: (int, int), need: Requirement)
    requires need.minimum <= need.maximum
    ensures Passes(observed, need) <==> Meets(observed, need)
    ensures Passes(observed, need) ==> Highest(observed, need,
                                               if observed.1 < need.maximum then observed.1 else need.maximum)
  {
    if Passes(observed, need) {
      assert Common(observed, need, if observed.1 < need.maximum then observed.1 else need.maximum);
    }
  }

  method ValidateApiVersions(versions: Versions, transactional: bool) returns (r: Option<map<nat, int>>)
    ensures r.Some? <==> forall key :: key in Required(transactional) ==> Served(versions, Required(transactional), key)
    ensures r.Some? ==>
              r.value.Keys == Required(transactional).Keys
              && forall key :: key in r.value ==> Highest(versions[key], Required(transactional)[key], r.value[key])
  {
    RequiredSane(transactional);
    r := Negotiate(versions, Required(transactional));
  }

  method Negotiate(versions: Versions, required: map<nat, Requirement>) returns (r: Option<map<nat, int>>)
    requires Sane(required)
    ensures r.Some? <==> forall key :: key in required ==> Served(versions, required, key)
    ensures r.Some? ==> r.value.Keys == required.Keys && forall key :: key in r.value ==>
        Highest(versions[key], required[key], r.value[key])
  {
    var todo := required.Keys;
    var negotiated: map<nat, int> := map[];
    while todo != {}
      invariant todo <= required.Keys && negotiated.Keys == required.Keys - todo
      invariant forall key :: key in negotiated ==>
          Served(versions, required, key) && Highest(versions[key], required[key], negotiated[key])
      decreases todo
    {
      var key :| key in todo;
      var need := required[key];
      if key !in versions { return None; }
      PassesExact(versions[key], need);
      if !Passes(versions[key], need) { return None; }
      negotiated := negotiated[key := if versions[key].1 < need.maximum then versions[key].1 else need.maximum];
      todo := todo - {key};
    }
    r := Some(negotiated);
  }

  /** A broker that serves transactional clients serves the others too, with the same versions. */
  lemma TransactionalServesAll(versions: Versions, key: nat)
    requires key in BASE_APIS && Served(versions, Required(true), key)
    ensures Served(versions, Required(false), key)
    ensures forall v :: Highest(versions[key], Required(true)[key], v) ==>
        Highest(versions[key], Required(false)[key], v)
  {
    BaseIsNoStricter(key);
    SameHighest(versions[key], Required(true)[key], Required(false)[key]);
  }

  lemma BaseIsNoStricter(key: nat)
    requires key in BASE_APIS
    ensures var strict, base := Required(true)[key], Required(false)[key];
            base.minimum <= strict.minimum <= strict.maximum == base.maximum
  {
  }

  lemma SameHighest(observed: (int, int), strict: Requirement, base: Requirement)
    requires base.minimum <= strict.minimum <= strict.maximum == base.maximum && Meets(observed, strict)
    ensures Meets(observed, base)
    ensures forall v :: Highest(observed, strict, v) ==> Highest(observed, base, v)
  {
    PassesExact(observed, strict);
    PassesExact(observed, base);
  }
}
