/** Opaque tokens, `mk1.<key id>.<payload>.<signature>`, signed and checked by a ring of keys. */
module Tokens {
  import opened Basics
  import opened ConsumerGroup
  import opened Base64Url
  import opened Positions

  const FORMAT: Text := "mk1"
  const MAX_TOKEN_BYTES: nat := 4096

  // ------------------------------------------------------------ splitting at the dots

  predicate DotFree(s: Text) {
    '.' !in s
  }

  function Split(s: Text): (parts: seq<Text>)
    ensures parts != [] && forall i :: 0 <= i < |parts| ==> DotFree(parts[i])
  {
    if s == [] then [[]]
    else
      var rest := Split(s[1..]);
      if s[0] == '.' then [[]] + rest else [[s[0]] + rest[0]] + rest[1..]
  }

  function Join(parts: seq<Text>): Text
    requires parts != []
  {
    if |parts| == 1 then parts[0] else parts[0] + ['.'] + Join(parts[1..])
  }

  lemma {:induction false} JoinSplit(s: Text)
    ensures Join(Split(s)) == s
  {
    if s != [] {
      var rest := Split(s[1..]);
      JoinSplit(s[1..]);
      if s[0] == '.' {
        assert ([[]] + rest)[1..] == rest;
        assert Join([[]] + rest) == [] + ['.'] + s[1..];
      } else if |rest| > 1 {
        assert ([[s[0]] + rest[0]] + rest[1..])[1..] == rest[1..];
      }
    }
  }

  lemma {:induction false} SplitWhole(s: Text)
    requires DotFree(s)
    ensures Split(s) == [s]
  {
    if s != [] {
      SplitWhole(s[1..]);
      assert [s[0]] + s[1..] == s;
    }
  }

  lemma {:induction false} SplitFirst(s: Text, t: Text)
    requires DotFree(s)
    ensures Split(s + ['.'] + t) == [s] + Split(t)
  {
    var u := s + ['.'] + t;
    if s == [] {
      assert u[1..] == t;
    } else {
      assert u[1..] == s[1..] + ['.'] + t;
      SplitFirst(s[1..], t);
      assert [s[0]] + s[1..] == s;
    }
  }

  lemma {:induction false} SplitJoin(parts: seq<Text>)
    requires parts != [] && forall i :: 0 <= i < |parts| ==> DotFree(parts[i])
    ensures Split(Join(parts)) == parts
  {
    if |parts| == 1 {
      SplitWhole(parts[0]);
    } else {
      SplitJoin(parts[1..]);
      SplitFirst(parts[0], Join(parts[1..]));
    }
  }

  // ------------------------------------------------------------ sizes

  predicate Ascii(s: Text) {
    forall c :: c in s ==> c as int < 128
  }

  function Width(c: char): (n: nat)
    ensures n >= 1
  {
    if c as int < 0x80 then 1 else if c as int < 0x800 then 2 else if c as int < 0x1_0000 then 3 else 4
  }

  /** The number of bytes in the UTF-8 encoding. */
  function Utf8Size(s: Text): nat {
    if s == [] then 0 else Width(s[0]) + Utf8Size(s[1..])
  }

  lemma {:induction false} Utf8Sizes(s: Text)
    ensures Utf8Size(s) >= |s| && (Ascii(s) ==> Utf8Size(s) == |s|)
  {
    if s != [] {
      Utf8Sizes(s[1..]);
      assert s[0] in s && forall c :: c in s[1..] ==> c in s;
    }
  }

  // ------------------------------------------------------------ keys

  datatype TokenKey = TokenKey(id: Text, key: seq<byte>, active: bool)

  predicate KeyOk(k: TokenKey) {
    1 <= |k.id| <= 64 && (forall c :: c in k.id ==> Safe(c)) && 32 <= |k.key| <= 128
  }

  /** The keys by their id, and the one that signs. */
  datatype Ring = Ring(keys: map<Text, TokenKey>, active: TokenKey)

  function ActiveCount(keys: seq<TokenKey>): nat {
    if keys == [] then 0 else (if keys[0].active then 1 else 0) + ActiveCount(keys[1..])
  }

  /** Of two keys with one id the later one stays. */
  function ById(keys: seq<TokenKey>): map<Text, TokenKey> {
    if keys == [] then map[] else var last := keys[|keys| - 1]; ById(keys[..|keys| - 1])[last.id := last]
  }

  function FirstActive(keys: seq<TokenKey>): TokenKey
    requires ActiveCount(keys) > 0
  {
    if keys[0].active then keys[0] else FirstActive(keys[1..])
  }

  function MakeRing(keys: seq<TokenKey>): Option<Ring> {
    if ActiveCount(keys) != 1 then None else Some(Ring(ById(keys), FirstActive(keys)))
  }

  ghost predicate RingOk(ring: Ring) {
    KeyOk(ring.active) && forall id :: id in ring.keys ==> KeyOk(ring.keys[id]) && ring.keys[id].id == id
  }

  /** Which the ids of a configured ring are. */
  predicate UniqueIds(keys: seq<TokenKey>) {
    forall i, j :: 0 <= i < j < |keys| ==> keys[i].id != keys[j].id
  }

  lemma {:induction false} ByIdMeaning(keys: seq<TokenKey>, i: nat)
    requires UniqueIds(keys) && i < |keys|
    ensures keys[i].id in ById(keys) && ById(keys)[keys[i].id] == keys[i]
    decreases |keys|
  {
    if i < |keys| - 1 { ByIdMeaning(keys[..|keys| - 1], i); }
  }

  lemma {:induction false} ByIdFrom(keys: seq<TokenKey>, id: Text)
    requires id in ById(keys)
    ensures ById(keys)[id].id == id && ById(keys)[id] in keys
    decreases |keys|
  {
    var last := keys[|keys| - 1];
    if id != last.id { ByIdFrom(keys[..|keys| - 1], id); }
  }

  lemma {:induction false} FirstActiveIndex(keys: seq<TokenKey>) returns (i: nat)
    requires ActiveCount(keys) > 0
    ensures i < |keys| && keys[i] == FirstActive(keys) && keys[i].active
  {
    if keys[0].active {
      i := 0;
    } else {
      i := FirstActiveIndex(keys[1..]);
      i := i + 1;
    }
  }

  /** A configured ring checks what it signs: it holds its active key under that key's own id. */
  lemma RingSound(keys: seq<TokenKey>)
    requires (forall i :: 0 <= i < |keys| ==> KeyOk(keys[i])) && UniqueIds(keys) && ActiveCount(keys) == 1
    ensures var ring := MakeRing(keys).value;
            RingOk(ring) && ring.active.active && Keeps(ring, ring.active)
  {
    var ring := MakeRing(keys).value;
    var i := FirstActiveIndex(keys);
    ByIdMeaning(keys, i);
    forall id | id in ring.keys ensures KeyOk(ring.keys[id]) && ring.keys[id].id == id {
      ByIdFrom(keys, id);
    }
  }

  /** A ring is made iff exactly one key is active, and that key signs. */
  lemma MakeRingIff(keys: seq<TokenKey>)
    ensures MakeRing(keys).Some? <==>
            exists i :: 0 <= i < |keys| && keys[i].active && forall j :: 0 <= j < |keys| && keys[j].active ==> j == i
    ensures forall i :: MakeRing(keys).Some? && 0 <= i < |keys| && keys[i].active ==>
        MakeRing(keys).value.active == keys[i]
  {
    CountMeaning(keys);
    if ActiveCount(keys) == 1 {
      var i := FirstActiveIndex(keys);
      assert forall j :: 0 <= j < |keys| && keys[j].active ==> j == i;
    }
  }

  lemma {:induction false} CountMeaning(keys: seq<TokenKey>)
    ensures ActiveCount(keys) == 0 <==> forall i :: 0 <= i < |keys| ==> !keys[i].active
    ensures ActiveCount(keys) <= 1 <==>
            forall i, j :: 0 <= i < j < |keys| ==> !(keys[i].active && keys[j].active)
  {
    if keys != [] {
      var rest := keys[1..];
      CountMeaning(rest);
      assert forall i :: 0 <= i < |rest| ==> rest[i] == keys[i + 1];
      assert forall i :: 0 < i < |keys| ==> keys[i] == rest[i - 1];
    }
  }

  /** The ring still holds that key under that id, active or not. */
  predicate Keeps(ring: Ring, k: TokenKey) {
    k.id in ring.keys && ring.keys[k.id].key == k.key
  }

  // ------------------------------------------------------------ sealing and opening

  /** The keyed hash. Nothing is known about it but that a digest has 32 bytes. */
  type Mac = (seq<byte>, Text) -> seq<byte>

  ghost predicate Digests(mac: Mac) {
    forall key, text :: |mac(key, text)| == 32
  }

  function Signed(id: Text, body: Text): Text {
    Join([FORMAT, id, body])
  }

  /** The token of some bytes under a key. */
  function Sealed(mac: Mac, id: Text, key: seq<byte>, bytes: seq<byte>): Text {
    Join([FORMAT, id, B64(bytes), B64(mac(key, Signed(id, B64(bytes))))])
  }

  function Encode(mac: Mac, ring: Ring, bytes: seq<byte>): Option<Text> {
    var token := Sealed(mac, ring.active.id, ring.active.key, bytes);
    if Utf8Size(token) > MAX_TOKEN_BYTES then None else Some(token)
  }

  datatype Opening =
    | Opened(bytes: seq<byte>)
    | BadSize | BadFormat | UnknownKey | NotAscii | BadSignature | BadBody | PayloadTooLarge

  function Open(mac: Mac, ring: Ring, token: Text): Opening {
    if token == [] || Utf8Size(token) > MAX_TOKEN_BYTES then BadSize
    else
      var parts := Split(token);
      if |parts| != 4 || parts[0] != FORMAT then BadFormat
      else if parts[1] !in ring.keys then UnknownKey
      else OpenWith(mac, ring.keys[parts[1]].key, parts[1], parts[2], parts[3])
  }

  /** The signature is checked before the body is looked at. */
  function OpenWith(mac: Mac, key: seq<byte>, id: Text, body: Text, signature: Text): Opening {
    if !Ascii(Signed(id, body)) then NotAscii
    else if Unb64(signature) != Some(mac(key, Signed(id, body))) then BadSignature
    else
      var decoded := Unb64(body);
      if decoded.None? then BadBody
      else if |decoded.value| > MAX_TOKEN_BYTES then PayloadTooLarge
      else Opened(decoded.value)
  }

  lemma SafeText(s: Text)
    requires forall c :: c in s ==> Safe(c)
    ensures DotFree(s) && Ascii(s)
  {
  }

  lemma JoinThree(a: Text, b: Text, c: Text)
    ensures Join([a, b, c]) == a + ['.'] + (b + ['.'] + c)
  {
    assert [a, b, c][1..] == [b, c] && [b, c][1..] == [c];
    assert Join([b, c]) == b + ['.'] + c;
  }

  lemma JoinFour(a: Text, b: Text, c: Text, d: Text)
    ensures Join([a, b, c, d]) == a + ['.'] + (b + ['.'] + (c + ['.'] + d))
  {
    assert [a, b, c, d][1..] == [b, c, d];
    JoinThree(b, c, d);
  }

  /** A sealed token is made of four parts, all of them plain text. */
  lemma SealedParts(mac: Mac, id: Text, key: seq<byte>, bytes: seq<byte>)
    requires forall c :: c in id ==> Safe(c)
    ensures var body := B64(bytes);
            var token := Sealed(mac, id, key, bytes);
            && Split(token) == [FORMAT, id, body, B64(mac(key, Signed(id, body)))]
            && Ascii(token) && Ascii(Signed(id, body)) && |token| == Utf8Size(token) && |body| < |token|
  {
    var body := B64(bytes);
    var signature := B64(mac(key, Signed(id, body)));
    B64Safe(bytes);
    B64Safe(mac(key, Signed(id, body)));
    SafeText(FORMAT);
    SafeText(id);
    SafeText(body);
    SafeText(signature);
    SplitJoin([FORMAT, id, body, signature]);
    JoinThree(FORMAT, id, body);
    JoinFour(FORMAT, id, body, signature);
    Utf8Sizes(Sealed(mac, id, key, bytes));
  }

  /** A token can be made of some bytes iff they leave room in the 4096 characters for the id of the key and 49 more:
      three dots, the three characters of the format, and the 43 of the signature. */
  lemma EncodeIff(mac: Mac, ring: Ring, bytes: seq<byte>)
    requires RingOk(ring) && Digests(mac)
    ensures Encode(mac, ring, bytes).Some? <==> 4 * |bytes| <= 3 * (4096 - 49 - |ring.active.id|)
    ensures Encode(mac, ring, bytes).Some? ==>
              Encode(mac, ring, bytes).value == Sealed(mac, ring.active.id, ring.active.key, bytes)
  {
    SealedSize(mac, ring.active.id, ring.active.key, bytes);
    B64Length(bytes);
  }

  lemma SealedSize(mac: Mac, id: Text, key: seq<byte>, bytes: seq<byte>)
    requires (forall c :: c in id ==> Safe(c)) && Digests(mac)
    ensures var token := Sealed(mac, id, key, bytes);
            Utf8Size(token) == |token| == 49 + |id| + |B64(bytes)|
  {
    var body := B64(bytes);
    var digest := mac(key, Signed(id, body));
    SealedParts(mac, id, key, bytes);
    JoinFour(FORMAT, id, body, B64(digest));
    B64Length(digest);
  }

  /** The bytes of a token come out exactly when it is the token of those bytes under the key that the ring has for its
      id. */
  lemma OpenExact(mac: Mac, ring: Ring, token: Text, bytes: seq<byte>)
    requires RingOk(ring) && Digests(mac)
    ensures Open(mac, ring, token) == Opened(bytes) <==>
              && bytes != [] && |token| <= MAX_TOKEN_BYTES
              && exists id :: id in ring.keys && token == Sealed(mac, id, ring.keys[id].key, bytes)
  {
    if Open(mac, ring, token) == Opened(bytes) {
      OpenedIsSealed(mac, ring, token);
    }
    if bytes != [] && |token| <= MAX_TOKEN_BYTES {
      forall id | id in ring.keys && token == Sealed(mac, id, ring.keys[id].key, bytes)
        ensures Open(mac, ring, token) == Opened(bytes)
      {
        SealedOpens(mac, ring, id, ring.keys[id].key, bytes);
      }
    }
  }

  lemma OpenedIsSealed(mac: Mac, ring: Ring, token: Text)
    requires Digests(mac) && Open(mac, ring, token).Opened?
    ensures var bytes := Open(mac, ring, token).bytes;
            var id := Split(token)[1];
            && |Split(token)| == 4 && id in ring.keys && token == Sealed(mac, id, ring.keys[id].key, bytes)
            && bytes != [] && |token| <= MAX_TOKEN_BYTES
  {
    var parts := Split(token);
    var bytes := Open(mac, ring, token).bytes;
    JoinSplit(token);
    Unb64Exact(parts[2], bytes);
    Unb64Exact(parts[3], mac(ring.keys[parts[1]].key, Signed(parts[1], parts[2])));
    assert parts == [FORMAT, parts[1], parts[2], parts[3]];
    Utf8Sizes(token);
  }

  /** Presented to any ring, a sealed token of a bounded size opens exactly if the ring knows the id and its key gives
      the same digest. */
  lemma SealedOpens(mac: Mac, ring: Ring, id: Text, key: seq<byte>, bytes: seq<byte>)
    requires (forall c :: c in id ==> Safe(c)) && Digests(mac) && bytes != []
    requires |Sealed(mac, id, key, bytes)| <= MAX_TOKEN_BYTES
    ensures var signed := Signed(id, B64(bytes));
            Open(mac, ring, Sealed(mac, id, key, bytes)) ==
              if id !in ring.keys then UnknownKey
              else if mac(ring.keys[id].key, signed) != mac(key, signed) then BadSignature
              else Opened(bytes)
  {
    SealedParts(mac, id, key, bytes);
    B64Length(bytes);
    if id in ring.keys { OpenBody(mac, ring.keys[id].key, id, bytes, mac(key, Signed(id, B64(bytes)))); }
  }

  lemma OpenBody(mac: Mac, key: seq<byte>, id: Text, bytes: seq<byte>, digest: seq<byte>)
    requires Ascii(Signed(id, B64(bytes))) && bytes != [] && |bytes| <= MAX_TOKEN_BYTES && digest != []
    ensures OpenWith(mac, key, id, B64(bytes), B64(digest)) ==
              if mac(key, Signed(id, B64(bytes))) != digest then BadSignature else Opened(bytes)
  {
    B64Length(bytes);
    B64Length(digest);
    Unb64Exact(B64(bytes), bytes);
    Unb64Exact(B64(digest), digest);
  }

  /** Round trip under key rotation: a token made with one ring gives its bytes under every ring that keeps its key. */
  lemma RotationRoundTrip(mac: Mac, ring: Ring, later: Ring, bytes: seq<byte>)
    requires RingOk(ring) && Digests(mac) && bytes != [] && Encode(mac, ring, bytes).Some?
    ensures Keeps(later, ring.active) ==> Open(mac, later, Encode(mac, ring, bytes).value) == Opened(bytes)
    ensures ring.active.id !in later.keys ==> Open(mac, later, Encode(mac, ring, bytes).value) == UnknownKey
  {
    SealedParts(mac, ring.active.id, ring.active.key, bytes);
    SealedOpens(mac, later, ring.active.id, ring.active.key, bytes);
  }

  /** One accepted token for a key id and a payload. */
  lemma OneToken(mac: Mac, ring: Ring, s: Text, t: Text)
    requires RingOk(ring) && Digests(mac)
    requires Open(mac, ring, s).Opened? && Open(mac, ring, s) == Open(mac, ring, t) && Split(s)[1] == Split(t)[1]
    ensures s == t
  {
    OpenedIsSealed(mac, ring, s);
    OpenedIsSealed(mac, ring, t);
  }

  /** The size of the payload needs no check: a token of a bounded size cannot carry one that is too large. */
  lemma PayloadNeverTooLarge(mac: Mac, ring: Ring, token: Text)
    ensures Open(mac, ring, token) != PayloadTooLarge
  {
    if Open(mac, ring, token) == PayloadTooLarge {
      var parts := Split(token);
      var bytes := Unb64(parts[2]).value;
      Unb64Exact(parts[2], bytes);
      B64Length(bytes);
      JoinSplit(token);
      assert parts == [parts[0], parts[1], parts[2], parts[3]];
      JoinFour(parts[0], parts[1], parts[2], parts[3]);
      Utf8Sizes(token);
      assert false;
    }
  }

  // ------------------------------------------------------------ what a token says

  /** The part that only a delivery token has. */
  datatype Scope = Scope(subscription: Text, group: Text, epoch: int, attempt: int)

  /** The object that is signed. */
  datatype Payload = Payload(kind: Text, resource: Text, topic: Text, positions: map<Text, nat>, issuedAt: int,
                             expiresAt: int, scope: Option<Scope>)

  /** The object that is read back, its positions in the order of the text. A member of the wrong type reads as a value
      that no check accepts, a negative number or an empty list. */
  datatype Claims = Claims(kind: Text, resource: Text, topic: Text, positions: seq<Item>, expiresAt: int,
                           scope: Option<Scope>)

  /** The JSON codec and the hash that stands for a topic; `load` gives None for text that is not the expected
      object. */
  datatype Codec = Codec(dump: Payload -> seq<byte>, load: seq<byte> -> Option<Claims>, topicHash: Text -> Text)

  ghost predicate Spells(c: Claims, p: Payload) {
    && c.kind == p.kind && c.resource == p.resource && c.topic == p.topic && c.expiresAt == p.expiresAt
    && c.scope == p.scope
    && (forall i :: 0 <= i < |c.positions| ==>
          c.positions[i].key in p.positions && c.positions[i].value == p.positions[c.positions[i].key])
    && (forall k :: k in p.positions ==> Item(k, p.positions[k]) in c.positions)
  }

  ghost predicate Reads(codec: Codec, p: Payload) {
    codec.load(codec.dump(p)).Some? && Spells(codec.load(codec.dump(p)).value, p)
  }

  /** JSON text is not empty and reads back as what was printed; topics do not collide. */
  ghost predicate Faithful(codec: Codec) {
    && (forall p :: codec.dump(p) != [] && Reads(codec, p))
    && (forall s, t :: codec.topicHash(s) == codec.topicHash(t) ==> s == t)
  }

  datatype Checks = Claimed(claims: Claims) | Expired | Invalid

  function Decode(codec: Codec, mac: Mac, ring: Ring, token: Text, kind: Text, now: int): Checks {
    match Open(mac, ring, token)
    case Opened(bytes) =>
      var parsed := codec.load(bytes);
      if parsed.None? || parsed.value.kind != kind || parsed.value.expiresAt < 1 then Invalid
      else if now >= parsed.value.expiresAt then Expired
      else Claimed(parsed.value)
    case _ => Invalid
  }

  predicate Targets(codec: Codec, c: Claims, resource: Text, topic: Text) {
    c.resource == resource && c.topic == codec.topicHash(topic)
  }

  /** The positions of a token, if they can be parsed and have a permitted number. */
  function Coordinates(c: Claims): Option<map<nat, nat>> {
    var parsed := Parsed(c.positions);
    if parsed.None? then None else Checked(parsed.value)
  }

  function PayloadOf(codec: Codec, kind: Text, resource: Text, topic: Text, positions: map<nat, nat>, now: int,
                     expiry: int): Payload {
    Payload(kind, resource, codec.topicHash(topic), Printed(positions), now, expiry, None)
  }

  datatype Outcome<T> = Ok(value: T) | TimedOut | Refused

  // ------------------------------------------------------------ cursors

  const CURSOR: Text := "cursor"
  const POSITION: Text := "position"
  const DELIVERY: Text := "delivery"

  function EncodeCursor(codec: Codec, mac: Mac, ring: Ring, resource: Text, topic: Text, positions: map<nat, nat>,
                        now: int,
                        expiry: int): Option<Text>
  {
    if Checked(positions).None? then None
    else Encode(mac, ring, codec.dump(PayloadOf(codec, CURSOR, resource, topic, positions, now, expiry)))
  }

  function DecodeCursor(codec: Codec, mac: Mac, ring: Ring, token: Text, resource: Text, topic: Text, now: int)
      : Outcome<(map<nat, nat>, int)>
  {
    match Decode(codec, mac, ring, token, CURSOR, now)
    case Expired => TimedOut
    case Invalid => Refused
    case Claimed(c) =>
      if !Targets(codec, c, resource, topic) || Coordinates(c).None? then Refused
      else Ok((Coordinates(c).value, c.expiresAt))
  }

  /** What any ring that keeps the key reads in a token: the claims that spell the signed payload. */
  lemma DecodeSealed(codec: Codec, mac: Mac, ring: Ring, later: Ring, p: Payload, kind: Text,
                     now: int) returns (c: Claims)
    requires Faithful(codec) && RingOk(ring) && Digests(mac) && Keeps(later, ring.active)
    requires Encode(mac, ring, codec.dump(p)).Some?
    ensures Spells(c, p)
    ensures Decode(codec, mac, later, Encode(mac, ring, codec.dump(p)).value, kind, now) ==
              if p.kind != kind || p.expiresAt < 1 then Invalid else if now >= p.expiresAt then Expired else Claimed(c)
  {
    RotationRoundTrip(mac, ring, later, codec.dump(p));
    c := codec.load(codec.dump(p)).value;
  }

  /** A map that was printed and read back, in whatever order, is the map. */
  lemma SpelledPositions(c: Claims, p: Payload, positions: map<nat, nat>)
    requires Spells(c, p) && p.positions == Printed(positions)
    ensures Coordinates(c) == Checked(positions)
  {
    var items := c.positions;
    forall i | 0 <= i < |items| ensures IsEntry(items[i], positions) {
      assert items[i].key in Printed(positions);
      var q :| q in positions && Str(q) == items[i].key;
      PrintedAt(positions, q);
      assert items[i] == Item(Str(q), positions[q]);
    }
    forall q | q in positions ensures Item(Str(q), positions[q]) in items {
      PrintedAt(positions, q);
    }
    ParseInverts(items, positions);
  }

  /** The life of a cursor: before it expires it gives its positions for its own resource and topic, for no other, and
      under every ring that keeps its key. */
  lemma CursorRoundTrip(codec: Codec, mac: Mac, ring: Ring, later: Ring, resource: Text, topic: Text,
                        positions: map<nat, nat>,
                        issued: int, expiry: int, r: Text, t: Text, now: int)
    requires Faithful(codec) && RingOk(ring) && Digests(mac) && Keeps(later, ring.active)
    requires EncodeCursor(codec, mac, ring, resource, topic, positions, issued, expiry).Some?
    ensures DecodeCursor(codec, mac, later,
                         EncodeCursor(codec, mac, ring, resource, topic, positions, issued, expiry).value, r, t, now) ==
              if expiry < 1 then Refused else if now >= expiry then TimedOut
              else if r == resource && t == topic then Ok((positions, expiry)) else Refused
  {
    var p := PayloadOf(codec, CURSOR, resource, topic, positions, issued, expiry);
    var c := DecodeSealed(codec, mac, ring, later, p, CURSOR, now);
    SpelledPositions(c, p, positions);
  }

  // ------------------------------------------------------------ positions and deliveries

  function EncodePosition(codec: Codec, mac: Mac, ring: Ring, resource: Text, topic: Text, at: Coord, now: int,
                          expiry: int)
      : Option<Text>
  {
    Encode(mac, ring,
           codec.dump(PayloadOf(codec, POSITION, resource, topic, map[at.partition := at.offset], now, expiry)))
  }

  function DecodePosition(codec: Codec, mac: Mac, ring: Ring, token: Text, resource: Text, topic: Text,
                          now: int): Outcome<Coord> {
    match Decode(codec, mac, ring, token, POSITION, now)
    case Expired => TimedOut
    case Invalid => Refused
    case Claimed(c) => if !Targets(codec, c, resource, topic) then Refused else Only(Coordinates(c))
  }

  /** The coordinate of a map that has one entry. */
  function Only(positions: Option<map<nat, nat>>): Outcome<Coord> {
    if positions.None? || |positions.value| != 1 then Refused
    else
      Singleton(positions.value);
      var p :| p in positions.value;
      Ok(Coord(p, positions.value[p]))
  }

  lemma Singleton(m: map<nat, nat>)
    requires |m| == 1
    ensures exists p :: p in m
    ensures forall p, q :: p in m && q in m ==> p == q
  {
    assert |m.Keys| == 1;
    var p :| p in m;
    forall q | q in m ensures q == p {
      if q != p {
        assert |{p, q}| == 2 && {p, q} <= m.Keys;
        SubsetSize({p, q}, m.Keys);
      }
    }
  }

  lemma OnlyOne(at: Coord)
    ensures Only(Checked(map[at.partition := at.offset])) == Ok(at)
  {
    var m := map[at.partition := at.offset];
    assert |m| == 1;
    Singleton(m);
  }

  lemma PositionRoundTrip(codec: Codec, mac: Mac, ring: Ring, later: Ring, resource: Text, topic: Text, at: Coord,
                          issued: int, expiry: int, r: Text, t: Text, now: int)
    requires Faithful(codec) && RingOk(ring) && Digests(mac) && Keeps(later, ring.active)
    requires EncodePosition(codec, mac, ring, resource, topic, at, issued, expiry).Some?
    ensures DecodePosition(codec, mac, later,
                           EncodePosition(codec, mac, ring, resource, topic, at, issued, expiry).value, r, t, now) ==
              if expiry < 1 then Refused
              else if now >= expiry then TimedOut
              else if r == resource && t == topic then Ok(at)
              else Refused
  {
    var m := map[at.partition := at.offset];
    var p := PayloadOf(codec, POSITION, resource, topic, m, issued, expiry);
    var c := DecodeSealed(codec, mac, ring, later, p, POSITION, now);
    SpelledPositions(c, p, m);
    OnlyOne(at);
  }

  /** Where a position is wanted, a cursor is tried first and then a single position. */
  function DecodePositions(codec: Codec, mac: Mac, ring: Ring, token: Text, resource: Text, topic: Text,
                           now: int): Outcome<map<nat, nat>> {
    match DecodeCursor(codec, mac, ring, token, resource, topic, now)
    case Ok(c) => Ok(c.0)
    case TimedOut => TimedOut
    case Refused =>
      match DecodePosition(codec, mac, ring, token, resource, topic, now)
      case Ok(at) => Ok(map[at.partition := at.offset])
      case TimedOut => TimedOut
      case Refused => Refused
  }

  /** A cursor is understood where a position is wanted, and so is a single position: it is not mistaken for a
      cursor. */
  lemma CursorAsPositions(codec: Codec, mac: Mac, ring: Ring, later: Ring, resource: Text, topic: Text,
                          positions: map<nat, nat>,
                          issued: int, expiry: int, now: int)
    requires Faithful(codec) && RingOk(ring) && Digests(mac) && Keeps(later, ring.active)
    requires EncodeCursor(codec, mac, ring, resource, topic, positions, issued, expiry).Some?
    ensures DecodePositions(codec, mac, later,
                            EncodeCursor(codec, mac, ring, resource, topic, positions, issued, expiry).value,
                            resource, topic, now) ==
              if expiry < 1 then Refused else if now >= expiry then TimedOut else Ok(positions)
  {
    CursorRoundTrip(codec, mac, ring, later, resource, topic, positions, issued, expiry, resource, topic, now);
    NotAPosition(codec, mac, ring, later, resource, topic, positions, issued, expiry, now);
  }

  lemma NotAPosition(codec: Codec, mac: Mac, ring: Ring, later: Ring, resource: Text, topic: Text,
                     positions: map<nat, nat>, issued: int, expiry: int, now: int)
    requires Faithful(codec) && RingOk(ring) && Digests(mac) && Keeps(later, ring.active)
    requires EncodeCursor(codec, mac, ring, resource, topic, positions, issued, expiry).Some?
    ensures DecodePosition(codec, mac, later,
                           EncodeCursor(codec, mac, ring, resource, topic, positions, issued, expiry).value,
                           resource, topic, now) == Refused
  {
    var p := PayloadOf(codec, CURSOR, resource, topic, positions, issued, expiry);
    var _ := DecodeSealed(codec, mac, ring, later, p, POSITION, now);
  }

  lemma PositionAsPositions(codec: Codec, mac: Mac, ring: Ring, later: Ring, resource: Text, topic: Text, at: Coord,
                            issued: int, expiry: int, r: Text, t: Text, now: int)
    requires Faithful(codec) && RingOk(ring) && Digests(mac) && Keeps(later, ring.active)
    requires EncodePosition(codec, mac, ring, resource, topic, at, issued, expiry).Some?
    ensures DecodePositions(codec, mac, later,
                            EncodePosition(codec, mac, ring, resource, topic, at, issued, expiry).value, r, t, now) ==
              if expiry < 1 then Refused else if now >= expiry then TimedOut
              else if r == resource && t == topic then Ok(map[at.partition := at.offset]) else Refused
  {
    PositionRoundTrip(codec, mac, ring, later, resource, topic, at, issued, expiry, r, t, now);
    NotACursor(codec, mac, ring, later, resource, topic, at, issued, expiry, r, t, now);
  }

  lemma NotACursor(codec: Codec, mac: Mac, ring: Ring, later: Ring, resource: Text, topic: Text, at: Coord,
                   issued: int, expiry: int, r: Text, t: Text, now: int)
    requires Faithful(codec) && RingOk(ring) && Digests(mac) && Keeps(later, ring.active)
    requires EncodePosition(codec, mac, ring, resource, topic, at, issued, expiry).Some?
    ensures DecodeCursor(codec, mac, later, EncodePosition(codec, mac, ring, resource, topic, at, issued, expiry).value,
                         r, t, now) == Refused
  {
    var p := PayloadOf(codec, POSITION, resource, topic, map[at.partition := at.offset], issued, expiry);
    var _ := DecodeSealed(codec, mac, ring, later, p, CURSOR, now);
  }

  function EncodeDelivery(codec: Codec, mac: Mac, ring: Ring, subscription: Text, group: Text, topic: Text, t: Token,
                          now: int,
                          expiry: int): Option<Text>
  {
    var p := PayloadOf(codec, DELIVERY, subscription, topic, map[t.coord.partition := t.coord.offset], now, expiry);
    Encode(mac, ring, codec.dump(p.(scope := Some(Scope(subscription, group, t.epoch, t.attempt)))))
  }

  function DecodeDelivery(codec: Codec, mac: Mac, ring: Ring, token: Text, subscription: Text, group: Text, topic: Text,
                          now: int)
      : Outcome<(Token, int)>
  {
    match Decode(codec, mac, ring, token, DELIVERY, now)
    case Expired => TimedOut
    case Invalid => Refused
    case Claimed(c) =>
      if !Targets(codec, c, subscription, topic) || c.scope.None? then Refused
      else
        var s := c.scope.value;
        if s.subscription != subscription || s.group != group then Refused
        else
          var at := Only(Coordinates(c));
          if !at.Ok? || s.epoch < 0 || s.attempt < 1 then Refused
          else Ok((Token(at.value, s.epoch, s.attempt), c.expiresAt))
  }

  /** A delivery token brings back the very coordinate, epoch and attempt that it was handed out for, to its own
      subscription and group alone. */
  lemma DeliveryRoundTrip(codec: Codec, mac: Mac, ring: Ring, later: Ring, subscription: Text, group: Text, topic: Text,
                          t: Token,
                          issued: int, expiry: int, s: Text, g: Text, u: Text, now: int)
    requires Faithful(codec) && RingOk(ring) && Digests(mac) && Keeps(later, ring.active)
    requires EncodeDelivery(codec, mac, ring, subscription, group, topic, t, issued, expiry).Some?
    ensures DecodeDelivery(codec, mac, later,
                           EncodeDelivery(codec, mac, ring, subscription, group, topic, t, issued, expiry).value,
                           s, g, u, now) ==
              if expiry < 1 then Refused else if now >= expiry then TimedOut
              else if s == subscription && g == group && u == topic && t.attempt >= 1 then Ok((t, expiry))
              else Refused
  {
    var m := map[t.coord.partition := t.coord.offset];
    var p := PayloadOf(codec, DELIVERY, subscription, topic, m, issued, expiry)
      .(scope := Some(Scope(subscription, group, t.epoch, t.attempt)));
    var c := DecodeSealed(codec, mac, ring, later, p, DELIVERY, now);
    SpelledPositions(c, p, m);
    OnlyOne(t.coord);
  }

  // ------------------------------------------------------------ when a token can be made

  /** The payload leaves room for the rest of the token. */
  predicate Fits(codec: Codec, ring: Ring, p: Payload) {
    4 * |codec.dump(p)| <= 3 * (4047 - |ring.active.id|)
  }

  /** A cursor can be made iff it has 1 to 128 positions and fits; a position or a delivery token iff it fits. What is
      sealed is the kind, the resource, the hash of the topic, the printed positions, the times and, for a delivery, its
      scope. */
  lemma TokensMade(codec: Codec, mac: Mac, ring: Ring, resource: Text, group: Text, topic: Text,
                   positions: map<nat, nat>, t: Token, now: int, expiry: int)
    requires RingOk(ring) && Digests(mac)
    ensures var hash, one := codec.topicHash(topic), Printed(map[t.coord.partition := t.coord.offset]);
            && (EncodeCursor(codec, mac, ring, resource, topic, positions, now, expiry).Some? <==>
                1 <= |positions| <= 128
                && Fits(codec, ring, Payload("cursor", resource, hash, Printed(positions), now, expiry, None)))
            && (EncodePosition(codec, mac, ring, resource, topic, t.coord, now, expiry).Some? <==>
                Fits(codec, ring, Payload("position", resource, hash, one, now, expiry, None)))
            && (EncodeDelivery(codec, mac, ring, resource, group, topic, t, now, expiry).Some? <==>
                Fits(codec, ring, Payload("delivery", resource, hash, one, now, expiry,
                                          Some(Scope(resource, group, t.epoch, t.attempt)))))
  {
    var hash, one := codec.topicHash(topic), Printed(map[t.coord.partition := t.coord.offset]);
    EncodeIff(mac, ring, codec.dump(Payload("cursor", resource, hash, Printed(positions), now, expiry, None)));
    EncodeIff(mac, ring, codec.dump(Payload("position", resource, hash, one, now, expiry, None)));
    EncodeIff(mac, ring, codec.dump(Payload("delivery", resource, hash, one, now, expiry,
                                            Some(Scope(resource, group, t.epoch, t.attempt)))));
  }
}
