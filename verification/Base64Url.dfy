/** Canonical base64url without padding, after sections 3.2, 3.5 and 5 of RFC 4648. */
module Base64Url {
  import opened Basics

  type digit = x: int | 0 <= x < 64

  function Char(d: digit): char {
    if d < 26 then ('A' as int + d) as char
    else if d < 52 then ('a' as int + (d - 26)) as char
    else if d < 62 then ('0' as int + (d - 52)) as char
    else if d == 62 then '-'
    else '_'
  }

  /** The url-safe alphabet. */
  predicate Safe(c: char) {
    'A' <= c <= 'Z' || 'a' <= c <= 'z' || '0' <= c <= '9' || c == '-' || c == '_'
  }

  /** The library decoder maps `-` and `_` to `+` and `/` first, so it takes either spelling. */
  predicate Known(c: char) {
    Safe(c) || c == '+' || c == '/'
  }

  function Value(c: char): digit
    requires Known(c)
  {
    if 'A' <= c <= 'Z' then c as int - 'A' as int
    else if 'a' <= c <= 'z' then c as int - 'a' as int + 26
    else if '0' <= c <= '9' then c as int - '0' as int + 52
    else if c == '-' || c == '+' then 62
    else 63
  }

  lemma CharValue(d: digit)
    ensures Safe(Char(d)) && Value(Char(d)) == d
  {
  }

  lemma ValueChar(c: char)
    requires Safe(c)
    ensures Char(Value(c)) == c
  {
  }

  // ------------------------------------------------------------ groups of three bytes and four digits

  function Four(a: byte, b: byte, c: byte): seq<char> {
    [Char(a / 4), Char(a % 4 * 16 + b / 16), Char(b % 16 * 4 + c / 64), Char(c % 64)]
  }

  function Three(s: seq<char>): seq<byte>
    requires |s| == 4 && forall c :: c in s ==> Known(c)
  {
    var v, w, x, y := Value(s[0]), Value(s[1]), Value(s[2]), Value(s[3]);
    [v * 4 + w / 16, w % 16 * 16 + x / 4, x % 4 * 64 + y]
  }

  function Two(s: seq<char>): seq<byte>
    requires |s| == 3 && forall c :: c in s ==> Known(c)
  {
    var v, w, x := Value(s[0]), Value(s[1]), Value(s[2]);
    [v * 4 + w / 16, w % 16 * 16 + x / 4]
  }

  function One(s: seq<char>): seq<byte>
    requires |s| == 2 && forall c :: c in s ==> Known(c)
  {
    [Value(s[0]) * 4 + Value(s[1]) / 16]
  }

  // ------------------------------------------------------------ _b64 and _unb64

  /** Encode and drop the padding. */
  function B64(b: seq<byte>): seq<char>
    decreases |b|
  {
    if |b| == 0 then []
    else if |b| == 1 then [Char(b[0] / 4), Char(b[0] % 4 * 16)]
    else if |b| == 2 then [Char(b[0] / 4), Char(b[0] % 4 * 16 + b[1] / 16), Char(b[1] % 16 * 4)]
    else Four(b[0], b[1], b[2]) + B64(b[3..])
  }

  lemma {:induction false} B64Safe(b: seq<byte>)
    ensures forall c :: c in B64(b) ==> Safe(c)
    decreases |b|
  {
    if |b| == 1 {
      CharValue(b[0] / 4);
      CharValue(b[0] % 4 * 16);
    } else if |b| == 2 {
      CharValue(b[0] / 4);
      CharValue(b[0] % 4 * 16 + b[1] / 16);
      CharValue(b[1] % 16 * 4);
    } else if |b| >= 3 {
      FourSafe(b[0], b[1], b[2]);
      B64Safe(b[3..]);
    }
  }

  lemma FourSafe(a: byte, b: byte, c: byte)
    ensures forall x :: x in Four(a, b, c) ==> Safe(x)
  {
    CharValue(a / 4);
    CharValue(a % 4 * 16 + b / 16);
    CharValue(b % 16 * 4 + c / 64);
    CharValue(c % 64);
  }

  predicate AllKnown(s: seq<char>) {
    forall c :: c in s ==> Known(c)
  }

  /** The library decoder on a padded string: it checks the alphabet and the padding but not the stray trailing bits. */
  function Lenient(s: seq<char>): Option<seq<byte>>
    decreases |s|
  {
    if s == [] then Some([])
    else if |s| < 4 then None
    else if AllKnown(s[..4]) then
      var rest := Lenient(s[4..]);
      if rest.None? then None else Some(Three(s[..4]) + rest.value)
    else if |s| == 4 && AllKnown(s[..3]) && s[3] == '=' then Some(Two(s[..3]))
    else if |s| == 4 && AllKnown(s[..2]) && s[2] == '=' && s[3] == '=' then Some(One(s[..2]))
    else None
  }

  function Padding(n: nat): seq<char> {
    if n % 4 == 0 then [] else if n % 4 == 3 then ['='] else if n % 4 == 2 then ['=', '='] else ['=', '=', '=']
  }

  function Unb64(s: seq<char>): Option<seq<byte>> {
    if s == [] then None
    else
      var decoded := Lenient(s + Padding(|s|));
      if decoded.None? || B64(decoded.value) != s then None else decoded
  }

  // ------------------------------------------------------------ the decoder inverts the encoder

  lemma Digits(a: byte, b: byte, c: byte)
    ensures var v, w, x, y := a / 4, a % 4 * 16 + b / 16, b % 16 * 4 + c / 64, c % 64;
            && w / 16 == a % 4 && w % 16 == b / 16 && x / 4 == b % 16 && x % 4 == c / 64
            && v * 4 + w / 16 == a && w % 16 * 16 + x / 4 == b && x % 4 * 64 + y == c
  {
    var w, x := a % 4 * 16 + b / 16, b % 16 * 4 + c / 64;
    assert w / 16 == a % 4 && w % 16 == b / 16;
    assert x / 4 == b % 16 && x % 4 == c / 64;
  }

  lemma FourThree(a: byte, b: byte, c: byte)
    ensures var s := Four(a, b, c); AllKnown(s) && Three(s) == [a, b, c]
  {
    FourSafe(a, b, c);
    CharValue(a / 4);
    CharValue(a % 4 * 16 + b / 16);
    CharValue(b % 16 * 4 + c / 64);
    CharValue(c % 64);
    Digits(a, b, c);
  }

  lemma LenientTails(x: char, y: char, z: char)
    requires Known(x) && Known(y) && Known(z)
    ensures Lenient([x, y, '=', '=']) == Some(One([x, y]))
    ensures Lenient([x, y, z, '=']) == Some(Two([x, y, z]))
  {
    var s, t := [x, y, '=', '='], [x, y, z, '='];
    assert s[..4] == s && '=' in s && s[..3] == [x, y, '='] && '=' in s[..3] && s[..2] == [x, y];
    assert t[..4] == t && '=' in t && t[..3] == [x, y, z];
  }

  lemma OneInverts(a: byte)
    ensures Lenient(B64([a]) + ['=', '=']) == Some([a])
  {
    var x, y := Char(a / 4), Char(a % 4 * 16);
    CharValue(a / 4);
    CharValue(a % 4 * 16);
    Digits(a, 0, 0);
    LenientTails(x, y, 'A');
    assert B64([a]) + ['=', '='] == [x, y, '=', '='];
  }

  lemma TwoInverts(a: byte, b: byte)
    ensures Lenient(B64([a, b]) + ['=']) == Some([a, b])
  {
    var x, y, z := Char(a / 4), Char(a % 4 * 16 + b / 16), Char(b % 16 * 4);
    CharValue(a / 4);
    CharValue(a % 4 * 16 + b / 16);
    CharValue(b % 16 * 4);
    Digits(a, b, 0);
    LenientTails(x, y, z);
    assert B64([a, b]) + ['='] == [x, y, z, '='];
  }

  lemma {:induction false} LenientInverts(b: seq<byte>)
    ensures Lenient(B64(b) + Padding(|B64(b)|)) == Some(b)
    decreases |b|
  {
    if |b| == 1 {
      OneInverts(b[0]);
      assert b == [b[0]];
    } else if |b| == 2 {
      TwoInverts(b[0], b[1]);
      assert b == [b[0], b[1]];
    } else if |b| >= 3 {
      LenientInverts(b[3..]);
      InvertsStep(b);
    }
  }

  lemma InvertsStep(b: seq<byte>)
    requires |b| >= 3 && Lenient(B64(b[3..]) + Padding(|B64(b[3..])|)) == Some(b[3..])
    ensures Lenient(B64(b) + Padding(|B64(b)|)) == Some(b)
  {
    var four, rest := Four(b[0], b[1], b[2]), B64(b[3..]);
    assert B64(b) == four + rest;
    FourThree(b[0], b[1], b[2]);
    LenientFour(four, rest);
    assert [b[0], b[1], b[2]] + b[3..] == b;
  }

  lemma LenientFour(four: seq<char>, rest: seq<char>)
    requires |four| == 4 && AllKnown(four) && Lenient(rest + Padding(|rest|)).Some?
    ensures var s := four + rest;
            Lenient(s + Padding(|s|)) == Some(Three(four) + Lenient(rest + Padding(|rest|)).value)
  {
    var s := four + rest;
    var t := s + Padding(|s|);
    assert Padding(|s|) == Padding(|rest|);
    assert t[..4] == four && t[4..] == rest + Padding(|rest|);
  }

  /** `_unb64` accepts exactly the non-empty outputs of `_b64`, and inverts it: every byte string has one spelling. */
  lemma Unb64Exact(s: seq<char>, b: seq<byte>)
    ensures Unb64(s) == Some(b) <==> s != [] && s == B64(b)
  {
    if s == B64(b) { LenientInverts(b); }
  }

  // ------------------------------------------------------------ which strings those are

  /** The stray bits that the last digit must leave zero. */
  predicate NoStrayBits(s: seq<char>)
    requires forall c :: c in s ==> Safe(c)
  {
    && |s| % 4 != 1
    && (|s| % 4 == 2 ==> Value(s[|s| - 1]) % 16 == 0)
    && (|s| % 4 == 3 ==> Value(s[|s| - 1]) % 4 == 0)
  }

  predicate Canonical(s: seq<char>) {
    (forall c :: c in s ==> Safe(c)) && NoStrayBits(s)
  }

  /** Splitting off `d / k` and `d % k` and putting them back. */
  lemma Regroup(hi: int, d: digit, lo: int, k: int)
    requires (k == 16 || k == 4) && 0 <= lo < 256 / k
    ensures (hi * (64 / k) + d / k) / (64 / k) == hi && (hi * (64 / k) + d / k) % (64 / k) == d / k
    ensures d / k * k + d % k == d
    ensures (d % k * (256 / k) + lo) / (256 / k) == d % k && (d % k * (256 / k) + lo) % (256 / k) == lo
  {
    if k == 16 {
      assert (hi * 4 + d / 16) / 4 == hi;
    } else {
      assert (hi * 16 + d / 4) / 16 == hi;
    }
  }

  lemma ThreeFour(s: seq<char>)
    requires |s| == 4 && forall c :: c in s ==> Safe(c)
    ensures var b := Three(s); Four(b[0], b[1], b[2]) == s
  {
    var v, w, x, y := Value(s[0]), Value(s[1]), Value(s[2]), Value(s[3]);
    var b := Three(s);
    Regroup(v, w, x / 4, 16);
    Regroup(w % 16, x, y, 4);
    assert b[0] / 4 == v && b[0] % 4 == w / 16 && b[1] / 16 == w % 16 && b[1] % 16 == x / 4;
    assert b[2] / 64 == x % 4 && b[2] % 64 == y;
    SafeDigits(s);
  }

  lemma SafeDigits(s: seq<char>)
    requires forall c :: c in s ==> Safe(c)
    ensures forall i :: 0 <= i < |s| ==> Char(Value(s[i])) == s[i]
  {
    forall i | 0 <= i < |s| ensures Char(Value(s[i])) == s[i] {
      ValueChar(s[i]);
    }
  }

  lemma TwoThree(s: seq<char>)
    requires |s| == 3 && (forall c :: c in s ==> Safe(c)) && Value(s[2]) % 4 == 0
    ensures B64(Two(s)) == s
  {
    var v, w, x := Value(s[0]), Value(s[1]), Value(s[2]);
    var b := Two(s);
    Regroup(v, w, x / 4, 16);
    Regroup(w % 16, x, 0, 4);
    assert b[0] / 4 == v && b[0] % 4 * 16 + b[1] / 16 == w && b[1] % 16 * 4 == x;
    SafeDigits(s);
  }

  lemma OneTwo(s: seq<char>)
    requires |s| == 2 && (forall c :: c in s ==> Safe(c)) && Value(s[1]) % 16 == 0
    ensures B64(One(s)) == s
  {
    Regroup(Value(s[0]), Value(s[1]), 0, 16);
    SafeDigits(s);
  }

  lemma {:induction false} B64Canonical(b: seq<byte>)
    ensures Canonical(B64(b))
    decreases |b|
  {
    B64Safe(b);
    if |b| == 1 {
      CharValue(b[0] % 4 * 16);
    } else if |b| == 2 {
      CharValue(b[1] % 16 * 4);
    } else if |b| >= 3 {
      B64Canonical(b[3..]);
      StepCanonical(Four(b[0], b[1], b[2]), B64(b[3..]));
    }
  }

  lemma StepCanonical(four: seq<char>, rest: seq<char>)
    requires |four| == 4 && Canonical(rest) && forall c :: c in four + rest ==> Safe(c)
    ensures Canonical(four + rest)
  {
    var s := four + rest;
    if rest != [] { assert s[|s| - 1] == rest[|rest| - 1]; }
  }

  /** A canonical string is the encoding of some bytes. */
  lemma {:induction false} CanonicalIsB64(s: seq<char>) returns (b: seq<byte>)
    requires Canonical(s)
    ensures B64(b) == s
    decreases |s|
  {
    if s == [] {
      b := [];
    } else if |s| == 2 {
      OneTwo(s);
      b := One(s);
    } else if |s| == 3 {
      TwoThree(s);
      b := Two(s);
    } else {
      TailCanonical(s);
      var rest := CanonicalIsB64(s[4..]);
      ThreeFour(s[..4]);
      b := Three(s[..4]) + rest;
      assert b[3..] == rest && s == s[..4] + s[4..];
    }
  }

  lemma TailCanonical(s: seq<char>)
    requires Canonical(s) && |s| >= 4
    ensures Canonical(s[4..])
  {
    var t := s[4..];
    assert |t| % 4 == |s| % 4;
    if t != [] { assert t[|t| - 1] == s[|s| - 1]; }
  }

  /** Accepted are exactly the non-empty strings over the url-safe alphabet, without padding, that have a possible
      length and leave no stray bits. */
  lemma Unb64Accepts(s: seq<char>)
    ensures Unb64(s).Some? <==> s != [] && Canonical(s)
  {
    if Unb64(s).Some? {
      Unb64Exact(s, Unb64(s).value);
      B64Canonical(Unb64(s).value);
    }
    if s != [] && Canonical(s) {
      var b := CanonicalIsB64(s);
      Unb64Exact(s, b);
    }
  }

  lemma {:induction false} B64Length(b: seq<byte>)
    ensures 4 * |b| <= 3 * |B64(b)| <= 4 * |b| + 2
    decreases |b|
  {
    if |b| >= 3 { B64Length(b[3..]); }
  }
}
