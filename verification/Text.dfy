/** Characters of UTF-8 text, as Go's strings, unicode and utf8 packages classify them. */
module Text {
  import opened Messages

  predicate Continuation(c: char) {
    0x80 <= c as int < 0xC0
  }

  function Tail(c: char): int {
    c as int % 64
  }

  // The first character of a byte string and its length: shortest form, no surrogates, at most
  // 0x10FFFF.
  function FirstRune(s: string): (r: Option<(int, nat)>)
    requires s != ""
    ensures r.Some? ==> 1 <= r.value.1 <= |s|
  {
    var b := s[0] as int;
    if b < 0x80 then Some((b, 1))
    else if 0xC2 <= b < 0xE0 && |s| >= 2 && Continuation(s[1]) then
      Some((b % 32 * 64 + Tail(s[1]), 2))
    else if 0xE0 <= b < 0xF0 && |s| >= 3 && Continuation(s[1]) && Continuation(s[2]) then
      var r := b % 16 * 4096 + Tail(s[1]) * 64 + Tail(s[2]);
      if r < 0x800 || 0xD800 <= r < 0xE000 then None else Some((r, 3))
    else if 0xF0 <= b < 0xF5 && |s| >= 4 && Continuation(s[1]) && Continuation(s[2]) && Continuation(s[3]) then
      var r := b % 8 * 262144 + Tail(s[1]) * 4096 + Tail(s[2]) * 64 + Tail(s[3]);
      if r < 0x10000 || r > 0x10FFFF then None else Some((r, 4))
    else None
  }

  // The characters of a valid UTF-8 string.
  function Runes(s: string): Option<seq<int>>
    decreases |s|
  {
    if s == "" then Some([])
    else
      match FirstRune(s)
      case None => None
      case Some((r, n)) =>
        match Runes(s[n..])
        case None => None
        case Some(rest) => Some([r] + rest)
  }

  // unicode.IsControl
  predicate Control(r: int) {
    0 <= r < 0x20 || 0x7F <= r < 0xA0
  }

  // unicode.IsSpace
  predicate Space(r: int) {
    || 0x09 <= r <= 0x0D || r == 0x20 || r == 0x85 || r == 0xA0 || r == 0x1680 || 0x2000 <= r <= 0x200A
    || r == 0x2028 || r == 0x2029 || r == 0x202F || r == 0x205F || r == 0x3000
  }

  // Some text, not only white space, within the limit and free of terminal control characters.
  predicate PromptText(text: string, limit: nat) {
    && |text| <= limit
    && Runes(text).Some?
    && var rs := Runes(text).value;
       && (exists i | 0 <= i < |rs| :: !Space(rs[i]))
       && (forall i | 0 <= i < |rs| :: Control(rs[i]) ==> rs[i] in {10, 13, 9})
  }

  /******* Encoding *******/

  // A Unicode scalar value: what ranging over a valid string yields.
  predicate ScalarValue(r: int) {
    0 <= r < 0xD800 || 0xE000 <= r <= 0x10FFFF
  }

  // utf8.RuneLen
  function RuneLen(r: int): nat {
    if r < 0x80 then 1 else if r < 0x800 then 2 else if r < 0x10000 then 3 else 4
  }

  function Byte(n: int): char
    requires 0 <= n < 256
  {
    n as char
  }

  function EncodeRune(r: int): (s: string)
    requires ScalarValue(r)
    ensures |s| == RuneLen(r)
  {
    if r < 0x80 then [Byte(r)]
    else if r < 0x800 then [Byte(0xC0 + r / 64), Byte(0x80 + r % 64)]
    else if r < 0x10000 then [Byte(0xE0 + r / 4096), Byte(0x80 + r / 64 % 64), Byte(0x80 + r % 64)]
    else [Byte(0xF0 + r / 262144), Byte(0x80 + r / 4096 % 64), Byte(0x80 + r / 64 % 64), Byte(0x80 + r % 64)]
  }

  predicate ScalarValues(rs: seq<int>) {
    forall i | 0 <= i < |rs| :: ScalarValue(rs[i])
  }

  function ByteLen(rs: seq<int>): nat {
    if rs == [] then 0 else RuneLen(rs[0]) + ByteLen(rs[1..])
  }

  function Encode(rs: seq<int>): (s: string)
    requires ScalarValues(rs)
    ensures |s| == ByteLen(rs)
  {
    if rs == [] then "" else EncodeRune(rs[0]) + Encode(rs[1..])
  }

  // Digits in base 64.
  lemma Digits(r: int)
    requires 0 <= r <= 0x10FFFF
    ensures r == r / 64 * 64 + r % 64
    ensures r / 64 == r / 4096 * 64 + r / 64 % 64
    ensures r / 4096 == r / 262144 * 64 + r / 4096 % 64
    ensures 0 <= r / 262144 < 5
  {
  }

  lemma FirstOfEncoded(r: int, rest: string)
    requires ScalarValue(r)
    ensures FirstRune(EncodeRune(r) + rest) == Some((r, RuneLen(r)))
  {
    Digits(r);
    if r < 0x80 {
    } else if r < 0x800 {
      TwoBytes(r, rest);
    } else if r < 0x10000 {
      ThreeBytes(r, rest);
    } else {
      FourBytes(r, rest);
    }
  }

  lemma TwoBytes(r: int, rest: string)
    requires 0x80 <= r < 0x800
    ensures FirstRune(EncodeRune(r) + rest) == Some((r, 2))
  {
    Digits(r);
    assert (0xC0 + r / 64) % 32 == r / 64;
    assert (0x80 + r % 64) % 64 == r % 64;
  }

  lemma ThreeBytes(r: int, rest: string)
    requires 0x800 <= r < 0x10000 && ScalarValue(r)
    ensures FirstRune(EncodeRune(r) + rest) == Some((r, 3))
  {
    Digits(r);
    var a, b, c := r / 4096, r / 64 % 64, r % 64;
    assert r == a * 4096 + b * 64 + c;
    assert 0 <= a < 16 && (0xE0 + a) % 16 == a;
    assert (0x80 + b) % 64 == b && (0x80 + c) % 64 == c;
  }

  lemma FourBytes(r: int, rest: string)
    requires 0x10000 <= r <= 0x10FFFF
    ensures FirstRune(EncodeRune(r) + rest) == Some((r, 4))
  {
    Digits(r);
    var a, b, c, d := r / 262144, r / 4096 % 64, r / 64 % 64, r % 64;
    assert r == a * 262144 + b * 4096 + c * 64 + d;
    assert 0 <= a < 8 && (0xF0 + a) % 8 == a;
    assert (0x80 + b) % 64 == b && (0x80 + c) % 64 == c && (0x80 + d) % 64 == d;
  }

  /** Encoding and decoding are inverse: what is written rune by rune is valid UTF-8 and reads back
      as the same runes. */
  lemma {:induction false} EncodeRoundTrip(rs: seq<int>)
    requires ScalarValues(rs)
    ensures Runes(Encode(rs)) == Some(rs)
  {
    if rs != [] {
      var s := Encode(rs);
      FirstOfEncoded(rs[0], Encode(rs[1..]));
      assert s[RuneLen(rs[0])..] == Encode(rs[1..]);
      EncodeRoundTrip(rs[1..]);
      assert [rs[0]] + rs[1..] == rs;
    }
  }

  lemma {:induction false} ByteLenAppend(a: seq<int>, b: seq<int>)
    ensures ByteLen(a + b) == ByteLen(a) + ByteLen(b)
  {
    if a == [] {
      assert a + b == b;
    } else {
      assert (a + b)[1..] == a[1..] + b;
      ByteLenAppend(a[1..], b);
    }
  }

  /******* Numbers *******/

  // strconv.Itoa for a natural number
  function Decimal(n: nat): (s: string)
    ensures |s| >= 1 && (|s| == 1 <==> n < 10)
  {
    if n < 10 then [(n as char) + '0'] else Decimal(n / 10) + [((n % 10) as char) + '0']
  }

  /** Different numbers are written differently. */
  lemma {:induction false} DecimalIsInjective(a: nat, b: nat)
    requires Decimal(a) == Decimal(b)
    ensures a == b
  {
    if a >= 10 && b >= 10 {
      var x, y := Decimal(a / 10), Decimal(b / 10);
      assert x == Decimal(a)[..|x|] && y == Decimal(b)[..|y|];
      assert Decimal(a)[|x|] == Decimal(b)[|y|];
      DecimalIsInjective(a / 10, b / 10);
    }
  }
}
