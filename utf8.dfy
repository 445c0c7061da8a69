/** UTF-8 as Rust's `str::from_utf8` accepts it and `str::as_bytes` produces it
    (the encoding of section 3 of RFC 3629: no overlong forms, no surrogates,
    nothing above U+10FFFF). */
module Utf8 {
  import opened Io

  /** A continuation byte `10xxxxxx`. */
  predicate IsCont(b: uint8)
  {
    0x80 <= b < 0xC0
  }

  /** The bytes of one Unicode scalar value. */
  function EncodeChar(c: char): (r: Bytes)
    ensures 1 <= |r| <= 4
    ensures (c as int < 0x80) <==> |r| == 1
  {
    var n := c as int;
    if n < 0x80 then
      [n as uint8]
    else if n < 0x800 then
      [(0xC0 + n / 64) as uint8, (0x80 + n % 64) as uint8]
    else if n < 0x10000 then
      [(0xE0 + n / 4096) as uint8, (0x80 + n / 64 % 64) as uint8, (0x80 + n % 64) as uint8]
    else
      [(0xF0 + n / 262144) as uint8, (0x80 + n / 4096 % 64) as uint8,
       (0x80 + n / 64 % 64) as uint8, (0x80 + n % 64) as uint8]
  }

  /** The bytes of a string: the concatenation of the bytes of its characters. */
  function Encode(s: string): (r: Bytes)
    ensures |r| >= |s|
  {
    if s == [] then [] else EncodeChar(s[0]) + Encode(s[1..])
  }

  /** Decodes the scalar value at the front of `b`, with the number of bytes it takes,
      or None when `b` does not start with a well-formed sequence. */
  function DecodeFirst(b: Bytes): (r: Option<(char, nat)>)
    ensures r.Some? ==> 1 <= r.value.1 <= |b|
  {
    if |b| == 0 then None
    else if b[0] < 0x80 then
      Some(((b[0] as int) as char, 1))
    else if 0xC2 <= b[0] < 0xE0 then
      if |b| >= 2 && IsCont(b[1]) then
        Some((((b[0] as int - 0xC0) * 64 + (b[1] as int - 0x80)) as char, 2))
      else None
    else if 0xE0 <= b[0] < 0xF0 then
      if |b| >= 3 && IsCont(b[1]) && IsCont(b[2]) then
        var n := (b[0] as int - 0xE0) * 4096 + (b[1] as int - 0x80) * 64 + (b[2] as int - 0x80);
        if 0x800 <= n && !(0xD800 <= n < 0xE000) then Some((n as char, 3)) else None
      else None
    else if 0xF0 <= b[0] < 0xF5 then
      if |b| >= 4 && IsCont(b[1]) && IsCont(b[2]) && IsCont(b[3]) then
        var n := (b[0] as int - 0xF0) * 262144 + (b[1] as int - 0x80) * 4096
                 + (b[2] as int - 0x80) * 64 + (b[3] as int - 0x80);
        if 0x10000 <= n < 0x110000 then Some((n as char, 4)) else None
      else None
    else None
  }

  /** `str::from_utf8`: the string `b` encodes, or None when `b` is not well-formed UTF-8. */
  function Decode(b: Bytes): (r: Option<string>)
    decreases |b|
  {
    if b == [] then Some([])
    else match DecodeFirst(b)
      case None => None
      case Some((c, k)) =>
        match Decode(b[k..])
        case None => None
        case Some(s) => Some([c] + s)
  }

  predicate IsValid(b: Bytes)
  {
    Decode(b).Some?
  }

  lemma DecodeFirstOfEncodeChar(c: char, rest: Bytes)
    ensures DecodeFirst(EncodeChar(c) + rest) == Some((c, |EncodeChar(c)|))
  {
    var n := c as int;
    var e := EncodeChar(c) + rest;
    if n < 0x80 {
    } else if n < 0x800 {
      assert e[0] as int == 0xC0 + n / 64 && e[1] as int == 0x80 + n % 64;
      assert (n / 64) * 64 + n % 64 == n;
    } else if n < 0x10000 {
      assert e[0] as int == 0xE0 + n / 4096 && e[1] as int == 0x80 + n / 64 % 64 && e[2] as int == 0x80 + n % 64;
      DivMod3(n);
    } else {
      assert e[0] as int == 0xF0 + n / 262144 && e[1] as int == 0x80 + n / 4096 % 64;
      assert e[2] as int == 0x80 + n / 64 % 64 && e[3] as int == 0x80 + n % 64;
      DivMod4(n);
    }
  }

  /** Dividing by 64 twice is dividing by 4096. */
  lemma DivDiv64(n: int)
    requires 0 <= n
    ensures n / 64 / 64 == n / 4096
  {
    var q, r := n / 64 / 64, n / 64 % 64;
    assert n / 64 == q * 64 + r;
    assert n == q * 4096 + r * 64 + n % 64;
  }

  lemma DivMod3(n: int)
    requires 0 <= n
    ensures (n / 4096) * 4096 + (n / 64 % 64) * 64 + n % 64 == n
  {
    DivDiv64(n);
    assert n / 64 == (n / 4096) * 64 + n / 64 % 64;
    assert n == (n / 64) * 64 + n % 64;
  }

  lemma DivMod4(n: int)
    requires 0 <= n < 0x110000
    ensures (n / 262144) * 262144 + (n / 4096 % 64) * 4096 + (n / 64 % 64) * 64 + n % 64 == n
  {
    var q1 := n / 64;
    var q2 := q1 / 64;
    DivDiv64(n);
    DivDiv64(q1);
    assert q2 == n / 4096;
    assert q2 / 64 == n / 262144 by {
      assert q1 / 4096 == n / 262144;
    }
    assert n == q1 * 64 + n % 64;
    assert q1 == q2 * 64 + q1 % 64;
    assert q2 == (q2 / 64) * 64 + q2 % 64;
  }

  /** The sequence DecodeFirst accepts is exactly the encoding of the character it yields. */
  lemma EncodeCharOfDecodeFirst(b: Bytes)
    requires DecodeFirst(b).Some?
    ensures EncodeChar(DecodeFirst(b).value.0) == b[..DecodeFirst(b).value.1]
  {
    var c := DecodeFirst(b).value.0;
    var n := c as int;
    var b0, k := b[0] as int, DecodeFirst(b).value.1;
    if b0 < 0x80 {
    } else if b0 < 0xE0 {
      var b1 := b[1] as int;
      assert n == (b0 - 0xC0) * 64 + (b1 - 0x80);
      assert n / 64 == b0 - 0xC0 && n % 64 == b1 - 0x80;
      assert EncodeChar(c) == [b[0], b[1]];
    } else if b0 < 0xF0 {
      var b1, b2 := b[1] as int, b[2] as int;
      assert n == (b0 - 0xE0) * 4096 + (b1 - 0x80) * 64 + (b2 - 0x80);
      assert n / 64 == (b0 - 0xE0) * 64 + (b1 - 0x80) && n % 64 == b2 - 0x80;
      assert n / 4096 == n / 64 / 64 == b0 - 0xE0;
      assert n / 64 % 64 == b1 - 0x80;
      assert EncodeChar(c) == [b[0], b[1], b[2]];
    } else {
      var b1, b2, b3 := b[1] as int, b[2] as int, b[3] as int;
      assert n == (b0 - 0xF0) * 262144 + (b1 - 0x80) * 4096 + (b2 - 0x80) * 64 + (b3 - 0x80);
      assert n / 64 == (b0 - 0xF0) * 4096 + (b1 - 0x80) * 64 + (b2 - 0x80) && n % 64 == b3 - 0x80;
      assert n / 4096 == n / 64 / 64 == (b0 - 0xF0) * 64 + (b1 - 0x80);
      assert n / 262144 == n / 4096 / 64 == b0 - 0xF0;
      assert n / 64 % 64 == b2 - 0x80 && n / 4096 % 64 == b1 - 0x80;
      assert EncodeChar(c) == [b[0], b[1], b[2], b[3]];
    }
  }

  lemma {:induction false} EncodeAppend(s: string, t: string)
    ensures Encode(s + t) == Encode(s) + Encode(t)
  {
    if s == [] {
      assert s + t == t;
    } else {
      assert (s + t)[1..] == s[1..] + t;
      EncodeAppend(s[1..], t);
    }
  }

  /** Decoding the bytes of a string gives the string back. */
  lemma {:induction false} DecodeEncode(s: string)
    ensures Decode(Encode(s)) == Some(s)
  {
    if s != [] {
      var e := EncodeChar(s[0]);
      DecodeFirstOfEncodeChar(s[0], Encode(s[1..]));
      assert (e + Encode(s[1..]))[|e|..] == Encode(s[1..]);
      DecodeEncode(s[1..]);
      assert [s[0]] + s[1..] == s;
    }
  }

  /** Well-formed nonempty bytes are the encoding of their first scalar value followed by
      well-formed bytes, and decode to that value followed by what those decode to. */
  lemma DecodeStep(b: Bytes) returns (c: char, k: nat)
    requires b != [] && IsValid(b)
    ensures 1 <= k <= |b| && EncodeChar(c) == b[..k]
    ensures IsValid(b[k..]) && Decode(b).value == [c] + Decode(b[k..]).value
  {
    c, k := DecodeFirst(b).value.0, DecodeFirst(b).value.1;
    EncodeCharOfDecodeFirst(b);
  }

  /** Well-formed bytes are exactly the encoding of the string they decode to. */
  lemma {:induction false} EncodeDecode(b: Bytes)
    requires IsValid(b)
    ensures Encode(Decode(b).value) == b
    decreases |b|
  {
    if b != [] {
      var c, k := DecodeStep(b);
      var s, rest := Decode(b).value, b[k..];
      EncodeDecode(rest);
      assert s[0] == c && s[1..] == Decode(rest).value;
      assert Encode(s) == EncodeChar(c) + Encode(Decode(rest).value);
      assert b == b[..k] + rest;
    }
  }

  /** The two round trips together: `from_utf8(b)` yields `s` exactly when `b` is the encoding of `s`. */
  lemma DecodeIffEncode(b: Bytes, s: string)
    ensures Decode(b) == Some(s) <==> b == Encode(s)
  {
    DecodeEncode(s);
    if Decode(b) == Some(s) {
      EncodeDecode(b);
    }
  }

  /** Every string encodes to well-formed bytes, and concatenations of well-formed bytes stay well-formed. */
  lemma ValidConcat(a: Bytes, b: Bytes)
    requires IsValid(a) && IsValid(b)
    ensures IsValid(a + b) && Decode(a + b).value == Decode(a).value + Decode(b).value
  {
    var s, t := Decode(a).value, Decode(b).value;
    EncodeDecode(a);
    EncodeDecode(b);
    EncodeAppend(s, t);
    DecodeEncode(s + t);
  }

  /** Distinct strings have distinct encodings, and every encoding is well-formed. */
  lemma EncodeInjective(s: string, t: string)
    ensures IsValid(Encode(s))
    ensures Encode(s) == Encode(t) <==> s == t
  {
    DecodeEncode(s);
    DecodeEncode(t);
  }
}
