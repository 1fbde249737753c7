/** UTF-8 as RFC 3629 defines it (section 4: the byte ranges of a
    well-formed sequence), the encoding Rust's `String` and `&str` hold:
    `as_bytes` encodes, `String::from_utf8` decodes and fails on any
    ill-formed sequence, and `String::from_utf8_lossy` replaces each maximal
    ill-formed subpart by U+FFFD. */
module Utf8 {
  import opened Base

  /** The length of the sequence that lead byte b starts; 0 when b cannot
      start one. */
  function SequenceLength(b: Byte): nat
  {
    if b < 0x80 then 1
    else if 0xC2 <= b <= 0xDF then 2
    else if 0xE0 <= b <= 0xEF then 3
    else if 0xF0 <= b <= 0xF4 then 4
    else 0
  }

  /** The range of the second byte after lead byte b, which is narrower
      after E0, ED, F0 and F4 (no overlong forms, no surrogates, nothing
      above U+10FFFF). */
  predicate SecondOk(b: Byte, c: Byte)
  {
    (if b == 0xE0 then 0xA0 else if b == 0xF0 then 0x90 else 0x80) <= c
    && c <= (if b == 0xED then 0x9F else if b == 0xF4 then 0x8F else 0xBF)
  }

  predicate IsContinuation(c: Byte) { 0x80 <= c <= 0xBF }

  /** How many bytes at the start of b belong to one well-formed sequence
      or to the longest prefix of one (a maximal subpart); at least 1 for a
      non-empty b. */
  function PrefixLength(b: seq<Byte>): (n: nat)
    requires |b| > 0
    ensures 1 <= n <= |b| && n <= 4
  {
    var len := SequenceLength(b[0]);
    if len <= 1 then 1
    else if |b| < 2 || !SecondOk(b[0], b[1]) then 1
    else if len == 2 || |b| < 3 || !IsContinuation(b[2]) then 2
    else if len == 3 || |b| < 4 || !IsContinuation(b[3]) then 3
    else 4
  }

  /** b starts with a complete well-formed sequence. */
  predicate StartsComplete(b: seq<Byte>)
    requires |b| > 0
  {
    SequenceLength(b[0]) > 0 && PrefixLength(b) == SequenceLength(b[0])
  }

  /** The scalar value of the complete sequence at the start of b. */
  function LeadChar(b: seq<Byte>): char
    requires |b| > 0 && StartsComplete(b)
  {
    var len := SequenceLength(b[0]);
    var b0: int := b[0];
    if len == 1 then b0 as char
    else
      var b1 := b[1] as int - 0x80;
      if len == 2 then ((b0 - 0xC0) * 64 + b1) as char
      else
        var b2 := b[2] as int - 0x80;
        if len == 3 then ((b0 - 0xE0) * 4096 + b1 * 64 + b2) as char
        else ((b0 - 0xF0) * 262144 + b1 * 4096 + b2 * 64 + (b[3] as int - 0x80)) as char
  }

  /** `String::from_utf8`: the characters, or None at the first ill-formed
      sequence. */
  function Decode(b: seq<Byte>): Option<string>
    decreases |b|
  {
    if |b| == 0 then Some([])
    else if !StartsComplete(b) then None
    else match Decode(b[SequenceLength(b[0])..])
      case None => None
      case Some(rest) => Some([LeadChar(b)] + rest)
  }

  /** `String::from_utf8_lossy`: well-formed sequences decoded, each maximal
      ill-formed subpart replaced by U+FFFD. */
  function DecodeLossy(b: seq<Byte>): string
    decreases |b|
  {
    if |b| == 0 then []
    else if StartsComplete(b) then [LeadChar(b)] + DecodeLossy(b[SequenceLength(b[0])..])
    else [0xFFFD as char] + DecodeLossy(b[PrefixLength(b)..])
  }

  /** Where the strict decoding succeeds, the lossy one agrees with it. */
  lemma {:induction false} LossyAgrees(b: seq<Byte>)
    requires Decode(b).Some?
    ensures DecodeLossy(b) == Decode(b).value
    decreases |b|
  {
    if |b| > 0 {
      LossyAgrees(b[SequenceLength(b[0])..]);
    }
  }

  /** The encoding of one character: 1 to 4 bytes by the size of its
      scalar value. */
  function EncodeChar(c: char): (r: seq<Byte>)
    ensures 1 <= |r| <= 4
  {
    var n := c as int;
    if n < 0x80 then [n]
    else if n < 0x800 then [0xC0 + n / 64, 0x80 + n % 64]
    else if n < 0x10000 then [0xE0 + n / 4096, 0x80 + (n / 64) % 64, 0x80 + n % 64]
    else [0xF0 + n / 262144, 0x80 + (n / 4096) % 64, 0x80 + (n / 64) % 64, 0x80 + n % 64]
  }

  /** `as_bytes`: the characters' encodings one after the other. */
  function Encode(s: string): seq<Byte>
  {
    if |s| == 0 then [] else EncodeChar(s[0]) + Encode(s[1..])
  }

  /** A two-byte encoding starts a complete sequence decoding to c. */
  lemma {:induction false} EncodeTwoDecodes(c: char, rest: seq<Byte>)
    requires 0x80 <= c as int < 0x800
    ensures StartsComplete(EncodeChar(c) + rest)
    ensures SequenceLength((EncodeChar(c) + rest)[0]) == 2
    ensures LeadChar(EncodeChar(c) + rest) == c
  {
    var n := c as int;
    assert n == (n / 64) * 64 + n % 64;
  }

  /** A three-byte encoding starts a complete sequence decoding to c. */
  lemma {:induction false} EncodeThreeDecodes(c: char, rest: seq<Byte>)
    requires 0x800 <= c as int < 0x10000
    ensures StartsComplete(EncodeChar(c) + rest)
    ensures SequenceLength((EncodeChar(c) + rest)[0]) == 3
    ensures LeadChar(EncodeChar(c) + rest) == c
  {
    var n := c as int;
    assert n / 64 == (n / 4096) * 64 + (n / 64) % 64;
    assert n == (n / 64) * 64 + n % 64;
  }

  /** A four-byte encoding starts a complete sequence decoding to c. */
  lemma {:induction false} EncodeFourDecodes(c: char, rest: seq<Byte>)
    requires 0x10000 <= c as int
    ensures StartsComplete(EncodeChar(c) + rest)
    ensures SequenceLength((EncodeChar(c) + rest)[0]) == 4
    ensures LeadChar(EncodeChar(c) + rest) == c
  {
    var n := c as int;
    assert n / 4096 == (n / 262144) * 64 + (n / 4096) % 64;
    assert n / 64 == (n / 4096) * 64 + (n / 64) % 64;
    assert n == (n / 64) * 64 + n % 64;
  }

  /** One character's encoding, followed by anything, starts with a
      complete sequence of that length which decodes to the character. */
  lemma {:induction false} EncodeCharDecodes(c: char, rest: seq<Byte>)
    ensures StartsComplete(EncodeChar(c) + rest)
    ensures SequenceLength((EncodeChar(c) + rest)[0]) == |EncodeChar(c)|
    ensures LeadChar(EncodeChar(c) + rest) == c
  {
    var n := c as int;
    if n < 0x80 {
    } else if n < 0x800 {
      EncodeTwoDecodes(c, rest);
    } else if n < 0x10000 {
      EncodeThreeDecodes(c, rest);
    } else {
      EncodeFourDecodes(c, rest);
    }
  }

  /** Decoding what was encoded gives back the text. */
  lemma {:induction false} DecodeEncode(s: string)
    ensures Decode(Encode(s)) == Some(s)
    decreases |s|
  {
    if |s| > 0 {
      var e := EncodeChar(s[0]);
      var rest := Encode(s[1..]);
      EncodeCharDecodes(s[0], rest);
      assert Encode(s) == e + rest;
      assert (e + rest)[|e|..] == rest;
      DecodeEncode(s[1..]);
      assert [s[0]] + s[1..] == s;
    }
  }

  /** A character below 0x80 is one byte of the same value. */
  lemma {:induction false} EncodeAscii(s: string)
    requires forall k :: 0 <= k < |s| ==> s[k] as int < 0x80
    ensures |Encode(s)| == |s|
    ensures forall k :: 0 <= k < |s| ==> Encode(s)[k] == s[k] as int
    decreases |s|
  {
    if |s| > 0 {
      EncodeAscii(s[1..]);
    }
  }
  /** One char per byte, of the byte's value (Rust's `b as char`). */
  function Latin1(b: seq<Byte>): (r: string)
    ensures |r| == |b| && forall k :: 0 <= k < |b| ==> r[k] as int == b[k]
  {
    if |b| == 0 then [] else [b[0] as char] + Latin1(b[1..])
  }

  /** The encoding of a text only holds a byte below 0x80 where the text
      holds that character. */
  lemma {:induction false} EncodeAsciiBytes(s: string, x: Byte)
    requires x < 0x80
    ensures x in Encode(s) ==> x as char in s
    decreases |s|
  {
    if |s| == 0 { return; }
    var e := EncodeChar(s[0]);
    assert Encode(s) == e + Encode(s[1..]);
    if x in e {
      assert e == [x];
    } else {
      EncodeAsciiBytes(s[1..], x);
    }
  }

  /** ASCII bytes read one char per byte encode back to themselves. */
  lemma {:induction false} EncodeLatin1Ascii(b: seq<Byte>)
    requires forall k :: 0 <= k < |b| ==> b[k] < 0x80
    ensures Encode(Latin1(b)) == b
    decreases |b|
  {
    if |b| > 0 {
      var l := Latin1(b);
      assert l[1..] == Latin1(b[1..]);
      EncodeLatin1Ascii(b[1..]);
      assert b == [b[0]] + b[1..];
    }
  }
}
