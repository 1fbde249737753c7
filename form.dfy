/** studio/util/form.rs: percent-decoding of `application/x-www-form-urlencoded`
    text and the `key=value&...` pairs of a form body. */
module Form {
  import opened Base
  import opened Text
  import Utf8

  /** `(b as char).to_digit(16)`: the value of an ASCII hexadecimal digit of
      either case. */
  function HexValue(b: Byte): (r: Option<nat>)
    ensures r.Some? ==> r.value < 16
  {
    if '0' as int <= b <= '9' as int then Some(b - '0' as int)
    else if 'a' as int <= b <= 'f' as int then Some(b - 'a' as int + 10)
    else if 'A' as int <= b <= 'F' as int then Some(b - 'A' as int + 10)
    else None
  }

  /** An escape `%XX` starts at byte i: the `%`, two more bytes after it, and
      both of them hexadecimal digits. */
  predicate EscapeAt(b: seq<Byte>, i: nat)
  {
    i + 2 < |b| && b[i] == '%' as int && HexValue(b[i + 1]).Some? && HexValue(b[i + 2]).Some?
  }

  /** The byte an escape at i stands for. */
  function EscapedByte(b: seq<Byte>, i: nat): Byte
    requires EscapeAt(b, i)
  {
    HexValue(b[i + 1]).value * 16 + HexValue(b[i + 2]).value
  }

  /** The bytes url_decode yields for b: `+` is a space, an escape is its
      byte, every other byte (a `%` not followed by two hex digits too) is
      itself. */
  function Decoded(b: seq<Byte>): seq<Byte>
    decreases |b|
  {
    if |b| == 0 then []
    else if b[0] == '+' as int then [' ' as int] + Decoded(b[1..])
    else if EscapeAt(b, 0) then [EscapedByte(b, 0)] + Decoded(b[3..])
    else [b[0]] + Decoded(b[1..])
  }

  /** Decoded from byte i on, one call away, for the loop to state its
      progress. */
  function DecodedRest(b: seq<Byte>, i: nat): seq<Byte>
    requires i <= |b|
  {
    Decoded(b[i..])
  }

  /** Decoded from byte i on, by the three cases of the byte there. */
  lemma {:induction false} DecodedAt(b: seq<Byte>, i: nat)
    requires i < |b|
    ensures b[i] == '+' as int ==> DecodedRest(b, i) == [' ' as int] + DecodedRest(b, i + 1)
    ensures b[i] != '+' as int && EscapeAt(b, i) ==>
      i + 3 <= |b| && DecodedRest(b, i) == [EscapedByte(b, i)] + DecodedRest(b, i + 3)
    ensures b[i] != '+' as int && !EscapeAt(b, i) ==> DecodedRest(b, i) == [b[i]] + DecodedRest(b, i + 1)
  {
    var t := b[i..];
    assert t[0] == b[i] && t[1..] == b[i + 1..];
    assert EscapeAt(t, 0) == EscapeAt(b, i);
    if EscapeAt(b, i) {
      assert t[1] == b[i + 1] && t[2] == b[i + 2];
      assert t[3..] == b[i + 3..];
    }
  }

  /** The loop of url_decode, over the input's bytes; `i` moves by 3 past an
      escape and by 1 otherwise. */
  method DecodeBytes(b: seq<Byte>) returns (out: seq<Byte>)
    ensures out == Decoded(b)
  {
    var i := 0;
    out := [];
    assert b[0..] == b;
    while i < |b|
      invariant 0 <= i <= |b|
      invariant out + DecodedRest(b, i) == DecodedRest(b, 0)
      decreases |b| - i
    {
      DecodedAt(b, i);
      var x: Byte;
      var step: nat;
      if b[i] == '+' as int {
        x, step := ' ' as int, 1;
        assert DecodedRest(b, i) == [x] + DecodedRest(b, i + step);
      } else if i + 2 < |b| && b[i] == '%' as int {
        var hi := HexValue(b[i + 1]);
        var lo := HexValue(b[i + 2]);
        if hi.Some? && lo.Some? {
          x, step := hi.value * 16 + lo.value, 3;
          assert x == EscapedByte(b, i);
          assert DecodedRest(b, i) == [x] + DecodedRest(b, i + step);
        } else {
          x, step := '%' as int, 1;
          assert DecodedRest(b, i) == [x] + DecodedRest(b, i + step);
        }
      } else {
        x, step := b[i], 1;
        assert DecodedRest(b, i) == [x] + DecodedRest(b, i + step);
      }
      ghost var tail := DecodedRest(b, i + step);
      AppendAssoc(out, [x], tail);
      out := out + [x];
      i := i + step;
    }
    assert b[|b|..] == [];
  }

  /** Decoding never lengthens: each output byte takes one to three input
      bytes. */
  lemma {:induction false} DecodedShorter(b: seq<Byte>)
    ensures |Decoded(b)| <= |b|
    decreases |b|
  {
    if |b| > 0 {
      if EscapeAt(b, 0) && b[0] != '+' as int {
        DecodedShorter(b[3..]);
      } else {
        DecodedShorter(b[1..]);
      }
    }
  }

  /** Without a `+` or a `%` there is nothing to decode. */
  lemma {:induction false} DecodedPlain(b: seq<Byte>)
    requires '+' as int !in b && '%' as int !in b
    ensures Decoded(b) == b
    decreases |b|
  {
    if |b| > 0 {
      assert b == [b[0]] + b[1..];
      DecodedPlain(b[1..]);
    }
  }

  /** An upper-case hexadecimal digit. */
  function HexDigit(v: nat): Byte
    requires v < 16
  {
    if v < 10 then '0' as int + v else 'A' as int + v - 10
  }

  /** The bytes a form encoder leaves alone: ASCII letters and digits. */
  predicate Unreserved(x: Byte)
  {
    '0' as int <= x <= '9' as int || 'a' as int <= x <= 'z' as int || 'A' as int <= x <= 'Z' as int
  }

  /** Percent-encoding: every byte other than a letter or digit as `%XX`. */
  function PercentEncode(b: seq<Byte>): seq<Byte>
  {
    if |b| == 0 then []
    else if Unreserved(b[0]) then [b[0]] + PercentEncode(b[1..])
    else ['%' as int, HexDigit(b[0] / 16), HexDigit(b[0] % 16)] + PercentEncode(b[1..])
  }

  /** Decoding undoes percent-encoding. */
  lemma {:induction false} DecodedPercentEncode(b: seq<Byte>)
    ensures Decoded(PercentEncode(b)) == b
    decreases |b|
  {
    if |b| > 0 {
      var e := PercentEncode(b);
      var rest := PercentEncode(b[1..]);
      if Unreserved(b[0]) {
        assert e[1..] == rest;
        assert !EscapeAt(e, 0);
      } else {
        assert HexValue(HexDigit(b[0] / 16)) == Some(b[0] / 16);
        assert HexValue(HexDigit(b[0] % 16)) == Some(b[0] % 16);
        assert EscapeAt(e, 0) && EscapedByte(e, 0) == b[0];
        assert e[3..] == rest;
      }
      DecodedPercentEncode(b[1..]);
      assert b == [b[0]] + b[1..];
    }
  }

  /** url_decode as written: each decoded byte becomes the char of that
      value, so the bytes of a multi-byte character become several chars. */
  function UrlDecodeAsWritten(s: string): (r: string)
    ensures |r| <= |Utf8.Encode(s)|
  {
    DecodedShorter(Utf8.Encode(s));
    Utf8.Latin1(Decoded(Utf8.Encode(s)))
  }

  /** A text with one non-ASCII character and nothing to decode comes out
      changed: "é" is the two bytes C3 A9 and yields "Ã©". */
  lemma UrlDecodeAsWrittenMangles()
    ensures UrlDecodeAsWritten("é") == "Ã©"
    ensures UrlDecodeAsWritten("é") != "é"
  {
    assert Utf8.EncodeChar('é') == [0xC3, 0xA9];
    assert Utf8.Encode("é") == [0xC3, 0xA9];
    assert Decoded([0xC3, 0xA9]) == [0xC3, 0xA9] by {
      DecodedPlain([0xC3, 0xA9]);
    }
  }

  /** The decoder form.rs evidently intends: the decoded bytes read as
      UTF-8, ill-formed parts as U+FFFD. The form handlers use the decoder as
      written. */
  function UrlDecode(s: string): string
  {
    Utf8.DecodeLossy(Decoded(Utf8.Encode(s)))
  }

  /** A text without `+` or `%` decodes to itself. */
  lemma {:induction false} UrlDecodePlain(s: string)
    requires '+' !in s && '%' !in s
    ensures UrlDecode(s) == s
  {
    var e := Utf8.Encode(s);
    Utf8.EncodeAsciiBytes(s, '+' as int);
    Utf8.EncodeAsciiBytes(s, '%' as int);
    DecodedPlain(e);
    Utf8.DecodeEncode(s);
    Utf8.LossyAgrees(e);
  }

  /** Any text survives percent-encoding of its UTF-8 bytes and decoding. */
  lemma {:induction false} UrlDecodeEncoded(s: string)
    ensures UrlDecode(Utf8.Latin1(PercentEncode(Utf8.Encode(s)))) == s
  {
    var e := Utf8.Encode(s);
    var p := PercentEncode(e);
    PercentEncodeAscii(e);
    Utf8.EncodeLatin1Ascii(p);
    DecodedPercentEncode(e);
    Utf8.DecodeEncode(s);
    Utf8.LossyAgrees(e);
  }

  /** Percent-encoding yields ASCII only. */
  lemma {:induction false} PercentEncodeAscii(b: seq<Byte>)
    ensures forall k :: 0 <= k < |PercentEncode(b)| ==> PercentEncode(b)[k] < 0x80
    decreases |b|
  {
    if |b| > 0 {
      PercentEncodeAscii(b[1..]);
    }
  }

  /** Where every decoded byte is ASCII the two decoders agree: the decoder
      as written differs from the intended one only on bytes from 0x80 on. */
  lemma {:induction false} UrlDecodeAgreesOnAscii(s: string)
    requires forall k :: 0 <= k < |Decoded(Utf8.Encode(s))| ==> Decoded(Utf8.Encode(s))[k] < 0x80
    ensures UrlDecodeAsWritten(s) == UrlDecode(s)
  {
    var d := Decoded(Utf8.Encode(s));
    var l := Utf8.Latin1(d);
    Utf8.EncodeLatin1Ascii(d);
    Utf8.DecodeEncode(l);
    Utf8.LossyAgrees(d);
  }

  /** Plain text: ASCII without the `+` and `%` that form decoding acts on,
      and without the `&` that separates pairs. */
  predicate Plain(s: string)
  {
    forall k :: 0 <= k < |s| ==> s[k] as int < 0x80 && s[k] != '+' && s[k] != '%' && s[k] != '&'
  }

  /** The decoder as written leaves plain text alone. */
  lemma {:induction false} UrlDecodeAsWrittenPlain(s: string)
    requires Plain(s)
    ensures UrlDecodeAsWritten(s) == s
  {
    Utf8.EncodeAscii(s);
    var e := Utf8.Encode(s);
    assert '+' as int !in e && '%' as int !in e;
    DecodedPlain(e);
    assert Utf8.Latin1(e) == s;
  }

  /** parse_form: the body split on `&`, each piece split at its first `=`
      (no `=`: the value is empty), key and value decoded by the decoder as
      written. */
  function ParseForm(body: string): (r: seq<(string, string)>)
    ensures |r| == |Split(body, "&")|
    ensures forall k :: 0 <= k < |r| ==>
      var kv := SplitOnce(Split(body, "&")[k], '=');
      r[k] == (UrlDecodeAsWritten(kv.0), UrlDecodeAsWritten(if kv.1.Some? then kv.1.value else ""))
  {
    var pieces := Split(body, "&");
    seq(|pieces|, k requires 0 <= k < |pieces| =>
      var kv := SplitOnce(pieces[k], '=');
      (UrlDecodeAsWritten(kv.0), UrlDecodeAsWritten(if kv.1.Some? then kv.1.value else "")))
  }

  /** A body holding one plain `key=value` pair parses to that pair, and
      looking the key up gives the value back; the value may hold `=`. */
  lemma {:induction false} ParseFormPair(key: string, value: string)
    requires Plain(key) && Plain(value) && '=' !in key
    ensures ParseForm(key + "=" + value) == [(key, value)]
    ensures FormGet(ParseForm(key + "=" + value), key) == Some(value)
  {
    var body := key + "=" + value;
    assert body == key + ['='] + value;
    assert '&' !in body by {
      assert forall k :: 0 <= k < |body| ==> body[k] != '&';
    }
    FindOne(body, '&');
    assert "&" == ['&'];
    SplitAbsent(body, "&");
    SplitOnceOf(key, '=', value);
    UrlDecodeAsWrittenPlain(key);
    UrlDecodeAsWrittenPlain(value);
    assert ParseForm(body)[0] == (key, value);
  }

  /** The index of the first pair at or after i whose key is `key`. */
  function FindKey(pairs: seq<(string, string)>, key: string, i: nat): (r: Option<nat>)
    requires i <= |pairs|
    ensures r.None? ==> forall k :: i <= k < |pairs| ==> pairs[k].0 != key
    ensures r.Some? ==> (i <= r.value < |pairs| && pairs[r.value].0 == key
                         && forall k :: i <= k < r.value ==> pairs[k].0 != key)
    decreases |pairs| - i
  {
    if i == |pairs| then None
    else if pairs[i].0 == key then Some(i)
    else FindKey(pairs, key, i + 1)
  }

  /** form_get: the value of the first pair whose key is `key`. */
  function FormGet(pairs: seq<(string, string)>, key: string): (r: Option<string>)
    ensures r.None? <==> forall k :: 0 <= k < |pairs| ==> pairs[k].0 != key
    ensures r.Some? ==> exists i :: (0 <= i < |pairs| && pairs[i] == (key, r.value)
                                     && forall k :: 0 <= k < i ==> pairs[k].0 != key)
  {
    match FindKey(pairs, key, 0)
    case None => None
    case Some(i) => Some(pairs[i].1)
  }

  /** A body without `&` or `=` is a single key with an empty value. */
  lemma {:induction false} ParseFormSingle(body: string)
    requires '&' !in body && '=' !in body
    ensures ParseForm(body) == [(UrlDecodeAsWritten(body), "")]
  {
    FindOne(body, '&');
    assert "&" == ['&'];
    SplitAbsent(body, "&");
    assert UrlDecodeAsWritten("") == "";
  }
}
