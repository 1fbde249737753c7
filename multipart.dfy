/** studio/util/multipart.rs: a multipart/form-data body cut into parts at
    the delimiter `--boundary`, each part into its headers and its value at
    the first blank line, and the lookups of a file part or a text field. */
module Multipart {
  import opened Base
  import opened Text
  import Utf8

  /** The blank line that ends a part's headers. */
  const HeaderEnd: seq<Byte> := [13, 10, 13, 10]

  const Crlf: seq<Byte> := [13, 10]

  /** split_on: the loop behind `split`, cutting at each occurrence of a
      non-empty needle searched from `start`. */
  method SplitOn<T(==)>(haystack: seq<T>, needle: seq<T>) returns (result: seq<seq<T>>)
    requires |needle| > 0
    ensures result == Split(haystack, needle)
  {
    result := [];
    var start := 0;
    assert haystack[0..] == haystack;
    while start <= |haystack|
      invariant start <= |haystack|
      invariant result + SplitRest(haystack, needle, start) == SplitRest(haystack, needle, 0)
      decreases |haystack| - start
    {
      var pos := Find(haystack[start..], needle);
      if pos.Some? {
        var piece := haystack[start..start + pos.value];
        var next := start + pos.value + |needle|;
        SplitFrom(haystack, needle, start, pos.value);
        ghost var tail := SplitRest(haystack, needle, next);
        AppendAssoc(result, [piece], tail);
        result := result + [piece];
        start := next;
      } else {
        SplitFrom(haystack, needle, start, 0);
        result := result + [haystack[start..]];
        return;
      }
    }
  }

  /** Split of the text from `start`, one call away, for the loop to state
      its progress. */
  function SplitRest<T(==)>(h: seq<T>, needle: seq<T>, start: nat): seq<seq<T>>
    requires |needle| > 0 && start <= |h|
  {
    Split(h[start..], needle)
  }

  /** The split of the text from `start`: the text there when the needle
      does not occur, else the piece up to the first occurrence i and the
      split after it. */
  lemma {:induction false} SplitFrom<T>(h: seq<T>, needle: seq<T>, start: nat, i: nat)
    requires |needle| > 0 && start <= |h|
    ensures Find(h[start..], needle).None? ==> SplitRest(h, needle, start) == [h[start..]]
    ensures Find(h[start..], needle) == Some(i) ==> (start + i + |needle| <= |h|
      && SplitRest(h, needle, start) == [h[start..start + i]] + SplitRest(h, needle, start + i + |needle|))
  {
    var rest := h[start..];
    SplitUnfold(rest, needle);
    if Find(rest, needle) == Some(i) {
      assert rest[i + |needle|..] == h[start + i + |needle|..];
      assert rest[..i] == h[start..start + i];
    }
  }

  /** `format!("--{}", boundary).as_bytes()`. */
  function Delimiter(boundary: string): (r: seq<Byte>)
    ensures |r| >= 2
  {
    ['-' as int, '-' as int] + Utf8.Encode(boundary)
  }

  /** The parts of a body. */
  function Parts(body: seq<Byte>, boundary: string): seq<seq<Byte>>
  {
    Split(body, Delimiter(boundary))
  }

  /** `strip_suffix(b"\r\n").unwrap_or(raw)`. */
  function StripCrlf(raw: seq<Byte>): (r: seq<Byte>)
    ensures EndsWith(raw, Crlf) ==> raw == r + Crlf
    ensures !EndsWith(raw, Crlf) ==> r == raw
  {
    if EndsWith(raw, Crlf) then raw[..|raw| - 2] else raw
  }

  /** A part's header section, before its first blank line, and the raw
      bytes after that line. */
  datatype Section = Section(headers: seq<Byte>, raw: seq<Byte>)

  /** A part cut at its first blank line; None when it has none. */
  function Sections(part: seq<Byte>): (r: Option<Section>)
    ensures r.None? <==> !Contains(part, HeaderEnd)
    ensures r.Some? ==> part == r.value.headers + HeaderEnd + r.value.raw && !Contains(r.value.headers, HeaderEnd)
  {
    var pos := Find(part, HeaderEnd);
    if pos.None? then None
    else
      var i := pos.value;
      NoEarlierOccurrence(part, HeaderEnd, i);
      assert part == part[..i] + part[i..i + 4] + part[i + 4..];
      Some(Section(part[..i], part[i + 4..]))
  }

  /** The value a part holds: the bytes after the blank line, one trailing
      CRLF removed. */
  function Value(s: Section): seq<Byte>
  {
    StripCrlf(s.raw)
  }

  /** `eq_ignore_ascii_case` of two bytes. */
  function AsciiLower(b: Byte): Byte
  {
    if 'A' as int <= b <= 'Z' as int then b + 32 else b
  }

  /** The 8 bytes of h at i spell "filename" in any mix of cases. */
  predicate FilenameAt(h: seq<Byte>, i: nat)
  {
    i + 8 <= |h| && forall k :: 0 <= k < 8 ==> AsciiLower(h[i + k]) == Filename[k]
  }

  /** `header_section.windows(8).any(|w| w.eq_ignore_ascii_case(b"filename"))`,
      searching the windows at i, i + 1, ... */
  function HasFilenameFrom(h: seq<Byte>, i: nat): (r: bool)
    ensures r <==> exists j :: i <= j && FilenameAt(h, j)
    decreases |h| - i
  {
    if i + 8 > |h| then false
    else if FilenameAt(h, i) then true
    else HasFilenameFrom(h, i + 1)
  }

  const Filename: seq<Byte> := ['f' as int, 'i' as int, 'l' as int, 'e' as int, 'n' as int, 'a' as int, 'm' as int, 'e' as int]

  /** A part multipart_extract_file takes: its headers hold "filename" in any
      case. */
  predicate IsFilePart(part: seq<Byte>)
  {
    Sections(part).Some? && HasFilenameFrom(Sections(part).value.headers, 0)
  }

  /** The header section as text, ill-formed bytes as U+FFFD. */
  function HeaderText(s: Section): string
  {
    Utf8.DecodeLossy(s.headers)
  }

  /** `format!("name=\"{}\"", field_name)`. */
  function NameAttr(field: string): string
  {
    "name=\"" + field + "\""
  }

  /** A part extract_text_field takes: its headers name the field and hold
      no "filename=". */
  predicate IsTextField(part: seq<Byte>, field: string)
  {
    Sections(part).Some? && TextFieldHeaders(Sections(part).value, field)
  }

  predicate TextFieldHeaders(sec: Section, field: string)
  {
    Contains(HeaderText(sec), NameAttr(field)) && !Contains(HeaderText(sec), "filename=")
  }

  /** A part multipart_extract_file_by_name takes: its headers name the field
      and hold "filename=". */
  predicate IsNamedFile(part: seq<Byte>, field: string)
  {
    Sections(part).Some? && NamedFileHeaders(Sections(part).value, field)
  }

  predicate NamedFileHeaders(sec: Section, field: string)
  {
    Contains(HeaderText(sec), NameAttr(field)) && Contains(HeaderText(sec), "filename=")
  }

  /** What a lookup searches the parts for. */
  datatype Wanted = AnyFile | TextField(field: string) | FileNamed(field: string)

  predicate Matches(w: Wanted, part: seq<Byte>)
  {
    match w
    case AnyFile => IsFilePart(part)
    case TextField(f) => IsTextField(part, f)
    case FileNamed(f) => IsNamedFile(part, f)
  }

  /** The first part at or after i that a lookup takes. */
  function FirstMatch(parts: seq<seq<Byte>>, w: Wanted, i: nat): (r: Option<nat>)
    requires i <= |parts|
    ensures r.None? ==> forall k :: i <= k < |parts| ==> !Matches(w, parts[k])
    ensures r.Some? ==> (i <= r.value < |parts| && Matches(w, parts[r.value])
                         && forall k :: i <= k < r.value ==> !Matches(w, parts[k]))
  {
    FirstWhere(parts, Matches, w, i)
  }

  /** The value of the first part a lookup takes, if any. */
  function FoundValue(parts: seq<seq<Byte>>, w: Wanted): Option<seq<Byte>>
  {
    var k := FirstMatch(parts, w, 0);
    if k.None? then None else Some(Value(Sections(parts[k.value]).value))
  }

  /** multipart_extract_file: the value of the first file part. */
  method ExtractFile(body: seq<Byte>, boundary: string) returns (r: Option<seq<Byte>>)
    ensures r == FoundValue(Parts(body, boundary), AnyFile)
  {
    var parts := SplitOn(body, Delimiter(boundary));
    for j := 0 to |parts|
      invariant FirstMatch(parts, AnyFile, j) == FirstMatch(parts, AnyFile, 0)
    {
      if IsFilePart(parts[j]) {
        return Some(Value(Sections(parts[j]).value));
      }
    }
    return None;
  }

  /** extract_text_field: the first part naming the field and not a file,
      its value decoded strictly; None when there is none or its value is
      not UTF-8. */
  method ExtractTextField(body: seq<Byte>, boundary: string, field: string) returns (r: Option<string>)
    ensures var v := FoundValue(Parts(body, boundary), TextField(field));
      r == if v.None? then None else Utf8.Decode(v.value)
  {
    var parts := SplitOn(body, Delimiter(boundary));
    for j := 0 to |parts|
      invariant FirstMatch(parts, TextField(field), j) == FirstMatch(parts, TextField(field), 0)
    {
      if IsTextField(parts[j], field) {
        return Utf8.Decode(Value(Sections(parts[j]).value));
      }
    }
    return None;
  }

  /** multipart_extract_file_by_name: the value of the first part naming
      the field and holding "filename=". */
  method ExtractFileByName(body: seq<Byte>, boundary: string, field: string) returns (r: Option<seq<Byte>>)
    ensures r == FoundValue(Parts(body, boundary), FileNamed(field))
  {
    var parts := SplitOn(body, Delimiter(boundary));
    for j := 0 to |parts|
      invariant FirstMatch(parts, FileNamed(field), j) == FirstMatch(parts, FileNamed(field), 0)
    {
      if IsNamedFile(parts[j], field) {
        return Some(Value(Sections(parts[j]).value));
      }
    }
    return None;
  }

  const NameKey: string := "name=\""

  /** parse_disposition_name: the text between the first `name="` and the
      next `"`. */
  function ParseDispositionName(headers: string): (r: Option<string>)
    ensures r.Some? ==> '"' !in r.value && exists i :: OccursAt(headers, NameAttr(r.value), i)
  {
    var pos := Find(headers, NameKey);
    if pos.None? then None
    else
      var rest := headers[pos.value + |NameKey|..];
      FindOne(rest, '"');
      var end := Find(rest, ['"']);
      if end.None? then None
      else
        var name := rest[..end.value];
        assert OccursAt(headers, NameAttr(name), pos.value) by {
          assert headers[pos.value..pos.value + |NameKey|] == NameKey;
          assert rest[..end.value + 1] == name + "\"";
          assert headers[pos.value + |NameKey|..pos.value + |NameAttr(name)|] == rest[..end.value + 1];
        }
        Some(name)
  }

  /** A header holding `name="n"` right at its start yields n. */
  lemma {:induction false} ParseDispositionNameOf(n: string, tail: string)
    requires '"' !in n
    ensures ParseDispositionName(NameAttr(n) + tail) == Some(n)
  {
    var h := NameAttr(n) + tail;
    assert OccursAt(h, NameKey, 0);
    var rest := h[|NameKey|..];
    assert rest == n + "\"" + tail;
    assert forall j :: 0 <= j < |n| ==> rest[j] == n[j];
    FindAt(rest, '"', |n|);
    assert rest[..|n|] == n;
  }

  /** The (name, value) pair extract_all_text_fields takes from one part:
      a part with headers, no "filename=", a `name="..."`, and a UTF-8
      value. */
  function TextFieldOf(part: seq<Byte>): Option<(string, string)>
  {
    var sec := Sections(part);
    if sec.None? || Contains(HeaderText(sec.value), "filename=") then None
    else
      var name := ParseDispositionName(HeaderText(sec.value));
      var value := Utf8.Decode(Value(sec.value));
      if name.None? || value.None? then None
      else Some((name.value, value.value))
  }

  /** extract_all_text_fields: the pairs of the parts in order, parts
      without one skipped. */
  method ExtractAllTextFields(body: seq<Byte>, boundary: string) returns (result: seq<(string, string)>)
    ensures result == SomeValues(Parts(body, boundary), TextFieldOf)
  {
    var parts := SplitOn(body, Delimiter(boundary));
    result := [];
    for j := 0 to |parts|
      invariant result == SomeValues(parts[..j], TextFieldOf)
    {
      assert parts[..j + 1][..j] == parts[..j];
      var field := TextFieldOf(parts[j]);
      if field.Some? {
        result := result + [field.value];
      }
    }
    assert parts[..|parts|] == parts;
  }

  /** `trim_matches(c)`: every leading and trailing c removed. */
  function TrimMatches(s: string, c: char): (r: string)
    ensures |r| <= |s|
    ensures |r| > 0 ==> r[0] != c && r[|r| - 1] != c
    ensures c !in s ==> r == s
    decreases |s|
  {
    if |s| > 0 && s[0] == c then TrimMatches(s[1..], c)
    else if |s| > 0 && s[|s| - 1] == c then TrimMatches(s[..|s| - 1], c)
    else s
  }

  const BoundaryKey: string := "boundary="

  /** A piece that starts with `key` once trimmed. */
  predicate TrimmedStartsWith(key: string, piece: string)
  {
    StartsWith(Trim(piece), key)
  }

  /** extract_boundary: from the `;`-separated parameters of a Content-Type,
      the first that starts with `boundary=` after trimming; its value with
      surrounding quotes removed. */
  function ExtractBoundary(contentType: string): (r: Option<string>)
    ensures r.Some? ==> |r.value| == 0 || (r.value[0] != '"' && r.value[|r.value| - 1] != '"')
  {
    var pieces := Split(contentType, ";");
    var k := FirstWhere(pieces, TrimmedStartsWith, BoundaryKey, 0);
    if k.None? then None
    else Some(TrimMatches(Trim(pieces[k.value])[|BoundaryKey|..], '"'))
  }

  /** The Content-Type a browser sends, split on `;`: the media type and
      the boundary parameter with its leading space. */
  lemma {:induction false} ContentTypePieces(b: string)
    requires ';' !in b
    ensures Split("multipart/form-data; boundary=" + b, ";")
         == ["multipart/form-data", [' '] + (BoundaryKey + b)]
  {
    var m := "multipart/form-data";
    var p := [' '] + (BoundaryKey + b);
    assert "multipart/form-data; boundary=" + b == m + [';'] + p;
    SplitAroundOne(m, ';', p);
    assert ";" == [';'];
  }

  /** Two parameters, the first not a boundary and the second trimming to
      `boundary=` followed by a token without quotes: that token. */
  lemma {:induction false} ExtractBoundaryFromPieces(contentType: string, b: string)
    requires '"' !in b
    requires |Split(contentType, ";")| == 2
    requires !TrimmedStartsWith(BoundaryKey, Split(contentType, ";")[0])
    requires Trim(Split(contentType, ";")[1]) == BoundaryKey + b
    ensures ExtractBoundary(contentType) == Some(b)
  {
    var pieces := Split(contentType, ";");
    var q := BoundaryKey + b;
    assert StartsWith(q, BoundaryKey);
    assert TrimmedStartsWith(BoundaryKey, pieces[1]);
    assert FirstWhere(pieces, TrimmedStartsWith, BoundaryKey, 0) == Some(1);
    assert q[|BoundaryKey|..] == b;
  }

  /** The media type is not a boundary parameter. */
  lemma MediaTypeNotBoundary()
    ensures !TrimmedStartsWith(BoundaryKey, "multipart/form-data")
  {
    TrimPlain("multipart/form-data");
  }

  /** The header a browser sends for a boundary token (no `;` or `"` in it,
      not ending in white space) yields that token. */
  lemma {:induction false} ExtractBoundaryOf(b: string)
    requires |b| > 0 && ';' !in b && '"' !in b && !IsWhitespace(b[|b| - 1])
    ensures ExtractBoundary("multipart/form-data; boundary=" + b) == Some(b)
  {
    var q := BoundaryKey + b;
    assert q[0] == 'b' && q[|q| - 1] == b[|b| - 1];
    TrimLeadingSpace(q);
    MediaTypeNotBoundary();
    ContentTypePieces(b);
    ExtractBoundaryFromPieces("multipart/form-data; boundary=" + b, b);
  }
}
