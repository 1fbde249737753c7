/** studio/util/csv.rs: CSV rows with double-quoted fields (a doubled
    quote inside quotes is one quote, as rule 7 of section 2 of RFC 4180
    has it), header detection, the two label modes, and the built-in toy
    datasets' labels. Cells are read as numbers by a parameter standing for
    `str::parse::<f64>`. */
module Csv {
  import opened Base
  import opened Text
  import Utf8

  // ---------------------------------------------------------------------
  // one row

  /** Adds c to the front of the first field. */
  function Prepend(c: char, fs: seq<string>): (r: seq<string>)
    requires |fs| > 0
    ensures |r| == |fs| && r[0] == [c] + fs[0] && r[1..] == fs[1..]
  {
    [[c] + fs[0]] + fs[1..]
  }

  /** The fields parse_csv_row finds in s when it starts reading it with
      quoting state inQuotes: outside quotes a comma ends a field, a quote
      switches the state and is dropped, and inside quotes a doubled quote
      is one literal quote. */
  function Fields(s: string, inQuotes: bool): (r: seq<string>)
    ensures |r| > 0
    decreases |s|
  {
    if |s| == 0 then [""]
    else if s[0] == '"' && inQuotes && |s| > 1 && s[1] == '"' then Prepend('"', Fields(s[2..], inQuotes))
    else if s[0] == '"' then Fields(s[1..], !inQuotes)
    else if s[0] == ',' && !inQuotes then [""] + Fields(s[1..], inQuotes)
    else Prepend(s[0], Fields(s[1..], inQuotes))
  }

  /** Fields from position i on, one call away, for the loop. */
  function FieldsRest(s: string, i: nat, inQuotes: bool): seq<string>
    requires i <= |s|
  {
    Fields(s[i..], inQuotes)
  }

  /** The finished fields, the field being read, and the fields of what is
      still to read, put together. */
  function Combine(fields: seq<string>, current: string, rest: seq<string>): seq<string>
    requires |rest| > 0
  {
    fields + [current + rest[0]] + rest[1..]
  }

  /** Fields from position i on, by the four cases of the character there. */
  lemma {:induction false} FieldsAt(s: string, i: nat, inQuotes: bool)
    requires i < |s|
    ensures s[i] == '"' && inQuotes && i + 1 < |s| && s[i + 1] == '"' ==>
      FieldsRest(s, i, inQuotes) == Prepend('"', FieldsRest(s, i + 2, inQuotes))
    ensures s[i] == '"' && !(inQuotes && i + 1 < |s| && s[i + 1] == '"') ==>
      FieldsRest(s, i, inQuotes) == FieldsRest(s, i + 1, !inQuotes)
    ensures s[i] == ',' && !inQuotes ==> FieldsRest(s, i, inQuotes) == [""] + FieldsRest(s, i + 1, inQuotes)
    ensures s[i] != '"' && !(s[i] == ',' && !inQuotes) ==>
      FieldsRest(s, i, inQuotes) == Prepend(s[i], FieldsRest(s, i + 1, inQuotes))
  {
    var t := s[i..];
    assert t[0] == s[i] && t[1..] == s[i + 1..];
    if i + 1 < |s| {
      assert t[1] == s[i + 1] && t[2..] == s[i + 2..];
    }
  }

  lemma {:induction false} CombinePrepend(fields: seq<string>, current: string, c: char, rest: seq<string>)
    requires |rest| > 0
    ensures Combine(fields, current, Prepend(c, rest)) == Combine(fields, current + [c], rest)
  {
    assert current + ([c] + rest[0]) == (current + [c]) + rest[0];
  }

  lemma {:induction false} CombineComma(fields: seq<string>, current: string, rest: seq<string>)
    requires |rest| > 0
    ensures Combine(fields, current, [""] + rest) == Combine(fields + [current], "", rest)
  {
    assert current + "" == current && "" + rest[0] == rest[0];
    assert ([""] + rest)[1..] == rest;
    assert rest == [rest[0]] + rest[1..];
  }

  /** parse_csv_row: the characters scanned left to right with a flag for
      "inside quotes", the finished fields and the one being read. */
  method ParseCsvRow(line: string) returns (fields: seq<string>)
    ensures fields == Fields(line, false)
  {
    fields := [];
    var current := "";
    var inQuotes := false;
    var i := 0;
    assert line[0..] == line;
    ghost var all := FieldsRest(line, 0, false);
    assert "" + all[0] == all[0];
    assert [all[0]] + all[1..] == all;
    while i < |line|
      invariant 0 <= i <= |line|
      invariant Combine(fields, current, FieldsRest(line, i, inQuotes)) == FieldsRest(line, 0, false)
      decreases |line| - i
    {
      FieldsAt(line, i, inQuotes);
      if line[i] == '"' {
        if inQuotes && i + 1 < |line| && line[i + 1] == '"' {
          CombinePrepend(fields, current, '"', FieldsRest(line, i + 2, inQuotes));
          current := current + ['"'];
          i := i + 2;
          continue;
        }
        inQuotes := !inQuotes;
      } else if line[i] == ',' && !inQuotes {
        CombineComma(fields, current, FieldsRest(line, i + 1, inQuotes));
        fields := fields + [current];
        current := "";
      } else {
        CombinePrepend(fields, current, line[i], FieldsRest(line, i + 1, inQuotes));
        current := current + [line[i]];
      }
      i := i + 1;
    }
    assert line[|line|..] == [];
    assert current + "" == current;
    fields := fields + [current];
  }

  /** A row without quotes is split exactly at its commas. */
  lemma {:induction false} FieldsUnquoted(s: string)
    requires '"' !in s
    ensures Fields(s, false) == Split(s, ",")
    decreases |s|
  {
    assert "," == [','];
    if |s| > 0 {
      assert '"' !in s[1..];
      FieldsUnquoted(s[1..]);
      SplitOneCons(s, ',');
    }
  }

  /** A field's text with every quote doubled, as a writer puts it inside
      quotes. */
  function Doubled(x: string): (r: string)
  {
    if |x| == 0 then []
    else (if x[0] == '"' then ['"', '"'] else [x[0]]) + Doubled(x[1..])
  }

  /** The field written in quotes. */
  function Quoted(x: string): string
  {
    ['"'] + Doubled(x) + ['"']
  }

  /** Inside quotes, a field written with doubled quotes and closed by a
      quote reads back as the field, continuing into what follows (which
      must not start with a quote, or the closing quote would read as a
      doubled one). */
  lemma {:induction false} FieldsDoubled(x: string, rest: string)
    requires |rest| == 0 || rest[0] != '"'
    ensures Fields(Doubled(x) + ['"'] + rest, true)
         == [x + Fields(rest, false)[0]] + Fields(rest, false)[1..]
    decreases |x|
  {
    var s := Doubled(x) + ['"'] + rest;
    var f := Fields(rest, false);
    if |x| == 0 {
      assert s == ['"'] + rest;
      assert s[1..] == rest;
      assert x + f[0] == f[0];
      assert [f[0]] + f[1..] == f;
    } else {
      FieldsDoubled(x[1..], rest);
      var t := Doubled(x[1..]) + ['"'] + rest;
      if x[0] == '"' {
        assert s == ['"', '"'] + t;
        assert s[2..] == t;
      } else {
        assert s == [x[0]] + t;
        assert s[1..] == t;
      }
      assert Fields(s, true) == Prepend(x[0], Fields(t, true));
      AppendAssoc([x[0]], x[1..], f[0]);
      assert [x[0]] + x[1..] == x;
    }
  }

  /** Fields written quoted and joined with commas read back as the same
      fields. */
  lemma {:induction false} FieldsOfQuoted(fs: seq<string>)
    requires |fs| > 0
    ensures Fields(Join(seq(|fs|, k requires 0 <= k < |fs| => Quoted(fs[k])), ","), false) == fs
    decreases |fs|
  {
    var qs := seq(|fs|, k requires 0 <= k < |fs| => Quoted(fs[k]));
    var line := Join(qs, ",");
    if |fs| == 1 {
      assert line == ['"'] + (Doubled(fs[0]) + ['"'] + "");
      FieldsDoubled(fs[0], "");
      assert fs[0] + "" == fs[0];
    } else {
      var tail := fs[1..];
      var qt := seq(|tail|, k requires 0 <= k < |tail| => Quoted(tail[k]));
      assert qs[1..] == qt;
      FieldsOfQuoted(tail);
      var rest := "," + Join(qt, ",");
      assert line == ['"'] + (Doubled(fs[0]) + ['"'] + rest);
      FieldsDoubled(fs[0], rest);
      assert rest[1..] == Join(qt, ",");
      assert Fields(rest, false) == [""] + tail;
      assert fs[0] + "" == fs[0];
    }
  }

  // ---------------------------------------------------------------------
  // errors

  /** CsvParseError, by its cause; Message gives its text. */
  datatype CsvError =
    | NotUtf8
    | MissingClassColumn(row: nat, got: nat)
    | MissingLabelColumns(row: nat, expected: nat, got: nat)
    | BadNumber(row: nat, cell: string)
    | BadClassIndex(row: nat, cell: string)
    | ClassOutOfRange(row: nat, index: nat, nClasses: nat)
    | NoDataRows
    | WidthMismatch(row: nat, got: nat, first: nat)

  /** The text a CsvParseError displays. */
  function Message(e: CsvError): string
  {
    match e
    case NotUtf8 => "CSV file is not valid UTF-8"
    case MissingClassColumn(row, got) =>
      "Row " + NatToString(row) + ": expected at least 2 columns (features + class index), got " + NatToString(got)
    case MissingLabelColumns(row, expected, got) =>
      "Row " + NatToString(row) + ": expected at least " + NatToString(expected) + " columns, got " + NatToString(got)
    case BadNumber(row, cell) => "Row " + NatToString(row) + ": '" + cell + "' is not a valid number"
    case BadClassIndex(row, cell) =>
      "Row " + NatToString(row) + ": class index '" + cell + "' is not a non-negative integer"
    case ClassOutOfRange(row, index, n) =>
      "Row " + NatToString(row) + ": class index " + NatToString(index) + " >= n_classes " + NatToString(n)
    case NoDataRows => "CSV contains no data rows after parsing"
    case WidthMismatch(row, got, first) =>
      "Row " + NatToString(row) + ": feature count " + NatToString(got) + " does not match first row's "
      + NatToString(first)
  }

  // ---------------------------------------------------------------------
  // lines, header, cells as numbers

  /** A line with its trailing carriage return, if any, removed. */
  function StripCr(s: string): string
  {
    if |s| > 0 && s[|s| - 1] == '\r' then s[..|s| - 1] else s
  }

  /** `str::lines`: the text split at line feeds, a carriage return before
      a line feed dropped, and no empty line after a final line feed. A bare
      carriage return ending the last line is dropped too, where Rust keeps
      it; rows and the header test's cells are trimmed, so no result
      depends on it. */
  function Lines(text: string): seq<string>
  {
    if |text| == 0 then []
    else
      var pieces := Split(text, "\n");
      var kept := if |pieces[|pieces| - 1]| == 0 then pieces[..|pieces| - 1] else pieces;
      seq(|kept|, k requires 0 <= k < |kept| => StripCr(kept[k]))
  }

  /** A cell that is not empty once trimmed and does not read as a
      number. */
  predicate HeaderCell(parseF64: string -> Option<real>, cell: string)
  {
    |Trim(cell)| > 0 && parseF64(Trim(cell)).None?
  }

  /** is_header: some cell of the line is a header cell. */
  predicate IsHeader(line: string, parseF64: string -> Option<real>)
  {
    exists k :: 0 <= k < |Fields(line, false)| && HeaderCell(parseF64, Fields(line, false)[k])
  }

  /** The lines parse_csv reads as data: all of them, or all but the first
      when the first is a header. */
  function DataLines(lines: seq<string>, parseF64: string -> Option<real>): (r: seq<string>)
    ensures |lines| > 0 && IsHeader(lines[0], parseF64) ==> r == lines[1..]
    ensures !(|lines| > 0 && IsHeader(lines[0], parseF64)) ==> r == lines
  {
    if |lines| > 0 && IsHeader(lines[0], parseF64) then lines[1..] else lines
  }

  /** parse_floats: every cell, trimmed, read as a number; the first cell
      that is not one is the error. */
  function ParseFloats(cells: seq<string>, rowNum: nat, parseF64: string -> Option<real>): (r: Outcome<seq<real>, CsvError>)
    ensures r.Success? <==> forall k :: 0 <= k < |cells| ==> parseF64(Trim(cells[k])).Some?
    ensures r.Success? ==> (|r.value| == |cells|
                       && forall k :: 0 <= k < |cells| ==> parseF64(Trim(cells[k])) == Some(r.value[k]))
    decreases |cells|
  {
    if |cells| == 0 then Success([])
    else
      var x := parseF64(Trim(cells[0]));
      if x.None? then Failure(BadNumber(rowNum, cells[0]))
      else
        var rest := ParseFloats(cells[1..], rowNum, parseF64);
        if rest.Failure? then rest else Success([x.value] + rest.value)
  }

  // ---------------------------------------------------------------------
  // label modes and rows

  /** LabelMode: the last column is a class index below nClasses, or the
      last nLabelCols columns are the label. */
  datatype LabelMode = ClassIndex(nClasses: nat) | OneHot(nLabelCols: nat)

  /** The features and the label of one non-blank row with these cells, or
      the error naming its row number. */
  function RowValues(cells: seq<string>, rowNum: nat, mode: LabelMode, parseF64: string -> Option<real>)
    : (r: Outcome<(seq<real>, seq<real>), CsvError>)
    requires |cells| > 0
    ensures mode.ClassIndex? && |cells| < 2 ==> r.Failure?
    ensures mode.OneHot? && |cells| < mode.nLabelCols + 1 ==> r.Failure?
    ensures r.Success? && mode.ClassIndex? ==> (
      var c := ParseUsize(Trim(cells[|cells| - 1]));
      |cells| >= 2 && |r.value.0| == |cells| - 1 && c.Some? && c.value < mode.nClasses
      && r.value.1 == OneHotVector(mode.nClasses, c.value))
    ensures r.Success? && mode.OneHot? ==> (
      |cells| >= mode.nLabelCols + 1 && |r.value.0| == |cells| - mode.nLabelCols
      && |r.value.1| == mode.nLabelCols)
  {
    match mode
    case ClassIndex(n) =>
      if |cells| < 2 then
        Failure(MissingClassColumn(rowNum, |cells|))
      else
        var feats := ParseFloats(cells[..|cells| - 1], rowNum, parseF64);
        var labelCell := cells[|cells| - 1];
        var c := ParseUsize(Trim(labelCell));
        if feats.Failure? then Failure(feats.error)
        else if c.None? then
          Failure(BadClassIndex(rowNum, labelCell))
        else if c.value >= n then
          Failure(ClassOutOfRange(rowNum, c.value, n))
        else Success((feats.value, OneHotVector(n, c.value)))
    case OneHot(m) =>
      if |cells| < m + 1 then
        Failure(MissingLabelColumns(rowNum, m + 1, |cells|))
      else
        var split := |cells| - m;
        var feats := ParseFloats(cells[..split], rowNum, parseF64);
        var lbls := ParseFloats(cells[split..], rowNum, parseF64);
        if feats.Failure? then Failure(feats.error)
        else if lbls.Failure? then Failure(lbls.error)
        else Success((feats.value, lbls.value))
  }

  /** The rows of the data lines, in order; a line blank after trimming is
      skipped but still counts for the row numbers; the first error ends
      the reading. */
  function Collect(lines: seq<string>, mode: LabelMode, parseF64: string -> Option<real>)
    : Outcome<(seq<seq<real>>, seq<seq<real>>), CsvError>
    decreases |lines|
  {
    if |lines| == 0 then Success(([], []))
    else CollectNext(Collect(lines[..|lines| - 1], mode, parseF64), lines[|lines| - 1], |lines|, mode, parseF64)
  }

  /** One more line read after the rows so far. */
  function CollectNext(prev: Outcome<(seq<seq<real>>, seq<seq<real>>), CsvError>, line: string, rowNum: nat,
                       mode: LabelMode, parseF64: string -> Option<real>)
    : Outcome<(seq<seq<real>>, seq<seq<real>>), CsvError>
  {
    var t := Trim(line);
    if prev.Failure? || |t| == 0 then prev
    else
      var row := RowValues(Fields(t, false), rowNum, mode, parseF64);
      if row.Failure? then Failure(row.error)
      else Success((prev.value.0 + [row.value.0], prev.value.1 + [row.value.1]))
  }

  /** Collect over a prefix one line longer. */
  lemma {:induction false} CollectStep(lines: seq<string>, j: nat, mode: LabelMode, parseF64: string -> Option<real>)
    requires j < |lines|
    ensures Collect(lines[..j + 1], mode, parseF64)
         == CollectNext(Collect(lines[..j], mode, parseF64), lines[j], j + 1, mode, parseF64)
  {
    assert lines[..j + 1][..j] == lines[..j];
  }

  /** Once the reading has failed, later lines do not matter. */
  lemma {:induction false} CollectErrStays(lines: seq<string>, j: nat, mode: LabelMode, parseF64: string -> Option<real>)
    requires j <= |lines| && Collect(lines[..j], mode, parseF64).Failure?
    ensures Collect(lines, mode, parseF64) == Collect(lines[..j], mode, parseF64)
    decreases |lines|
  {
    if j < |lines| {
      var init := lines[..|lines| - 1];
      assert init[..j] == lines[..j];
      CollectErrStays(init, j, mode, parseF64);
    } else {
      assert lines[..j] == lines;
    }
  }

  /** The number of lines that are not blank after trimming. */
  function NonBlank(lines: seq<string>): nat
  {
    if |lines| == 0 then 0
    else NonBlank(lines[..|lines| - 1]) + (if |Trim(lines[|lines| - 1])| == 0 then 0 else 1)
  }

  /** The label of a row, as each mode makes it. */
  predicate LabelFits(mode: LabelMode, target: seq<real>)
  {
    match mode
    case ClassIndex(n) => exists c :: 0 <= c < n && target == OneHotVector(n, c)
    case OneHot(m) => |target| == m
  }

  /** A successful reading has one input and one label per non-blank line,
      and every label as its mode makes it. */
  lemma {:induction false} CollectShape(lines: seq<string>, mode: LabelMode, parseF64: string -> Option<real>)
    requires Collect(lines, mode, parseF64).Success?
    ensures var v := Collect(lines, mode, parseF64).value;
      |v.0| == |v.1| == NonBlank(lines) && forall k :: 0 <= k < |v.1| ==> LabelFits(mode, v.1[k])
    decreases |lines|
  {
    if |lines| > 0 {
      var init := lines[..|lines| - 1];
      CollectShape(init, mode, parseF64);
      CollectNextShape(Collect(init, mode, parseF64), lines[|lines| - 1], |lines|, mode, parseF64);
    }
  }

  /** One more line keeps inputs and labels equally many, adds one of each
      for a non-blank line, and adds a label as the mode makes it. */
  lemma {:induction false} CollectNextShape(prev: Outcome<(seq<seq<real>>, seq<seq<real>>), CsvError>,
                                            line: string, rowNum: nat, mode: LabelMode,
                                            parseF64: string -> Option<real>)
    requires CollectNext(prev, line, rowNum, mode, parseF64).Success?
    requires prev.Success? ==> (|prev.value.0| == |prev.value.1|
                                && forall k :: 0 <= k < |prev.value.1| ==> LabelFits(mode, prev.value.1[k]))
    ensures prev.Success?
    ensures var v := CollectNext(prev, line, rowNum, mode, parseF64).value;
      |v.0| == |v.1| == |prev.value.0| + (if |Trim(line)| == 0 then 0 else 1)
      && forall k :: 0 <= k < |v.1| ==> LabelFits(mode, v.1[k])
  {
    var t := Trim(line);
    if |t| > 0 {
      var cells := Fields(t, false);
      var row := RowValues(cells, rowNum, mode, parseF64);
      var v := CollectNext(prev, line, rowNum, mode, parseF64).value;
      var u := prev.value;
      assert v.1 == u.1 + [row.value.1];
      if mode.ClassIndex? {
        var c := ParseUsize(Trim(cells[|cells| - 1])).value;
        assert LabelFits(mode, row.value.1) by {
          assert 0 <= c < mode.nClasses && row.value.1 == OneHotVector(mode.nClasses, c);
        }
      }
      forall k | 0 <= k < |v.1|
        ensures LabelFits(mode, v.1[k])
      {
        if k < |u.1| {
          assert v.1[k] == u.1[k];
        }
      }
    }
  }

  /** A row whose feature count differs from n. */
  predicate WidthDiffers(n: int, row: seq<real>)
  {
    |row| != n
  }

  /** What parse_csv returns for these bytes. */
  function CsvOf(data: seq<Byte>, mode: LabelMode, parseF64: string -> Option<real>)
    : Outcome<(seq<seq<real>>, seq<seq<real>>), CsvError>
  {
    var text := Utf8.Decode(data);
    if text.None? then Failure(NotUtf8)
    else Checked(Collect(DataLines(Lines(text.value), parseF64), mode, parseF64))
  }

  /** The checks after the rows are read: at least one, and all of the
      first one's width. */
  function Checked(c: Outcome<(seq<seq<real>>, seq<seq<real>>), CsvError>)
    : Outcome<(seq<seq<real>>, seq<seq<real>>), CsvError>
  {
    if c.Failure? then c
    else if |c.value.0| == 0 then Failure(NoDataRows)
    else
      var inputs := c.value.0;
      var w := FirstWhere(inputs, WidthDiffers, |inputs[0]|, 0);
      if w.None? then c
      else Failure(WidthMismatch(w.value + 1, |inputs[w.value]|, |inputs[0]|))
  }

  /** parse_csv: what succeeds is as many inputs as labels, at least one,
      all inputs of the first one's width, every label as its mode makes
      it, one sample per non-blank data line. */
  lemma {:induction false} CsvShape(data: seq<Byte>, mode: LabelMode, parseF64: string -> Option<real>)
    requires CsvOf(data, mode, parseF64).Success?
    ensures var v := CsvOf(data, mode, parseF64).value;
      && Utf8.Decode(data).Some?
      && |v.0| == |v.1| == NonBlank(DataLines(Lines(Utf8.Decode(data).value), parseF64)) > 0
      && (forall k :: 0 <= k < |v.0| ==> |v.0[k]| == |v.0[0]|)
      && (forall k :: 0 <= k < |v.1| ==> LabelFits(mode, v.1[k]))
  {
    var lines := DataLines(Lines(Utf8.Decode(data).value), parseF64);
    CollectShape(lines, mode, parseF64);
  }

  /** The row loop of parse_csv over the data lines: blank lines skipped,
      each other line's cells read, the first error returned. */
  method ReadRows(lines: seq<string>, mode: LabelMode, parseF64: string -> Option<real>)
    returns (r: Outcome<(seq<seq<real>>, seq<seq<real>>), CsvError>)
    ensures r == Collect(lines, mode, parseF64)
  {
    var inputs: seq<seq<real>> := [];
    var labels: seq<seq<real>> := [];
    for j := 0 to |lines|
      invariant Collect(lines[..j], mode, parseF64) == Success((inputs, labels))
    {
      CollectStep(lines, j, mode, parseF64);
      var line := Trim(lines[j]);
      if |line| == 0 {
        continue;
      }
      var cells := ParseCsvRow(line);
      var row := RowValues(cells, j + 1, mode, parseF64);
      if row.Failure? {
        CollectErrStays(lines, j + 1, mode, parseF64);
        return Failure(row.error);
      }
      inputs := inputs + [row.value.0];
      labels := labels + [row.value.1];
    }
    assert lines[..|lines|] == lines;
    return Success((inputs, labels));
  }

  /** The checks parse_csv makes after the row loop. */
  method CheckRows(c: Outcome<(seq<seq<real>>, seq<seq<real>>), CsvError>)
    returns (r: Outcome<(seq<seq<real>>, seq<seq<real>>), CsvError>)
    ensures r == Checked(c)
  {
    if c.Failure? {
      return c;
    }
    var inputs := c.value.0;
    if |inputs| == 0 {
      return Failure(NoDataRows);
    }
    var nFeats := |inputs[0]|;
    for i := 0 to |inputs|
      invariant FirstWhere(inputs, WidthDiffers, nFeats, i) == FirstWhere(inputs, WidthDiffers, nFeats, 0)
    {
      if |inputs[i]| != nFeats {
        return Failure(WidthMismatch(i + 1, |inputs[i]|, nFeats));
      }
    }
    return c;
  }

  /** parse_csv: the text, its header test on the first line, the rows,
      then the checks on them. */
  method ParseCsv(data: seq<Byte>, mode: LabelMode, parseF64: string -> Option<real>)
    returns (r: Outcome<(seq<seq<real>>, seq<seq<real>>), CsvError>)
    ensures r == CsvOf(data, mode, parseF64)
  {
    var text := Utf8.Decode(data);
    if text.None? {
      return Failure(NotUtf8);
    }
    var lines := Lines(text.value);
    if |lines| > 0 && IsHeader(lines[0], parseF64) {
      lines := lines[1..];
    }
    assert lines == DataLines(Lines(text.value), parseF64);
    var rows := ReadRows(lines, mode, parseF64);
    r := CheckRows(rows);
  }

  // ---------------------------------------------------------------------
  // built-in datasets

  /** builtin_xor: the four corners of the unit square, labelled [1, 0]
      where both inputs are equal and [0, 1] where they differ. */
  function BuiltinXor(): (r: (seq<seq<real>>, seq<seq<real>>))
    ensures |r.0| == 4 && |r.1| == 4
    ensures forall k :: 0 <= k < 4 ==> (|r.0[k]| == 2
      && r.1[k] == (if r.0[k][0] == r.0[k][1] then [1.0, 0.0] else [0.0, 1.0]))
  {
    ([[0.0, 0.0], [0.0, 1.0], [1.0, 0.0], [1.0, 1.0]],
     [[1.0, 0.0], [0.0, 1.0], [0.0, 1.0], [1.0, 0.0]])
  }

  /** The labels builtin_circles and builtin_blobs push for n samples:
      sample i is of class i % 2, one-hot over two classes. */
  function Alternating(n: nat): (r: seq<seq<real>>)
  {
    seq(n, i requires 0 <= i < n => OneHotVector(2, i % 2))
  }

  /** What builtin_circles(200) and builtin_blobs(200) return: 200 samples
      of two coordinates each, labelled by `Alternating`. The coordinates
      are sines and cosines of the index, which the model takes as given. */
  predicate Generated(d: (seq<seq<real>>, seq<seq<real>>))
  {
    |d.0| == 200 && d.1 == Alternating(200) && forall i :: 0 <= i < 200 ==> |d.0[i]| == 2
  }

  /** The label loop of builtin_circles and builtin_blobs, which pushes the
      one-hot vector of class i % 2 for each sample i. */
  method AlternatingLabels(n: nat) returns (labels: seq<seq<real>>)
    ensures |labels| == n
    ensures forall i :: 0 <= i < n ==> labels[i] == OneHotVector(2, i % 2)
    ensures labels == Alternating(n)
  {
    labels := [];
    for i := 0 to n
      invariant |labels| == i
      invariant forall k :: 0 <= k < i ==> labels[k] == OneHotVector(2, k % 2)
    {
      var oh := [0.0, 0.0];
      oh := oh[i % 2 := 1.0];
      labels := labels + [oh];
    }
  }
}
