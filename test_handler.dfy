/** studio/handlers/test.rs: the test page. It lists the saved models as
    options, parses comma-separated inputs, checks their count against the
    first layer, runs the network and chooses how to show its output; on
    import it picks the model's name from the upload. Loading and saving
    model files and serde's JSON checks are outside the model. */
module TestHandler {
  import opened Base
  import opened Text
  import opened Matrices
  import opened Activation
  import opened Dense
  import opened Networks
  import opened TrainLoop
  import Multipart
  import Architect
  import Routes
  import Models

  // ---------------------------------------------------------------------
  // The model selector

  const NoModelsOption: string := "<option disabled>No models found in trained_models/</option>"
  const OptionOpen: string := "<option value=\""
  const Selected: string := " selected"

  function SelectedAttr(sel: bool): string
  {
    if sel then Selected else ""
  }

  /** One `<option>` of `build_model_options`, the name escaped in the value
      and in the text. */
  function OptionLine(name: string, sel: bool): string
  {
    OptionOpen + Architect.HtmlEscape(name) + "\"" + SelectedAttr(sel) + ">"
      + Architect.HtmlEscape(name) + "</option>"
  }

  /** The opening tag of an option: the text before its first `>`. */
  function OpeningTag(line: string): string
  {
    var f := Find(line, ">");
    if f.None? then line else line[..f.value]
  }

  /** The opening tag of a text whose first `>` follows head is head. */
  lemma {:induction false} OpeningTagOf(head: string, tail: string)
    requires '>' !in head
    ensures OpeningTag(head + ">" + tail) == head
  {
    var line := head + ">" + tail;
    assert line[|head|] == '>';
    assert forall j :: 0 <= j < |head| ==> line[j] == head[j];
    FindAt(line, '>', |head|);
  }

  /** The option's opening tag ends with ` selected` exactly for the
      selected model, whatever the name holds, because escaping leaves no
      `>` or `"` in it. */
  lemma {:induction false} OptionLineSelected(name: string, sel: bool)
    ensures EndsWith(OpeningTag(OptionLine(name, sel)), Selected) <==> sel
    ensures StartsWith(OpeningTag(OptionLine(name, sel)), OptionOpen)
  {
    OptionTagSelected(Architect.HtmlEscape(name), sel);
  }

  /** The same for any text e in place of the escaped name that holds no
      `>`. */
  lemma {:induction false} OptionTagSelected(e: string, sel: bool)
    requires '>' !in e
    ensures var line := OptionOpen + e + "\"" + SelectedAttr(sel) + ">" + e + "</option>";
      (EndsWith(OpeningTag(line), Selected) <==> sel) && StartsWith(OpeningTag(line), OptionOpen)
  {
    var head := OptionOpen + e + "\"" + SelectedAttr(sel);
    var line := head + ">" + e + "</option>";
    assert line == head + ">" + (e + "</option>");
    assert '>' !in head by {
      assert '>' !in OptionOpen && '>' !in SelectedAttr(sel);
    }
    OpeningTagOf(head, e + "</option>");
    assert head[..|OptionOpen|] == OptionOpen;
    if !sel {
      assert head[|head| - 1] == '"' && Selected[|Selected| - 1] == 'd';
    }
  }

  /** The options of a non-empty model list, one per model in order. */
  function OptionLines(models: seq<string>, selected: string): (r: seq<string>)
    ensures |r| == |models|
    ensures forall k :: 0 <= k < |models| ==> r[k] == OptionLine(models[k], models[k] == selected)
  {
    seq(|models|, k requires 0 <= k < |models| => OptionLine(models[k], models[k] == selected))
  }

  /** `build_model_options`: a single disabled option without models,
      otherwise the options joined by line breaks. */
  function BuildModelOptions(models: seq<string>, selected: string): string
  {
    if |models| == 0 then NoModelsOption else Join(OptionLines(models, selected), "\n")
  }

  /** With models there is one option per model, the k-th for the k-th
      model, and it is marked selected exactly when that model's name is
      the selected one; without models the single disabled option is all. */
  lemma {:induction false} ModelOptionsMarked(models: seq<string>, selected: string, k: nat)
    requires k < |models|
    ensures BuildModelOptions(models, selected) == Join(OptionLines(models, selected), "\n")
    ensures EndsWith(OpeningTag(OptionLines(models, selected)[k]), Selected) <==> models[k] == selected
    ensures BuildModelOptions([], selected) == NoModelsOption
  {
    OptionLineSelected(models[k], models[k] == selected);
  }

  // ---------------------------------------------------------------------
  // Labels

  /** `label_for`: the model's label for class i, or i in decimal when the
      model has no labels or too few. */
  function LabelFor(labels: Option<seq<string>>, i: nat): (r: string)
    ensures labels.Some? && i < |labels.value| ==> r == labels.value[i]
    ensures !(labels.Some? && i < |labels.value|) ==> r == NatToString(i)
  {
    if labels.Some? && i < |labels.value| then labels.value[i] else NatToString(i)
  }

  /** A fallback label reads back as its class number. */
  lemma {:induction false} LabelFallbackReadsBack(labels: Option<seq<string>>, i: nat)
    requires !(labels.Some? && i < |labels.value|) && i <= USIZE_MAX
    ensures ParseUsize(LabelFor(labels, i)) == Some(i)
  {
    ParseNatToString(i, USIZE_MAX);
  }

  // ---------------------------------------------------------------------
  // The probability table's order

  predicate Indexes(order: seq<nat>, out: seq<real>)
  {
    forall a :: 0 <= a < |order| ==> order[a] < |out|
  }

  /** Rows in `sort_by` order for a descending comparison: non-increasing
      outputs, equal outputs in index order (the sort is stable). */
  predicate RankedBy(order: seq<nat>, out: seq<real>)
    requires Indexes(order, out)
  {
    forall a, b :: 0 <= a < b < |order| ==>
      out[order[a]] >= out[order[b]] && (out[order[a]] == out[order[b]] ==> order[a] < order[b])
  }

  /** Where a value is inserted into a ranked order: after every entry of
      at least its output. */
  function InsertPos(order: seq<nat>, v: real, out: seq<real>): (p: nat)
    requires Indexes(order, out)
    ensures p <= |order|
    ensures forall a :: 0 <= a < p ==> out[order[a]] >= v
    ensures p < |order| ==> out[order[p]] < v
  {
    if |order| == 0 then 0
    else if out[order[0]] < v then 0
    else 1 + InsertPos(order[1..], v, out)
  }

  /** The indices 0..n-1 in the order `sort_by` leaves them. */
  function Rank(out: seq<real>, n: nat): (r: seq<nat>)
    requires n <= |out|
    ensures |r| == n && forall a :: 0 <= a < |r| ==> r[a] < n
  {
    if n == 0 then []
    else
      var order := Rank(out, n - 1);
      var p := InsertPos(order, out[n - 1], out);
      var r := order[..p] + [n - 1] + order[p..];
      assert forall a :: 0 <= a < |r| ==> r[a] == n - 1 || r[a] in order;
      r
  }

  /** Rank(out, n) lists the indices below n once each, in ranked order. */
  lemma {:induction false} RankProperties(out: seq<real>, n: nat)
    requires n <= |out|
    ensures var r := Rank(out, n);
      IsPermutation(r, n) && Indexes(r, out) && RankedBy(r, out) && forall b :: 0 <= b < n ==> b in r
  {
    if n > 0 {
      RankProperties(out, n - 1);
      var order := Rank(out, n - 1);
      InsertStep(order, n - 1, InsertPos(order, out[n - 1], out), out);
    }
  }

  /** Inserting index i at InsertPos into a ranked permutation of the
      indices below i gives a ranked permutation of those up to i. */
  lemma {:induction false} InsertStep(order: seq<nat>, i: nat, p: nat, out: seq<real>)
    requires i < |out| && IsPermutation(order, i) && Indexes(order, out) && RankedBy(order, out)
    requires forall b :: 0 <= b < i ==> b in order
    requires p == InsertPos(order, out[i], out)
    ensures var r := order[..p] + [i] + order[p..];
      IsPermutation(r, i + 1) && Indexes(r, out) && RankedBy(r, out) && forall b :: 0 <= b < i + 1 ==> b in r
  {
    InsertKeeps(order, i, p, out);
    InsertRanked(order, i, p, out);
  }

  /** Inserting the largest index keeps a permutation covering every
      index. */
  lemma {:induction false} InsertKeeps(order: seq<nat>, i: nat, p: nat, out: seq<real>)
    requires i < |out| && IsPermutation(order, i) && Indexes(order, out) && p <= |order|
    requires forall b :: 0 <= b < i ==> b in order
    ensures var r := order[..p] + [i] + order[p..];
      IsPermutation(r, i + 1) && Indexes(r, out) && forall b :: 0 <= b < i + 1 ==> b in r
  {
    var r := order[..p] + [i] + order[p..];
    assert forall a :: 0 <= a < p ==> r[a] == order[a];
    assert r[p] == i;
    assert forall a :: p < a < |r| ==> r[a] == order[a - 1];
    assert forall b :: b in order ==> b in r;
  }

  /** Entry a of the order with i inserted at p. */
  lemma {:induction false} InsertedAt(order: seq<nat>, i: nat, p: nat, a: nat)
    requires p <= |order| && a <= |order|
    ensures (order[..p] + [i] + order[p..])[a] == if a < p then order[a] else if a == p then i else order[a - 1]
  {
  }

  /** Inserting at InsertPos keeps the order ranked: the entries before it
      have at least its output, and so an earlier index on a tie; those
      after it have less. */
  lemma {:induction false} InsertRanked(order: seq<nat>, i: nat, p: nat, out: seq<real>)
    requires i < |out| && (forall a :: 0 <= a < |order| ==> order[a] < i) && Indexes(order, out) && RankedBy(order, out)
    requires p == InsertPos(order, out[i], out)
    ensures var r := order[..p] + [i] + order[p..];
      Indexes(r, out) && RankedBy(r, out)
  {
    var r := order[..p] + [i] + order[p..];
    forall a | 0 <= a < |r|
      ensures r[a] < |out|
    {
      InsertedAt(order, i, p, a);
    }
    forall a, b | 0 <= a < b < |r|
      ensures out[r[a]] >= out[r[b]] && (out[r[a]] == out[r[b]] ==> r[a] < r[b])
    {
      InsertedAt(order, i, p, a);
      InsertedAt(order, i, p, b);
      if b < p || a > p {
      } else if b == p {
        assert order[a] < i;
      } else if a < p {
      } else {
        assert out[order[p]] < out[i];
        assert b - 1 == p || out[order[b - 1]] <= out[order[p]];
      }
    }
  }

  /** The row order of the table is a permutation of the outputs' indices,
      by non-increasing output, ties in index order. */
  lemma {:induction false} RankOrdered(out: seq<real>)
    ensures var r := Rank(out, |out|);
      IsPermutation(r, |out|) && Indexes(r, out) && RankedBy(r, out)
      && forall b :: 0 <= b < |out| ==> b in r
  {
    RankProperties(out, |out|);
  }

  // ---------------------------------------------------------------------
  // Output views

  /** What `format_output` shows: the probability table (best class and
      row order), one probability, or the raw values. */
  datatype View =
    | ProbabilityTable(best: nat, order: seq<nat>)
    | SingleProbability(value: real)
    | RawValues(values: seq<real>)

  /** `format_output`: Softmax networks get the table, a Sigmoid network
      with a single output gets the probability, anything else the raw
      values. */
  function FormatOutput(output: seq<real>, activator: ActivationFunction): (r: View)
    ensures r.ProbabilityTable? <==> activator == Softmax
    ensures r.SingleProbability? <==> activator == Sigmoid && |output| == 1
    ensures r.SingleProbability? ==> r.value == output[0]
    ensures r.RawValues? ==> r.values == output
  {
    match activator
    case Softmax => ProbabilityTable(ArgMax(output), Rank(output, |output|))
    case Sigmoid => if |output| == 1 then SingleProbability(output[0]) else RawValues(output)
    case _ => RawValues(output)
  }

  /** The table's best class has the largest output, no later class has
      as large a one, and the first row shows that largest output. */
  lemma {:induction false} TableBest(output: seq<real>)
    requires |output| > 0
    ensures var v := FormatOutput(output, Softmax);
      v.best < |output| && (forall j :: 0 <= j < |output| ==> output[j] <= output[v.best])
      && (forall j :: v.best < j < |output| ==> output[j] < output[v.best])
      && |v.order| == |output| && output[v.order[0]] == output[v.best]
  {
    var v := FormatOutput(output, Softmax);
    RankOrdered(output);
    var b := v.best;
    assert b in v.order;
    var k :| 0 <= k < |v.order| && v.order[k] == b;
    if k > 0 {
      assert output[v.order[0]] >= output[v.order[k]];
    }
  }

  /** On a tie the hero class (the last largest output) need not head the
      table (the first row is the first largest one): for two equal
      outputs the best is 1 and the rows are 0, 1. */
  lemma {:induction false} TieHeroNotFirstRow(out: seq<real>)
    requires |out| == 2 && out[0] == out[1]
    ensures FormatOutput(out, Softmax) == ProbabilityTable(1, [0, 1])
  {
    assert ArgMax(out) == 1;
    RankOrdered(out);
    var r := Rank(out, 2);
    assert r[0] < 2 && r[1] < 2 && r[0] != r[1];
    assert r[0] < r[1];
  }

  // ---------------------------------------------------------------------
  // Numeric inputs

  /** One comma-separated cell: trimmed, dropped when empty or not a
      number. */
  function CellValue(cell: string, parseF64: string -> Option<real>): (r: Option<real>)
    ensures r.Some? ==> |Trim(cell)| > 0 && parseF64(Trim(cell)) == r
    ensures |Trim(cell)| > 0 && parseF64(Trim(cell)).Some? ==> r == parseF64(Trim(cell))
  {
    var t := Trim(cell);
    if |t| == 0 then None else parseF64(t)
  }

  /** The input values of `run_inference_numeric`. */
  function ParseInputs(raw: string, parseF64: string -> Option<real>): seq<real>
  {
    SomeValues(Split(raw, ","), c => CellValue(c, parseF64))
  }

  /** No more values than cells, and each value is what some cell's trimmed
      text parses to. */
  lemma {:induction false} ParseInputsFromCells(raw: string, parseF64: string -> Option<real>)
    ensures var cells := Split(raw, ",");
      |ParseInputs(raw, parseF64)| <= |cells|
      && forall k :: 0 <= k < |ParseInputs(raw, parseF64)| ==>
        exists j :: 0 <= j < |cells| && parseF64(Trim(cells[j])) == Some(ParseInputs(raw, parseF64)[k])
  {
    SomeValuesFrom(Split(raw, ","), c => CellValue(c, parseF64));
  }

  /** When every cell holds a number, there is one value per cell, in
      order. */
  lemma {:induction false} ParseInputsAllCells(raw: string, parseF64: string -> Option<real>)
    requires forall j :: 0 <= j < |Split(raw, ",")| ==>
      |Trim(Split(raw, ",")[j])| > 0 && parseF64(Trim(Split(raw, ",")[j])).Some?
    ensures |ParseInputs(raw, parseF64)| == |Split(raw, ",")|
    ensures forall j :: 0 <= j < |Split(raw, ",")| ==>
      Some(ParseInputs(raw, parseF64)[j]) == parseF64(Trim(Split(raw, ",")[j]))
  {
    var cells := Split(raw, ",");
    var f := c => CellValue(c, parseF64);
    assert forall j :: 0 <= j < |cells| ==> f(cells[j]) == parseF64(Trim(cells[j]));
    SomeValuesAll(cells, f);
  }

  // ---------------------------------------------------------------------
  // The input-length check

  /** The check as written: the input count against the first layer's
      `weights.cols`, which is that layer's number of neurons. */
  predicate LengthOkAsWritten(first: LayerState, n: nat)
  {
    n == first.weights.cols
  }

  /** The check as intended: against `weights.rows`, the number of inputs
      the layer takes. */
  predicate LengthOk(first: LayerState, n: nat)
  {
    n == InputSize(first)
  }

  /** A layer of 2 inputs and 3 neurons: the check as written refuses the 2
      values the layer can take and lets through 3, on which the layer
      fails. */
  lemma ColsCheckRejectsFittingInput(exp: PowE)
    ensures var l := LayerState(3, Zeros(1, 3), Zeros(1, 3), Zeros(2, 3), Zeros(1, 3), Identity);
      WellShaped(l) && Feed(l, [0.0, 0.0], exp).Ok? && !LengthOkAsWritten(l, 2)
      && LengthOkAsWritten(l, 3) && Feed(l, [0.0, 0.0, 0.0], exp).Err?
  {
  }

  /** The intended check is necessary for a forward pass, and for layers
      that chain up without a Softmax layer it is enough. */
  lemma {:induction false} LengthCheckSound(ls: seq<LayerState>, input: seq<real>, exp: PowE)
    requires AllWellShaped(ls) && |ls| > 0
    ensures Propagate(ls, input, exp).Ok? ==> LengthOk(ls[0], |input|)
    ensures LengthOk(ls[0], |input|) && (forall k :: 0 < k < |ls| ==> InputSize(ls[k]) == ls[k - 1].size)
      && (forall k :: 0 <= k < |ls| ==> ls[k].activator != Softmax)
      ==> Propagate(ls, input, exp).Ok?
  {
    PropagateOk(ls, input, exp);
  }

  // ---------------------------------------------------------------------
  // Numeric inference

  /** How `run_inference_numeric` ends once the model is loaded. */
  datatype Inference =
    | NoLayers
    | LengthMismatch(expected: nat, got: nat)
    | ForwardFailed(message: string)
    | Shown(view: View)

  /** `run_inference_numeric` on a loaded model, with its length check as
      written: a model without layers, a count of values other than the first
      layer's `weights.cols` and a failing forward pass (a Softmax layer, or
      an input the first layer cannot take) are errors; otherwise the output
      is shown as the last layer's activation asks. */
  function RunNumeric(ls: seq<LayerState>, raw: string, parseF64: string -> Option<real>, exp: PowE): (r: Inference)
    requires AllWellShaped(ls)
    ensures r == NoLayers <==> |ls| == 0
    ensures r.LengthMismatch? <==> |ls| > 0 && !LengthOkAsWritten(ls[0], |ParseInputs(raw, parseF64)|)
    ensures r.LengthMismatch? ==> r.expected == ls[0].weights.cols && r.got == |ParseInputs(raw, parseF64)|
    ensures r.ForwardFailed? ==> Propagate(ls, ParseInputs(raw, parseF64), exp).Err?
    ensures r.Shown? ==> (Propagate(ls, ParseInputs(raw, parseF64), exp).Ok?
      && r.view == FormatOutput(Propagate(ls, ParseInputs(raw, parseF64), exp).value.1, ls[|ls| - 1].activator))
  {
    if |ls| == 0 then NoLayers
    else
      var inputs := ParseInputs(raw, parseF64);
      if !LengthOkAsWritten(ls[0], |inputs|) then LengthMismatch(ls[0].weights.cols, |inputs|)
      else
        match Propagate(ls, inputs, exp)
        case Err(e) => ForwardFailed(e)
        case Ok((_, output)) => Shown(FormatOutput(output, ls[|ls| - 1].activator))
  }

  /** Whatever the check as written lets through either fails the forward
      pass or meets the intended check: a shown result always had the count
      of values the first layer takes. */
  lemma {:induction false} RunNumericShownFits(ls: seq<LayerState>, raw: string, parseF64: string -> Option<real>, exp: PowE)
    requires AllWellShaped(ls)
    ensures RunNumeric(ls, raw, parseF64, exp).Shown? ==>
      LengthOkAsWritten(ls[0], |ParseInputs(raw, parseF64)|) && LengthOk(ls[0], |ParseInputs(raw, parseF64)|)
  {
    if RunNumeric(ls, raw, parseF64, exp).Shown? {
      LengthCheckSound(ls, ParseInputs(raw, parseF64), exp);
    }
  }

  /** A Softmax output layer of positive width makes the forward pass fail,
      so such a model never reaches the probability table. */
  lemma {:induction false} SoftmaxNeverShown(ls: seq<LayerState>, raw: string, parseF64: string -> Option<real>, exp: PowE)
    requires AllWellShaped(ls) && |ls| > 0 && ls[|ls| - 1].activator == Softmax && ls[|ls| - 1].size > 0
    ensures !RunNumeric(ls, raw, parseF64, exp).Shown?
  {
    SoftmaxNetworkFails(ls, ParseInputs(raw, parseF64), exp, |ls| - 1);
  }

  // ---------------------------------------------------------------------
  // The uploaded file's name

  const FilenameKey: string := "filename=\""

  /** The text between `filename="` and the next `"`, if both are there. */
  function QuotedFilename(h: string): (r: Option<string>)
    ensures r.Some? ==> '"' !in r.value
    ensures r.Some? ==> Contains(h, FilenameKey)
  {
    var pos := Find(h, FilenameKey);
    if pos.None? then None
    else
      var rest := h[pos.value + |FilenameKey|..];
      FindOne(rest, '"');
      var end := Find(rest, ['"']);
      if end.None? then None else Some(rest[..end.value])
  }

  /** A header naming a file in the quoted form gives back that name. */
  lemma {:induction false} QuotedFilenameOf(name: string, tail: string)
    requires '"' !in name
    ensures QuotedFilename(FilenameKey + name + "\"" + tail) == Some(name)
  {
    var h := FilenameKey + name + "\"" + tail;
    assert OccursAt(h, FilenameKey, 0);
    assert Find(h, FilenameKey) == Some(0);
    var rest := h[|FilenameKey|..];
    assert rest == name + "\"" + tail;
    assert rest[|name|] == '"' && forall j :: 0 <= j < |name| ==> rest[j] == name[j];
    FindAt(rest, '"', |name|);
    assert rest[..|name|] == name;
  }

  /** What one part gives: its quoted file name, when it has a blank line,
      "filename=" in its headers and the quoted form. */
  function PartFilename(part: seq<Byte>): Option<string>
  {
    var sec := Multipart.Sections(part);
    if sec.None? then None else HeaderFilename(Multipart.HeaderText(sec.value))
  }

  /** Headers without "filename=" name no file; others may in the quoted
      form. */
  function HeaderFilename(h: string): Option<string>
  {
    if !Contains(h, "filename=") then None else QuotedFilename(h)
  }

  /** What each part gives, in order. */
  function PartFilenames(parts: seq<seq<Byte>>): (r: seq<Option<string>>)
    ensures |r| == |parts| && forall k :: 0 <= k < |parts| ==> r[k] == PartFilename(parts[k])
  {
    seq(|parts|, k requires 0 <= k < |parts| => PartFilename(parts[k]))
  }

  /** The first position from i on that holds a name. */
  function FirstNamed(names: seq<Option<string>>, i: nat): (r: Option<nat>)
    requires i <= |names|
    ensures r.None? ==> forall k :: i <= k < |names| ==> names[k].None?
    ensures r.Some? ==> (i <= r.value < |names| && names[r.value].Some?
                         && forall k :: i <= k < r.value ==> names[k].None?)
    decreases |names| - i
  {
    if i == |names| then None
    else if names[i].Some? then Some(i)
    else FirstNamed(names, i + 1)
  }

  /** The name that the first part giving one gives. */
  function FirstFilename(parts: seq<seq<Byte>>): Option<string>
  {
    var names := PartFilenames(parts);
    var k := FirstNamed(names, 0);
    if k.None? then None else names[k.value]
  }

  /** `extract_upload_filename`: the quoted file name of the first part
      that has one. */
  method ExtractUploadFilename(body: seq<Byte>, boundary: string) returns (r: Option<string>)
    ensures r == FirstFilename(Multipart.Parts(body, boundary))
    ensures r.Some? ==> '"' !in r.value
  {
    var parts := Multipart.SplitOn(body, Multipart.Delimiter(boundary));
    ghost var names := PartFilenames(parts);
    for j := 0 to |parts|
      invariant FirstNamed(names, j) == FirstNamed(names, 0)
    {
      assert names[j] == PartFilename(parts[j]);
      var sec := Multipart.Sections(parts[j]);
      if sec.None? {
        continue;
      }
      var h := Multipart.HeaderText(sec.value);
      if !Contains(h, "filename=") {
        continue;
      }
      var name := HeaderFilename(h);
      if name.Some? {
        return name;
      }
    }
    return None;
  }

  // ---------------------------------------------------------------------
  // The imported model's name

  predicate IsSafeChar(c: char)
  {
    ('a' <= c <= 'z') || ('A' <= c <= 'Z') || ('0' <= c <= '9') || c == '_' || c == '-'
  }

  const DefaultModelName: string := "imported_model"

  /** Every character that is not an ASCII letter or digit, `_` or `-`
      replaced by `_`. */
  function SanitizeChars(s: string): (r: string)
    ensures |r| == |s|
    ensures forall k :: 0 <= k < |s| ==> IsSafeChar(r[k])
    ensures forall k :: 0 <= k < |s| ==> IsSafeChar(s[k]) ==> r[k] == s[k]
    ensures forall k :: 0 <= k < |s| ==> !IsSafeChar(s[k]) ==> r[k] == '_'
  {
    seq(|s|, k requires 0 <= k < |s| => if IsSafeChar(s[k]) then s[k] else '_')
  }

  /** The name an imported model is saved under: its file stem (or
      `imported_model` without one), sanitised, and `imported_model` when
      that leaves nothing. */
  function ImportName(stem: Option<string>): (r: string)
    ensures |r| > 0 && forall k :: 0 <= k < |r| ==> IsSafeChar(r[k])
    ensures stem.Some? && |stem.value| > 0 ==> r == SanitizeChars(stem.value)
    ensures stem.None? || stem == Some("") ==> r == DefaultModelName
  {
    var s := SanitizeChars(if stem.Some? then stem.value else DefaultModelName);
    if |s| == 0 then DefaultModelName else s
  }

  /** Importing under a name already chosen keeps it. */
  lemma {:induction false} ImportNameIdempotent(stem: Option<string>)
    ensures ImportName(Some(ImportName(stem))) == ImportName(stem)
  {
    var n := ImportName(stem);
    assert SanitizeChars(n) == n;
  }

  /** Safe characters never spell a separator or `..`, so an imported model
      can always be downloaded by its name. */
  lemma {:induction false} ImportNameDownloadable(stem: Option<string>)
    ensures Models.NameAccepted(ImportName(stem))
  {
    var n := ImportName(stem);
    assert '/' !in n && '\\' !in n;
    forall k | 0 <= k
      ensures !OccursAt(n, "..", k)
    {
      if k + 2 <= |n| {
        assert n[k..k + 2][0] == n[k];
      }
    }
  }

  /** The redirect after an import, `/test?model=<name>`, is routed to the
      test page with the query naming the model, whatever the name. */
  lemma {:induction false} ImportRedirectRouted(name: string)
    ensures Routes.Dispatch(Routes.Get, RedirectTarget(name)) == Routes.TestPage(ModelQuery(name))
  {
    Routes.TableRouted(Routes.TestGet, ModelQuery(name));
  }

  function ModelQuery(name: string): string { "model=" + name }

  /** Where `handle_import_model` redirects: the test page, selecting the
      model. */
  function RedirectTarget(name: string): (r: string)
    ensures r == Routes.PathOf(Routes.TestGet) + "?" + ModelQuery(name)
  {
    "/test?" + ModelQuery(name)
  }
}
