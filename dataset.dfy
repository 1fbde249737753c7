/** studio/handlers/dataset.rs: loading a dataset, from an uploaded CSV file
    or one of the built-in generators, checking it against the saved
    architecture, and splitting it into training and validation rows. */
module DatasetHandler {
  import opened Base
  import opened Text
  import opened Form
  import opened Multipart
  import opened Csv
  import opened State
  import Architect

  /** `MAX_CSV_BYTES`: 50 MB. */
  const MaxCsvBytes: nat := 50 * 1024 * 1024

  /** The number of validation rows for a split percentage. */
  function ValCount(total: nat, pct: nat): (r: nat)
    ensures pct <= 100 ==> r <= total
    ensures pct <= 50 ==> 2 * r <= total
    ensures pct == 0 ==> r == 0
  {
    ScaledBound(total, pct);
    total * pct / 100
  }

  /** A percentage of a total is at most the total times the percentage's
      bound. */
  lemma {:induction false} ScaledBound(total: nat, pct: nat)
    ensures pct <= 100 ==> total * pct <= total * 100
    ensures pct <= 50 ==> total * pct <= total * 50
  {
    if pct <= 100 {
      assert total * 100 - total * pct == total * (100 - pct);
    }
    if pct <= 50 {
      assert total * 50 - total * pct == total * (50 - pct);
    }
  }

  /** `build_dataset_state`: the last ⌊total·pct/100⌋ rows go to
      validation, the rows before them to training, in order; the preview
      is the first five (input, label) pairs. `split_at` and the
      subtraction need the split to leave the training part within both
      sequences. */
  function BuildDatasetState(inputs: seq<seq<real>>, labels: seq<seq<real>>, valSplitPct: nat,
                             sourceName: string): (r: DatasetState)
    requires valSplitPct <= 100
    requires |inputs| - ValCount(|inputs|, valSplitPct) <= |labels|
    ensures |r.valInputs| == ValCount(|inputs|, valSplitPct)
    ensures |r.trainInputs| == |inputs| - ValCount(|inputs|, valSplitPct) == |r.trainLabels|
    ensures r.trainInputs + r.valInputs == inputs && r.trainLabels + r.valLabels == labels
    ensures |r.previewRows| == Min(5, Min(|inputs|, |labels|))
    ensures forall k :: 0 <= k < |r.previewRows| ==> r.previewRows[k] == (inputs[k], labels[k])
    ensures r.featureCount == (if |inputs| == 0 then 0 else |inputs[0]|)
    ensures r.labelCount == (if |labels| == 0 then 0 else |labels[0]|)
    ensures r.totalRows == |inputs| && r.valSplitPct == valSplitPct && r.sourceName == sourceName
  {
    var total := |inputs|;
    var trainN := total - ValCount(total, valSplitPct);
    var preview := seq(Min(5, Min(|inputs|, |labels|)), k requires 0 <= k < Min(5, Min(|inputs|, |labels|)) =>
      (inputs[k], labels[k]));
    assert inputs[..trainN] + inputs[trainN..] == inputs;
    assert labels[..trainN] + labels[trainN..] == labels;
    DatasetState(inputs[..trainN], labels[..trainN], inputs[trainN..], labels[trainN..],
                 if total == 0 then 0 else |inputs[0]|, if |labels| == 0 then 0 else |labels[0]|,
                 total, valSplitPct, sourceName, preview)
  }

  /** A split of at most half keeps at least as many training rows as
      validation rows; a split of 0 keeps every row for training. */
  lemma {:induction false} SplitBalance(inputs: seq<seq<real>>, labels: seq<seq<real>>, pct: nat, name: string)
    requires pct <= 50 && |labels| == |inputs|
    ensures var ds := BuildDatasetState(inputs, labels, pct, name);
      |ds.valInputs| <= |ds.trainInputs| && |ds.valLabels| == |ds.valInputs|
      && (pct == 0 ==> ds.trainInputs == inputs && ds.valInputs == [])
  {
  }

  /** The reasons a load is turned down; Message gives the text the page
      shows. */
  datatype DatasetError =
    | InvalidMultipart
    | TooLarge
    | NoCsvFile
    | BadCsv(cause: CsvError)
    | CsvMismatch(expected: nat, got: nat)
    | MnistUnavailable
    | BuiltinMismatch(expected: nat, name: string, got: nat)

  function Message(e: DatasetError): string
  {
    match e
    case InvalidMultipart => "Invalid multipart request."
    case TooLarge => "File exceeds 50 MB limit."
    case NoCsvFile => "No CSV file was uploaded."
    case BadCsv(cause) => Csv.Message(cause)
    case CsvMismatch(expected, got) =>
      "Feature count mismatch: model expects " + NatToString(expected) + " inputs, CSV has " + NatToString(got) + "."
    case MnistUnavailable =>
      "MNIST dataset not implemented in built-in loader; train with examples/mnist.rs first."
    case BuiltinMismatch(expected, name, got) =>
      "Feature count mismatch: model expects " + NatToString(expected) + " inputs, '" + name + "' has "
      + NatToString(got) + "."
  }

  /** `spec.layers.first().map(|l| l.input_size).unwrap_or(0)`. */
  function ExpectedInputs(spec: Option<NetworkSpec>): nat
  {
    if spec.None? || |spec.value.layers| == 0 then 0 else spec.value.layers[0].inputSize
  }

  /** The feature check: a positive expected count that the first row does
      not have. */
  predicate Mismatch(expected: nat, inputs: seq<seq<real>>)
  {
    expected > 0 && |inputs| > 0 && |inputs[0]| != expected
  }

  /** The settings the upload form's text fields give: the split, at most
      50 and 20 when it does not read as a `u8`, and the label mode, one-hot
      with at least one label column exactly for "one_hot", one class
      index over at least two classes otherwise. */
  function UploadSettings(fields: seq<(string, string)>): (r: (nat, LabelMode))
    ensures r.0 <= 50
    ensures ParseU8(Trim(Architect.FieldOr(fields, "val_split", ""))).None? ==> r.0 == 20
    ensures r.1.OneHot? <==> Architect.FieldOr(fields, "label_mode", "") == "one_hot"
    ensures r.1.OneHot? ==> r.1.nLabelCols >= 1
    ensures r.1.ClassIndex? ==> r.1.nClasses >= 2
  {
    var split := ParseU8(Trim(Architect.FieldOr(fields, "val_split", "")));
    var nClasses := ParseUsize(Trim(Architect.FieldOr(fields, "n_classes", "")));
    var nLabelCols := ParseUsize(Trim(Architect.FieldOr(fields, "n_label_cols", "")));
    var mode :=
      if Architect.FieldOr(fields, "label_mode", "") == "one_hot"
      then OneHot(Max(if nLabelCols.None? then 1 else nLabelCols.value, 1))
      else ClassIndex(Max(if nClasses.None? then 2 else nClasses.value, 2));
    (Min(if split.None? then 20 else split.value, 50), mode)
  }

  /** The part of POST /dataset/upload after the file is found: the CSV
      rows under the settings of the text fields, then the feature check
      against the saved architecture. */
  function FromCsv(spec: Option<NetworkSpec>, file: seq<Byte>, fields: seq<(string, string)>,
                   parseF64: string -> Option<real>): (r: Outcome<DatasetState, DatasetError>)
    ensures r.Failure? ==> (r.error.BadCsv? <==> CsvOf(file, UploadSettings(fields).1, parseF64).Failure?)
    ensures r.Failure? ==> r.error.BadCsv? || r.error.CsvMismatch?
    ensures r.Success? ==> (r.value.totalRows > 0 && r.value.valSplitPct <= 50
      && |r.value.valInputs| <= |r.value.trainInputs|
      && (ExpectedInputs(spec) > 0 ==> r.value.featureCount == ExpectedInputs(spec))
      && CsvOf(file, UploadSettings(fields).1, parseF64)
         == Base.Success((r.value.trainInputs + r.value.valInputs, r.value.trainLabels + r.value.valLabels)))
  {
    var settings := UploadSettings(fields);
    var csv := CsvOf(file, settings.1, parseF64);
    if csv.Failure? then Failure(BadCsv(csv.error))
    else
      CsvShape(file, settings.1, parseF64);
      var expected := ExpectedInputs(spec);
      if Mismatch(expected, csv.value.0) then Failure(CsvMismatch(expected, |csv.value.0[0]|))
      else
        SplitBalance(csv.value.0, csv.value.1, settings.0, "CSV upload");
        Base.Success(BuildDatasetState(csv.value.0, csv.value.1, settings.0, "CSV upload"))
  }

  /** What POST /dataset/upload loads, or why it refuses: the boundary of
      the content type, the size limit, a non-empty file part, then the
      rows of the first file part under the settings of the text fields. */
  function Upload(spec: Option<NetworkSpec>, contentType: string, body: seq<Byte>,
                  parseF64: string -> Option<real>): (r: Outcome<DatasetState, DatasetError>)
    ensures r == Failure(InvalidMultipart) <==> ExtractBoundary(contentType).None?
    ensures ExtractBoundary(contentType).Some? && |body| > MaxCsvBytes ==> r == Failure(TooLarge)
    ensures r.Success? ==> |body| <= MaxCsvBytes
    ensures ExtractBoundary(contentType).Some? && |body| <= MaxCsvBytes ==>
      var parts := Parts(body, ExtractBoundary(contentType).value);
      var file := FoundValue(parts, AnyFile);
      (r == Failure(NoCsvFile) <==> file.None? || |file.value| == 0)
      && (file.Some? && |file.value| > 0 ==> r == FromCsv(spec, file.value, SomeValues(parts, TextFieldOf), parseF64))
  {
    var boundary := ExtractBoundary(contentType);
    if boundary.None? then Failure(InvalidMultipart)
    else if |body| > MaxCsvBytes then Failure(TooLarge)
    else
      var file := FoundValue(Parts(body, boundary.value), AnyFile);
      if file.None? || |file.value| == 0 then Failure(NoCsvFile)
      else FromCsv(spec, file.value, SomeValues(Parts(body, boundary.value), TextFieldOf), parseF64)
  }

  /** The flash after a load. */
  const LoadedText: string := "Dataset loaded successfully."

  /** The success branch of both handlers: the dataset replaced and the
      flash set, nothing else changed. */
  method Load(st: StudioState, ds: DatasetState)
    modifies st
    ensures st.dataset == Some(ds) && st.flash == Some(SuccessFlash(LoadedText))
    ensures st.spec == old(st.spec) && st.hyperparams == old(st.hyperparams)
    ensures st.training == old(st.training) && st.epochHistory == old(st.epochHistory)
    ensures st.trainedNetwork == old(st.trainedNetwork)
  {
    st.dataset := Some(ds);
    st.flash := Some(SuccessFlash(LoadedText));
  }

  /** Where a handler ends: on an error the state is left alone, on
      success the load is done. */
  twostate predicate Ended(st: StudioState, new u: Outcome<DatasetState, DatasetError>, new err: Option<DatasetError>)
    reads st
  {
    && (err.Some? <==> u.Failure?) && (err.Some? ==> err.value == u.error)
    && (err.Some? ==> unchanged(st))
    && (err.None? ==> (st.dataset == Some(u.value) && st.flash == Some(SuccessFlash(LoadedText))
          && st.spec == old(st.spec) && st.hyperparams == old(st.hyperparams)
          && st.training == old(st.training) && st.epochHistory == old(st.epochHistory)
          && st.trainedNetwork == old(st.trainedNetwork)))
  }

  /** The CSV half of `handle_upload`. */
  method LoadCsv(st: StudioState, file: seq<Byte>, fields: seq<(string, string)>, parseF64: string -> Option<real>)
    returns (err: Option<DatasetError>)
    modifies st
    ensures Ended(st, FromCsv(old(st.spec), file, fields, parseF64), err)
  {
    var settings := UploadSettings(fields);
    var csv := ParseCsv(file, settings.1, parseF64);
    if csv.Failure? {
      return Some(BadCsv(csv.error));
    }
    CsvShape(file, settings.1, parseF64);
    var expected := ExpectedInputs(st.spec);
    if expected > 0 && |csv.value.0[0]| != expected {
      return Some(CsvMismatch(expected, |csv.value.0[0]|));
    }
    var ds := BuildDatasetState(csv.value.0, csv.value.1, settings.0, "CSV upload");
    Load(st, ds);
    err := None;
  }

  /** `handle_upload`: the request's content type and body are given. */
  method HandleUpload(st: StudioState, contentType: string, body: seq<Byte>, parseF64: string -> Option<real>)
    returns (err: Option<DatasetError>)
    modifies st
    ensures Ended(st, Upload(old(st.spec), contentType, body, parseF64), err)
  {
    var boundary := ExtractBoundary(contentType);
    if boundary.None? {
      return Some(InvalidMultipart);
    }
    if |body| > MaxCsvBytes {
      return Some(TooLarge);
    }
    var file := ExtractFile(body, boundary.value);
    if file.None? || |file.value| == 0 {
      return Some(NoCsvFile);
    }
    var fields := ExtractAllTextFields(body, boundary.value);
    err := LoadCsv(st, file.value, fields, parseF64);
  }

  /** The generator a built-in name selects; an unknown name gives XOR. */
  datatype Generator = Xor | Circles | Blobs | Mnist

  function GeneratorOf(name: string): (r: Generator)
    ensures r == Circles <==> name == "circles"
    ensures r == Blobs <==> name == "blobs"
    ensures r == Mnist <==> name == "mnist"
  {
    if name == "circles" then Circles
    else if name == "blobs" then Blobs
    else if name == "mnist" then Mnist
    else Xor
  }

  /** The split of a built-in load: 0 for "xor", whose four rows leave
      none to hold out, otherwise the form's `val_split` as for uploads. */
  function BuiltinSplit(pairs: seq<(string, string)>, name: string): (r: nat)
    ensures r <= 50
    ensures name == "xor" ==> r == 0
    ensures name != "xor" && FormGet(pairs, "val_split").None? ==> r == 20
  {
    if name == "xor" then 0
    else
      var v := FormGet(pairs, "val_split");
      var split := if v.None? then None else ParseU8(Trim(v.value));
      Min(if split.None? then 20 else split.value, 50)
  }

  /** The samples a generator other than MNIST gives: those of
      builtin_circles(200) and builtin_blobs(200) as passed in, the XOR
      table otherwise. */
  function BuiltinData(g: Generator, circles: (seq<seq<real>>, seq<seq<real>>),
                       blobs: (seq<seq<real>>, seq<seq<real>>)): (seq<seq<real>>, seq<seq<real>>)
  {
    if g == Circles then circles else if g == Blobs then blobs else BuiltinXor()
  }

  /** The name a built-in load reads from the form, "xor" when absent. */
  function BuiltinName(body: string): string
  {
    Architect.FieldOr(ParseForm(body), "builtin_name", "xor")
  }

  /** What POST /dataset/builtin loads, or why it refuses. The samples of
      builtin_circles(200) and builtin_blobs(200) are given, with the shape
      and labels `Generated` states. MNIST is refused; a generator whose rows do not have the
      saved architecture's input count is refused; otherwise its samples
      are loaded, split at the form's `val_split` (none for XOR). */
  function Builtin(spec: Option<NetworkSpec>, body: string,
                   circles: (seq<seq<real>>, seq<seq<real>>), blobs: (seq<seq<real>>, seq<seq<real>>))
    : (r: Outcome<DatasetState, DatasetError>)
    requires Generated(circles) && Generated(blobs)
    ensures r == Failure(MnistUnavailable) <==> FormGet(ParseForm(body), "builtin_name") == Some("mnist")
    ensures r.Failure? ==> r.error.MnistUnavailable? || r.error.BuiltinMismatch?
    ensures r.Failure? && r.error.BuiltinMismatch? <==>
      (GeneratorOf(BuiltinName(body)) != Mnist
       && Mismatch(ExpectedInputs(spec), BuiltinData(GeneratorOf(BuiltinName(body)), circles, blobs).0))
    ensures r.Success? ==> (var data := BuiltinData(GeneratorOf(BuiltinName(body)), circles, blobs);
      r.value.trainInputs + r.value.valInputs == data.0 && r.value.trainLabels + r.value.valLabels == data.1
      && r.value.valSplitPct == BuiltinSplit(ParseForm(body), BuiltinName(body))
      && |r.value.valInputs| == ValCount(|data.0|, r.value.valSplitPct)
      && |r.value.valInputs| <= |r.value.trainInputs|
      && (ExpectedInputs(spec) > 0 && |data.0| > 0 ==> r.value.featureCount == ExpectedInputs(spec)))
  {
    var name := BuiltinName(body);
    var g := GeneratorOf(name);
    if g == Mnist then Failure(MnistUnavailable)
    else
      var source := if g == Circles then "Circles (200)" else if g == Blobs then "Blobs (200)" else "XOR";
      LoadGenerated(spec, name, BuiltinData(g, circles, blobs), BuiltinSplit(ParseForm(body), name), source)
  }

  /** The load of a generator's samples: refused when the rows do not have
      the saved architecture's positive input count, otherwise the samples,
      split at the given percentage. */
  function LoadGenerated(spec: Option<NetworkSpec>, name: string, data: (seq<seq<real>>, seq<seq<real>>),
                         split: nat, source: string): (r: Outcome<DatasetState, DatasetError>)
    requires |data.0| == |data.1| && split <= 50
    ensures r.Failure? <==> Mismatch(ExpectedInputs(spec), data.0)
    ensures r.Failure? ==> r.error == BuiltinMismatch(ExpectedInputs(spec), name, |data.0[0]|)
    ensures r.Success? ==> (r.value.trainInputs + r.value.valInputs == data.0
      && r.value.trainLabels + r.value.valLabels == data.1
      && r.value.valSplitPct == split && r.value.sourceName == source
      && |r.value.valInputs| == ValCount(|data.0|, split)
      && |r.value.valInputs| <= |r.value.trainInputs|
      && (ExpectedInputs(spec) > 0 && |data.0| > 0 ==> r.value.featureCount == ExpectedInputs(spec)))
  {
    var expected := ExpectedInputs(spec);
    if Mismatch(expected, data.0) then Failure(BuiltinMismatch(expected, name, |data.0[0]|))
    else
      SplitBalance(data.0, data.1, split, source);
      Base.Success(BuildDatasetState(data.0, data.1, split, source))
  }

  /** Without a `builtin_name`, or with a name it does not know, the XOR
      table is loaded. Only the name "xor" itself holds none of it out: an
      unknown name reads `val_split` like any other generator, so that
      `val_split=50` holds out two of the four rows. */
  lemma {:induction false} BuiltinFallsBackToXor(spec: Option<NetworkSpec>, body: string,
                                                 circles: (seq<seq<real>>, seq<seq<real>>),
                                                 blobs: (seq<seq<real>>, seq<seq<real>>))
    requires Generated(circles) && Generated(blobs)
    requires GeneratorOf(Architect.FieldOr(ParseForm(body), "builtin_name", "xor")) == Xor
    requires ExpectedInputs(spec) == 0 || ExpectedInputs(spec) == 2
    ensures var r := Builtin(spec, body, circles, blobs);
      r.Success? && r.value.trainInputs + r.value.valInputs == BuiltinXor().0
      && r.value.trainLabels + r.value.valLabels == BuiltinXor().1
      && |r.value.valInputs| == ValCount(4, BuiltinSplit(ParseForm(body), BuiltinName(body)))
      && (BuiltinName(body) == "xor" ==> |r.value.valInputs| == 0)
  {
    var name := Architect.FieldOr(ParseForm(body), "builtin_name", "xor");
    var x := BuiltinXor();
    assert |x.0[0]| == 2;
  }

  /** The circles and blobs samples have two features each, so under an
      architecture of two inputs, or with none saved, either loads whole:
      its 200 samples with the alternating class labels, split at the
      form's `val_split`. */
  lemma {:induction false} GeneratedLoads(spec: Option<NetworkSpec>, body: string,
                                          circles: (seq<seq<real>>, seq<seq<real>>),
                                          blobs: (seq<seq<real>>, seq<seq<real>>))
    requires Generated(circles) && Generated(blobs)
    requires GeneratorOf(BuiltinName(body)) == Circles || GeneratorOf(BuiltinName(body)) == Blobs
    requires ExpectedInputs(spec) == 0 || ExpectedInputs(spec) == 2
    ensures var r := Builtin(spec, body, circles, blobs);
      r.Success? && |r.value.trainInputs| + |r.value.valInputs| == 200
      && r.value.trainLabels + r.value.valLabels == Alternating(200)
      && |r.value.valInputs| == ValCount(200, BuiltinSplit(ParseForm(body), BuiltinName(body)))
  {
    var data := BuiltinData(GeneratorOf(BuiltinName(body)), circles, blobs);
    assert |data.0[0]| == 2;
    var r := Builtin(spec, body, circles, blobs);
    assert |r.value.trainInputs + r.value.valInputs| == 200;
  }

  /** `handle_builtin`: on an error the state is left alone; otherwise the
      dataset is replaced and the flash set, nothing else changed. */
  method HandleBuiltin(st: StudioState, body: string,
                       circles: (seq<seq<real>>, seq<seq<real>>), blobs: (seq<seq<real>>, seq<seq<real>>))
    returns (err: Option<DatasetError>)
    requires Generated(circles) && Generated(blobs)
    modifies st
    ensures Ended(st, Builtin(old(st.spec), body, circles, blobs), err)
  {
    var pairs := ParseForm(body);
    var name := Architect.FieldOr(pairs, "builtin_name", "xor");
    var split := BuiltinSplit(pairs, name);
    var g := GeneratorOf(name);
    var data;
    var source;
    match g {
      case Circles =>
        data := circles;
        source := "Circles (200)";
      case Blobs =>
        data := blobs;
        source := "Blobs (200)";
      case Mnist =>
        return Some(MnistUnavailable);
      case Xor =>
        data := BuiltinXor();
        source := "XOR";
    }
    var expected := ExpectedInputs(st.spec);
    if expected > 0 && |data.0| > 0 && |data.0[0]| != expected {
      return Some(BuiltinMismatch(expected, name, |data.0[0]|));
    }
    var ds := BuildDatasetState(data.0, data.1, split, source);
    Load(st, ds);
    err := None;
  }
}
