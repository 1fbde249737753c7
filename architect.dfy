/** studio/handlers/architect.rs: the architecture form, its validation, the
    chaining of layer sizes, and the names and escaping the pages use. */
module Architect {
  import opened Base
  import opened Text
  import opened Form
  import opened Activation
  import opened TrainLoop
  import opened State

  /** `parse_activation`: the three names it knows, and Sigmoid for any
      other text. */
  function ParseActivation(s: string): (r: ActivationFunction)
    ensures r == ReLU <==> s == "relu"
    ensures r == Softmax <==> s == "softmax"
    ensures r == Identity <==> s == "identity"
    ensures r == Sigmoid <==> s != "relu" && s != "softmax" && s != "identity"
  {
    if s == "relu" then ReLU
    else if s == "softmax" then Softmax
    else if s == "identity" then Identity
    else Sigmoid
  }

  /** `activation_to_str`. */
  function ActivationToStr(a: ActivationFunction): string
  {
    match a
    case ReLU => "relu"
    case Softmax => "softmax"
    case Identity => "identity"
    case Sigmoid => "sigmoid"
  }

  /** Reading back the name of a variant gives the variant, so the names are
      distinct. */
  lemma {:induction false} ParseActivationToStr(a: ActivationFunction)
    ensures ParseActivation(ActivationToStr(a)) == a
  {
  }

  lemma {:induction false} ActivationToStrInjective(a: ActivationFunction, b: ActivationFunction)
    requires ActivationToStr(a) == ActivationToStr(b)
    ensures a == b
  {
    ParseActivationToStr(a);
    ParseActivationToStr(b);
  }

  // ---------------------------------------------------------------------
  // html_escape

  const Amp: string := "&amp;"
  const Lt: string := "&lt;"
  const Gt: string := "&gt;"
  const Quot: string := "&quot;"

  /** `html_escape`: four passes of `replace`, `&` first so that the other
      entities are not escaped again. */
  function HtmlEscape(s: string): (r: string)
    ensures r == EscapeEach(s)
    ensures '<' !in r && '>' !in r && '"' !in r
  {
    var r := Replace(Replace(Replace(Replace(s, "&", Amp), "<", Lt), ">", Gt), "\"", Quot);
    HtmlEscapeEach(s);
    EscapeEachClean(s);
    r
  }

  /** The entity of one character, or the character itself. */
  function EscapeChar(c: char): (r: string)
    ensures '<' !in r && '>' !in r && '"' !in r
  {
    if c == '&' then Amp else if c == '<' then Lt else if c == '>' then Gt else if c == '"' then Quot else [c]
  }

  /** The escape of each character in turn. */
  function EscapeEach(s: string): string
    decreases |s|
  {
    if |s| == 0 then [] else EscapeChar(s[0]) + EscapeEach(s[1..])
  }

  lemma {:induction false} EscapeEachClean(s: string)
    ensures '<' !in EscapeEach(s) && '>' !in EscapeEach(s) && '"' !in EscapeEach(s)
    decreases |s|
  {
    if |s| > 0 {
      EscapeEachClean(s[1..]);
    }
  }

  /** The four passes, as element substitutions. */
  function Passes(s: string): string
  {
    Subst(Subst(Subst(Subst(s, '&', Amp), '<', Lt), '>', Gt), '"', Quot)
  }

  lemma {:induction false} PassesAppend(a: string, b: string)
    ensures Passes(a + b) == Passes(a) + Passes(b)
  {
    SubstAppend(a, b, '&', Amp);
    var a1, b1 := Subst(a, '&', Amp), Subst(b, '&', Amp);
    SubstAppend(a1, b1, '<', Lt);
    var a2, b2 := Subst(a1, '<', Lt), Subst(b1, '<', Lt);
    SubstAppend(a2, b2, '>', Gt);
    var a3, b3 := Subst(a2, '>', Gt), Subst(b2, '>', Gt);
    SubstAppend(a3, b3, '"', Quot);
  }

  /** The passes on one character give its entity: an entity made by an
      earlier pass holds none of the later passes' characters. */
  lemma {:induction false} PassesChar(c: char)
    ensures Passes([c]) == EscapeChar(c)
  {
    SubstOne(c, '&', Amp);
    if c == '&' {
      SubstAbsent(Amp, '<', Lt);
      SubstAbsent(Amp, '>', Gt);
      SubstAbsent(Amp, '"', Quot);
    } else {
      SubstOne(c, '<', Lt);
      if c == '<' {
        SubstAbsent(Lt, '>', Gt);
        SubstAbsent(Lt, '"', Quot);
      } else {
        SubstOne(c, '>', Gt);
        if c == '>' {
          SubstAbsent(Gt, '"', Quot);
        } else {
          SubstOne(c, '"', Quot);
        }
      }
    }
  }

  lemma {:induction false} PassesEach(s: string)
    ensures Passes(s) == EscapeEach(s)
    decreases |s|
  {
    if |s| > 0 {
      assert s == [s[0]] + s[1..];
      PassesAppend([s[0]], s[1..]);
      PassesChar(s[0]);
      PassesEach(s[1..]);
    }
  }

  lemma {:induction false} HtmlEscapeEach(s: string)
    ensures Replace(Replace(Replace(Replace(s, "&", Amp), "<", Lt), ">", Gt), "\"", Quot) == EscapeEach(s)
  {
    ReplaceIsSubst(s, '&', Amp);
    var s1 := Subst(s, '&', Amp);
    ReplaceIsSubst(s1, '<', Lt);
    var s2 := Subst(s1, '<', Lt);
    ReplaceIsSubst(s2, '>', Gt);
    var s3 := Subst(s2, '>', Gt);
    ReplaceIsSubst(s3, '"', Quot);
    PassesEach(s);
  }

  /** What a browser makes of the escaped text: each of the four entities
      read back as its character. */
  function Unescape(s: string): string
    decreases |s|
  {
    if |s| == 0 then []
    else if StartsWith(s, Amp) then ['&'] + Unescape(s[|Amp|..])
    else if StartsWith(s, Lt) then ['<'] + Unescape(s[|Lt|..])
    else if StartsWith(s, Gt) then ['>'] + Unescape(s[|Gt|..])
    else if StartsWith(s, Quot) then ['"'] + Unescape(s[|Quot|..])
    else [s[0]] + Unescape(s[1..])
  }

  /** An escaped character and anything after it read back as the
      character, then the rest read back. */
  lemma {:induction false} UnescapeChar(c: char, rest: string)
    ensures Unescape(EscapeChar(c) + rest) == [c] + Unescape(rest)
  {
    var e := EscapeChar(c);
    var s := e + rest;
    assert s[..|e|] == e && s[|e|..] == rest;
    if c == '&' {
      assert StartsWith(s, Amp);
    } else if c == '<' {
      UnescapeLt(s, rest);
    } else if c == '>' {
      UnescapeGt(s, rest);
    } else if c == '"' {
      UnescapeQuot(s, rest);
    } else {
      UnescapePlain(s, c);
    }
  }

  lemma {:induction false} UnescapeLt(s: string, rest: string)
    requires s == Lt + rest
    ensures Unescape(s) == ['<'] + Unescape(rest)
  {
    assert s[..|Lt|] == Lt && s[|Lt|..] == rest;
    assert s[1] == 'l';
    assert !StartsWith(s, Amp) by { if |Amp| <= |s| { assert s[..|Amp|][1] == s[1]; } }
  }

  lemma {:induction false} UnescapeGt(s: string, rest: string)
    requires s == Gt + rest
    ensures Unescape(s) == ['>'] + Unescape(rest)
  {
    assert s[..|Gt|] == Gt && s[|Gt|..] == rest;
    assert s[1] == 'g';
    assert !StartsWith(s, Amp) by { if |Amp| <= |s| { assert s[..|Amp|][1] == s[1]; } }
    assert !StartsWith(s, Lt) by { assert s[..|Lt|][1] == s[1]; }
  }

  lemma {:induction false} UnescapeQuot(s: string, rest: string)
    requires s == Quot + rest
    ensures Unescape(s) == ['"'] + Unescape(rest)
  {
    assert s[..|Quot|] == Quot && s[|Quot|..] == rest;
    assert s[1] == 'q';
    assert !StartsWith(s, Amp) by { assert s[..|Amp|][1] == s[1]; }
    assert !StartsWith(s, Lt) by { assert s[..|Lt|][1] == s[1]; }
    assert !StartsWith(s, Gt) by { assert s[..|Gt|][1] == s[1]; }
  }

  lemma {:induction false} UnescapePlain(s: string, c: char)
    requires |s| > 0 && s[0] == c && c != '&'
    ensures Unescape(s) == [c] + Unescape(s[1..])
  {
    assert !StartsWith(s, Amp) by { if |Amp| <= |s| { assert s[..|Amp|][0] == s[0]; } }
    assert !StartsWith(s, Lt) by { if |Lt| <= |s| { assert s[..|Lt|][0] == s[0]; } }
    assert !StartsWith(s, Gt) by { if |Gt| <= |s| { assert s[..|Gt|][0] == s[0]; } }
    assert !StartsWith(s, Quot) by { if |Quot| <= |s| { assert s[..|Quot|][0] == s[0]; } }
  }

  /** Reading back the escaped text gives the original. */
  lemma {:induction false} UnescapeEscape(s: string)
    ensures Unescape(HtmlEscape(s)) == s
    ensures Unescape(EscapeEach(s)) == s
    decreases |s|
  {
    if |s| > 0 {
      UnescapeEscape(s[1..]);
      UnescapeChar(s[0], EscapeEach(s[1..]));
      assert s == [s[0]] + s[1..];
    }
  }

  /** Escaping twice is not escaping once: `&` becomes `&amp;`, which becomes
      `&amp;amp;`. */
  lemma HtmlEscapeNotIdempotent()
    ensures HtmlEscape("&") == Amp
    ensures HtmlEscape(HtmlEscape("&")) != HtmlEscape("&")
  {
    assert EscapeEach("&") == Amp + EscapeEach([]);
    var t := EscapeEach(Amp);
    assert Amp == ['&'] + Amp[1..];
    assert t == Amp + EscapeEach(Amp[1..]);
    assert |t| > |Amp|;
  }

  // ---------------------------------------------------------------------
  // POST /architect/save

  /** A field of the form, or the default the handler uses when it is
      missing. */
  function FieldOr(pairs: seq<(string, string)>, key: string, default: string): string
  {
    match FormGet(pairs, key)
    case None => default
    case Some(v) => v
  }

  /** One entry of the `layers_json` field, as the JSON reader gives it. */
  datatype RawLayer = RawLayer(neurons: nat, activation: string)

  /** The reasons the form is turned down, in the order they are checked. */
  datatype ArchError =
    | EmptyName | BadInputSize | BadLearningRate | BadBatchSize | BadEpochs
    | BadLayers | NoLayers | ZeroNeurons | SoftmaxNeedsCrossEntropy | CrossEntropyNeedsSoftmax

  /** The text of the error shown on the architecture page. */
  function Message(e: ArchError): string
  {
    match e
    case EmptyName => "Model name must not be empty."
    case BadInputSize => "Input size must be a positive integer."
    case BadLearningRate => "Learning rate must be a positive number."
    case BadBatchSize => "Batch size must be a positive integer."
    case BadEpochs => "Epochs must be a positive integer."
    case BadLayers => "Could not parse layer definitions."
    case NoLayers => "Add at least one layer."
    case ZeroNeurons => "Each layer must have at least 1 neuron."
    case SoftmaxNeedsCrossEntropy => "Softmax output requires Cross-Entropy loss. Please change the loss function."
    case CrossEntropyNeedsSoftmax => "Cross-Entropy loss requires a Softmax output layer."
  }

  /** The values of a form that passed every check. */
  datatype ArchForm = ArchForm(name: string, description: string, inputSize: nat, learningRate: real,
                               batchSize: nat, epochs: nat, layers: seq<RawLayer>, loss: LossType)

  /** `loss_type`: cross-entropy when asked for by its exact name, MSE
      otherwise. */
  function LossOf(s: string): (r: LossType)
    ensures r == CrossEntropy <==> s == "cross_entropy"
    ensures r != CrossEntropy ==> r == Mse
  {
    if s == "cross_entropy" then CrossEntropy else Mse
  }

  /** The activation the last raw layer asks for. */
  function LastActivation(layers: seq<RawLayer>): ActivationFunction
    requires |layers| > 0
  {
    ParseActivation(layers[|layers| - 1].activation)
  }

  /** What an accepted form satisfies: a name, positive sizes and rate, at
      least one layer, no empty layer, and a Softmax output exactly with the
      cross-entropy loss. */
  predicate FormOk(f: ArchForm)
  {
    f.name != "" && f.inputSize > 0 && f.learningRate > 0.0 && f.batchSize > 0 && f.epochs > 0
    && |f.layers| > 0 && (forall i :: 0 <= i < |f.layers| ==> f.layers[i].neurons > 0)
    && (LastActivation(f.layers) == Softmax <==> f.loss == CrossEntropy)
  }

  /** The form's fields as `handle_post` reads them, each with its default
      when missing: name and description trimmed, the numbers trimmed and
      parsed (None where they do not parse), the layers parsed from their
      JSON text, and the loss chosen by name. */
  datatype RawForm = RawForm(name: string, description: string, inputSize: Option<nat>,
                             learningRate: Option<real>, batchSize: Option<nat>, epochs: Option<nat>,
                             layers: Option<seq<RawLayer>>, loss: LossType)

  /** The reading of the fields, with the handler's defaults. */
  function ReadForm(pairs: seq<(string, string)>, parseF64: string -> Option<real>,
                    parseLayers: string -> Option<seq<RawLayer>>): (r: RawForm)
    ensures r.name == Trim(FieldOr(pairs, "name", ""))
    ensures r.inputSize == ParseUsize(Trim(FieldOr(pairs, "input_size", "1")))
    ensures r.loss == CrossEntropy <==> FieldOr(pairs, "loss_type", "mse") == "cross_entropy"
  {
    RawForm(Trim(FieldOr(pairs, "name", "")), Trim(FieldOr(pairs, "description", "")),
            ParseUsize(Trim(FieldOr(pairs, "input_size", "1"))),
            parseF64(Trim(FieldOr(pairs, "learning_rate", "0.01"))),
            ParseUsize(Trim(FieldOr(pairs, "batch_size", "32"))),
            ParseUsize(Trim(FieldOr(pairs, "epochs", "50"))),
            parseLayers(FieldOr(pairs, "layers_json", "[]")),
            LossOf(FieldOr(pairs, "loss_type", "mse")))
  }

  /** The fields all read, and their values satisfy FormOk. */
  predicate Accepted(raw: RawForm)
  {
    raw.inputSize.Some? && raw.learningRate.Some? && raw.batchSize.Some? && raw.epochs.Some?
    && raw.layers.Some?
    && FormOk(ArchForm(raw.name, raw.description, raw.inputSize.value, raw.learningRate.value,
                       raw.batchSize.value, raw.epochs.value, raw.layers.value, raw.loss))
  }

  /** The checks of `handle_post`, one after the other, each with its own
      error: the form is accepted exactly when Accepted holds, with the
      values read, and the first two checks fail exactly on their cases. */
  function Validate(raw: RawForm): (r: Base.Outcome<ArchForm, ArchError>)
    ensures r.Success? <==> Accepted(raw)
    ensures r.Success? ==> FormOk(r.value)
    ensures r.Success? ==> (r.value.name == raw.name && r.value.description == raw.description
      && Some(r.value.inputSize) == raw.inputSize && Some(r.value.learningRate) == raw.learningRate
      && Some(r.value.batchSize) == raw.batchSize && Some(r.value.epochs) == raw.epochs
      && Some(r.value.layers) == raw.layers && r.value.loss == raw.loss)
    ensures (r == Failure(EmptyName)) <==> raw.name == ""
    ensures (r == Failure(BadInputSize)) <==> (raw.name != "" && (raw.inputSize.None? || raw.inputSize == Some(0)))
    ensures r.Failure? && r.error in {SoftmaxNeedsCrossEntropy, CrossEntropyNeedsSoftmax} ==>
      (raw.layers.Some? && |raw.layers.value| > 0
       && (LastActivation(raw.layers.value) == Softmax <==> raw.loss != CrossEntropy))
  {
    if raw.name == "" then Failure(EmptyName)
    else if raw.inputSize.None? || raw.inputSize.value == 0 then Failure(BadInputSize)
    else if raw.learningRate.None? || raw.learningRate.value <= 0.0 then Failure(BadLearningRate)
    else if raw.batchSize.None? || raw.batchSize.value == 0 then Failure(BadBatchSize)
    else if raw.epochs.None? || raw.epochs.value == 0 then Failure(BadEpochs)
    else if raw.layers.None? then Failure(BadLayers)
    else if |raw.layers.value| == 0 then Failure(NoLayers)
    else if exists i :: 0 <= i < |raw.layers.value| && raw.layers.value[i].neurons == 0 then Failure(ZeroNeurons)
    else if LastActivation(raw.layers.value) == Softmax && raw.loss != CrossEntropy then Failure(SoftmaxNeedsCrossEntropy)
    else if LastActivation(raw.layers.value) != Softmax && raw.loss == CrossEntropy then Failure(CrossEntropyNeedsSoftmax)
    else Base.Success(ArchForm(raw.name, raw.description, raw.inputSize.value, raw.learningRate.value,
                               raw.batchSize.value, raw.epochs.value, raw.layers.value, raw.loss))
  }

  /** The form of a request body, read and checked. */
  function CheckForm(pairs: seq<(string, string)>, parseF64: string -> Option<real>,
                     parseLayers: string -> Option<seq<RawLayer>>): Base.Outcome<ArchForm, ArchError>
  {
    Validate(ReadForm(pairs, parseF64, parseLayers))
  }

  /** Each layer's inputs are the previous layer's neurons; the first
      layer's are the network's inputs. */
  predicate Chained(specs: seq<LayerSpec>, inputSize: nat)
  {
    (|specs| > 0 ==> specs[0].inputSize == inputSize)
    && forall i :: 0 < i < |specs| ==> specs[i].inputSize == specs[i - 1].size
  }

  /** The layer loop of `handle_post`, carrying the previous size. */
  method BuildLayerSpecs(inputSize: nat, raw: seq<RawLayer>) returns (specs: seq<LayerSpec>)
    ensures |specs| == |raw| && Chained(specs, inputSize)
    ensures forall i :: 0 <= i < |raw| ==>
      specs[i].size == raw[i].neurons && specs[i].activation == ParseActivation(raw[i].activation)
  {
    specs := [];
    var prevSize := inputSize;
    for i := 0 to |raw|
      invariant |specs| == i && Chained(specs, inputSize)
      invariant prevSize == if i == 0 then inputSize else specs[i - 1].size
      invariant forall k :: 0 <= k < i ==>
        specs[k].size == raw[k].neurons && specs[k].activation == ParseActivation(raw[k].activation)
    {
      var activation := ParseActivation(raw[i].activation);
      specs := specs + [LayerSpec(raw[i].neurons, prevSize, activation)];
      prevSize := raw[i].neurons;
    }
  }

  /** The flash shown after a save. */
  function SavedText(name: string): string
  {
    "Architecture '" + name + "' saved successfully."
  }

  /** The state after a form f was saved: the spec built from it with the
      layers chained, its hyperparameters, and the dataset, the history,
      the trained network and the training status of the previous
      architecture cleared. */
  predicate SavedAs(st: StudioState, f: ArchForm)
    reads st
  {
    && st.spec.Some? && st.spec.value.name == f.name && st.spec.value.loss == f.loss
    && |st.spec.value.layers| == |f.layers| && Chained(st.spec.value.layers, f.inputSize)
    && (forall i :: 0 <= i < |f.layers| ==>
          (st.spec.value.layers[i].size == f.layers[i].neurons
           && st.spec.value.layers[i].activation == ParseActivation(f.layers[i].activation)))
    && (st.spec.value.metadata.Some? <==> f.description != "")
    && (st.spec.value.metadata.Some? ==> st.spec.value.metadata.value == ModelMetadata(Some(f.description), None, None))
    && st.hyperparams == Some(Hyperparams(f.learningRate, f.batchSize, f.epochs))
    && st.dataset.None? && st.epochHistory == [] && st.trainedNetwork.None? && st.training == Idle
    && st.flash == Some(SuccessFlash(SavedText(f.name)))
  }

  /** The success branch of `handle_post`. */
  method Save(st: StudioState, f: ArchForm)
    requires FormOk(f)
    modifies st
    ensures SavedAs(st, f)
    ensures var layers := st.spec.value.layers;
      |layers| > 0 && (layers[|layers| - 1].activation == Softmax <==> st.spec.value.loss == CrossEntropy)
  {
    var layerSpecs := BuildLayerSpecs(f.inputSize, f.layers);
    var metadata := if f.description != "" then Some(ModelMetadata(Some(f.description), None, None)) else None;
    st.spec := Some(NetworkSpec(f.name, layerSpecs, f.loss, metadata));
    st.hyperparams := Some(Hyperparams(f.learningRate, f.batchSize, f.epochs));
    st.dataset := None;
    st.epochHistory := [];
    st.trainedNetwork := None;
    st.training := Idle;
    st.flash := Some(SuccessFlash(SavedText(f.name)));
  }

  /** `handle_post` on the form body: on an error the state is left alone
      and the page shows the error; on success the form is saved. */
  method HandlePost(st: StudioState, body: string, parseF64: string -> Option<real>,
                    parseLayers: string -> Option<seq<RawLayer>>) returns (err: Option<ArchError>)
    modifies st
    ensures var c := CheckForm(ParseForm(body), parseF64, parseLayers);
      && (err.Some? <==> c.Failure?) && (err.Some? ==> err.value == c.error)
      && (err.None? ==> SavedAs(st, c.value))
    ensures err.Some? ==> unchanged(st)
    ensures err.None? ==> var layers := st.spec.value.layers;
      |layers| > 0 && (layers[|layers| - 1].activation == Softmax <==> st.spec.value.loss == CrossEntropy)
  {
    var pairs := ParseForm(body);
    var c := CheckForm(pairs, parseF64, parseLayers);
    if c.Failure? {
      return Some(c.error);
    }
    Save(st, c.value);
    err := None;
  }
}
