/** examples/gui.rs: the stand-alone inference page. Its form decoding is
    the studio's (the Form module), its input parsing and the choice of how
    to show an output are the test page's; what differs is listed here:
    the model selector, which does not escape names, the length check,
    which compares with the first layer's input size, and the page, which
    is a template with three placeholders. Loading the model file is
    outside the model: the loaded layers are given. */
module Gui {
  import opened Base
  import opened Text
  import opened Dense
  import opened Networks
  import opened Activation
  import TestHandler

  // ---------------------------------------------------------------------
  // The model selector

  const NoModelsOption: string := "<option disabled>No models found in examples/trained_models/</option>"
  const OptionSeparator: string := "\n        "

  /** One `<option>`: the name goes into the value and the text as it is. */
  function OptionLine(name: string, sel: bool): string
  {
    TestHandler.OptionOpen + name + "\"" + TestHandler.SelectedAttr(sel) + ">  " + name + "</option>"
  }

  /** The options of a non-empty model list, one per model in order. */
  function OptionLines(models: seq<string>, selected: string): (r: seq<string>)
    ensures |r| == |models|
    ensures forall k :: 0 <= k < |models| ==> r[k] == OptionLine(models[k], models[k] == selected)
  {
    seq(|models|, k requires 0 <= k < |models| => OptionLine(models[k], models[k] == selected))
  }

  /** `build_model_options`: a single disabled option without models,
      otherwise the options joined by a line break and indentation. */
  function BuildModelOptions(models: seq<string>, selected: string): string
  {
    if |models| == 0 then NoModelsOption else Join(OptionLines(models, selected), OptionSeparator)
  }

  /** For a name without `>` the option's opening tag ends with
      ` selected` exactly when the option is the selected one. */
  lemma {:induction false} OptionLineSelected(name: string, sel: bool)
    requires '>' !in name
    ensures EndsWith(TestHandler.OpeningTag(OptionLine(name, sel)), TestHandler.Selected) <==> sel
    ensures StartsWith(TestHandler.OpeningTag(OptionLine(name, sel)), TestHandler.OptionOpen)
  {
    var head := TestHandler.OptionOpen + name + "\"" + TestHandler.SelectedAttr(sel);
    assert OptionLine(name, sel) == head + ">" + ("  " + name + "</option>");
    assert '>' !in head by {
      assert '>' !in TestHandler.OptionOpen && '>' !in TestHandler.SelectedAttr(sel);
    }
    TestHandler.OpeningTagOf(head, "  " + name + "</option>");
    assert head[..|TestHandler.OptionOpen|] == TestHandler.OptionOpen;
    if !sel {
      assert head[|head| - 1] == '"' && TestHandler.Selected[|TestHandler.Selected| - 1] == 'd';
    }
  }

  /** The selector lists the models in order, the k-th option marked
      selected exactly when the k-th name is the selected one, provided the
      name holds no `>`. */
  lemma {:induction false} ModelOptionsMarked(models: seq<string>, selected: string, k: nat)
    requires k < |models| && '>' !in models[k]
    ensures BuildModelOptions(models, selected) == Join(OptionLines(models, selected), OptionSeparator)
    ensures EndsWith(TestHandler.OpeningTag(OptionLines(models, selected)[k]), TestHandler.Selected)
      <==> models[k] == selected
    ensures BuildModelOptions([], selected) == NoModelsOption
  {
    OptionLineSelected(models[k], models[k] == selected);
  }

  /** Unescaped, a `>` in a model's name ends the opening tag early: the
      selected option `x>` is not marked selected there, where the test
      page, which escapes, marks it. */
  lemma UnescapedNameHidesMark()
    ensures !EndsWith(TestHandler.OpeningTag(OptionLine("x>", true)), TestHandler.Selected)
    ensures EndsWith(TestHandler.OpeningTag(TestHandler.OptionLine("x>", true)), TestHandler.Selected)
  {
    var head := TestHandler.OptionOpen + "x";
    assert OptionLine("x>", true) == head + ">" + ("\"" + TestHandler.Selected + ">  x></option>");
    TestHandler.OpeningTagOf(head, "\"" + TestHandler.Selected + ">  x></option>");
    assert head[|head| - 1] == 'x';
    TestHandler.OptionLineSelected("x>", true);
  }

  // ---------------------------------------------------------------------
  // Inference

  /** `run_inference` once the model is loaded: an error without layers;
      an error when the number of parsed values differs from the first
      layer's weight rows; otherwise the forward pass and the view its
      output is shown in, chosen by the last layer's activation. A pass
      that fails is the panic of the source. */
  function RunInference(ls: seq<LayerState>, raw: string, parseF64: string -> Option<real>, exp: PowE)
    : (r: TestHandler.Inference)
    requires AllWellShaped(ls)
    ensures r == TestHandler.NoLayers <==> |ls| == 0
    ensures r.LengthMismatch? <==> |ls| > 0 && |TestHandler.ParseInputs(raw, parseF64)| != ls[0].weights.rows
    ensures r.LengthMismatch? ==> r.expected == ls[0].weights.rows && r.got == |TestHandler.ParseInputs(raw, parseF64)|
  {
    if |ls| == 0 then TestHandler.NoLayers
    else
      var inputs := TestHandler.ParseInputs(raw, parseF64);
      var expected := ls[0].weights.rows;
      if |inputs| != expected then TestHandler.LengthMismatch(expected, |inputs|)
      else
        match Propagate(ls, inputs, exp)
        case Err(e) => TestHandler.ForwardFailed(e)
        case Ok((_, output)) => TestHandler.Shown(TestHandler.FormatOutput(output, ls[|ls| - 1].activator))
  }

  /** The page's inference and the test page's agree on every count both
      length checks let through: the page checks it against the first
      layer's input size, the check the test page intends, the test page
      against the layer's width. On a first layer with as many inputs as
      neurons they agree on every input. */
  lemma {:induction false} RunInferenceAgrees(ls: seq<LayerState>, raw: string, parseF64: string -> Option<real>, exp: PowE)
    requires AllWellShaped(ls)
    ensures |ls| == 0 || (TestHandler.LengthOk(ls[0], |TestHandler.ParseInputs(raw, parseF64)|)
      && TestHandler.LengthOkAsWritten(ls[0], |TestHandler.ParseInputs(raw, parseF64)|))
      ==> RunInference(ls, raw, parseF64, exp) == TestHandler.RunNumeric(ls, raw, parseF64, exp)
    ensures |ls| == 0 || ls[0].weights.rows == ls[0].weights.cols
      ==> RunInference(ls, raw, parseF64, exp) == TestHandler.RunNumeric(ls, raw, parseF64, exp)
  {
    if |ls| > 0 {
      var n := |TestHandler.ParseInputs(raw, parseF64)|;
      assert TestHandler.LengthOk(ls[0], n) <==> n == ls[0].weights.rows;
      assert TestHandler.LengthOkAsWritten(ls[0], n) <==> n == ls[0].weights.cols;
    }
  }

  /** Where the two checks disagree the results differ: an input the first
      layer takes but of the wrong count for its width is run here and
      refused by the test page. */
  lemma {:induction false} RunInferenceAcceptsRefused(ls: seq<LayerState>, raw: string, parseF64: string -> Option<real>, exp: PowE)
    requires AllWellShaped(ls) && |ls| > 0
    requires TestHandler.LengthOk(ls[0], |TestHandler.ParseInputs(raw, parseF64)|)
    requires !TestHandler.LengthOkAsWritten(ls[0], |TestHandler.ParseInputs(raw, parseF64)|)
    ensures !RunInference(ls, raw, parseF64, exp).LengthMismatch?
    ensures TestHandler.RunNumeric(ls, raw, parseF64, exp)
      == TestHandler.LengthMismatch(ls[0].weights.cols, |TestHandler.ParseInputs(raw, parseF64)|)
  {
    assert |TestHandler.ParseInputs(raw, parseF64)| == ls[0].weights.rows;
  }

  // ---------------------------------------------------------------------
  // The page

  const ModelOptionsKey: string := "{{MODEL_OPTIONS}}"
  const ResultKey: string := "{{RESULT_SECTION}}"
  const InputKey: string := "{{INPUT_VALUES}}"

  /** `render_page`: the template with each placeholder replaced, in the
      order model options, result, inputs. */
  function RenderPage(template: string, options: string, result: string, inputs: string): string
  {
    Replace(Replace(Replace(template, ModelOptionsKey, options), ResultKey, result), InputKey, inputs)
  }

  /** A placeholder: two opening braces and then no brace. */
  predicate KeyShaped(k: string)
  {
    |k| >= 3 && k[0] == '{' && k[1] == '{' && forall j :: 2 <= j < |k| ==> k[j] != '{'
  }

  lemma KeysShaped()
    ensures KeyShaped(ModelOptionsKey) && KeyShaped(ResultKey) && KeyShaped(InputKey)
    ensures ModelOptionsKey[2] != ResultKey[2] && ModelOptionsKey[2] != InputKey[2] && ResultKey[2] != InputKey[2]
  {
  }

  /** p does not occur at i when one of its elements differs. */
  lemma {:induction false} MismatchAt<T>(s: seq<T>, p: seq<T>, i: nat, d: nat)
    requires d < |p| && (i + |p| <= |s| ==> s[i + d] != p[d])
    ensures !OccursAt(s, p, i)
  {
    if i + |p| <= |s| {
      assert s[i..i + |p|][d] == s[i + d];
    }
  }

  /** A text without braces holds no placeholder. */
  lemma {:induction false} BraceFreeNoKey(v: string, k: string)
    requires '{' !in v && KeyShaped(k)
    ensures !Contains(v, k)
  {
    forall i: nat ensures !OccursAt(v, k, i) {
      if i + |k| <= |v| {
        assert v[i] != '{';
      }
      MismatchAt(v, k, i, 0);
    }
  }

  /** A placeholder k2 between a brace-free text and a text without the
      placeholder k does not make k appear when the two differ in their
      third character. */
  lemma {:induction false} NoKeyAround(u: string, k2: string, v: string, k: string)
    requires '{' !in u && KeyShaped(k2) && KeyShaped(k) && k2[2] != k[2] && !Contains(v, k)
    ensures !Contains(u + k2 + v, k)
  {
    var s := u + k2 + v;
    var n := |u| + |k2|;
    assert s[n..] == v;
    forall i: nat ensures !OccursAt(s, k, i) {
      if i < |u| {
        assert s[i] == u[i];
        MismatchAt(s, k, i, 0);
      } else if i == |u| {
        assert s[i + 2] == k2[2];
        MismatchAt(s, k, i, 2);
      } else if i == |u| + 1 {
        assert s[i + 1] == k2[2];
        MismatchAt(s, k, i, 1);
      } else if i < n {
        assert s[i] == k2[i - |u|];
        MismatchAt(s, k, i, 0);
      } else {
        OccursAtShift(s, k, n, i - n);
        assert !OccursAt(v, k, i - n);
      }
    }
  }

  /** The first of three placeholders replaced. */
  lemma {:induction false} FillFirst(a: string, b: string, c: string, d: string,
                                     k1: string, k2: string, k3: string, x: string)
    requires '{' !in a && '{' !in b && '{' !in c && '{' !in d
    requires KeyShaped(k1) && KeyShaped(k2) && KeyShaped(k3) && k1[2] != k2[2] && k1[2] != k3[2]
    ensures Replace(a + k1 + b + k2 + c + k3 + d, k1, x) == (a + x + b) + k2 + (c + k3 + d)
  {
    var tail3 := c + k3 + d;
    var tail2 := b + k2 + tail3;
    BraceFreeNoKey(d, k1);
    NoKeyAround(c, k3, d, k1);
    NoKeyAround(b, k2, tail3, k1);
    assert a + k1 + b + k2 + c + k3 + d == a + k1 + tail2 by {
      ConcatAssoc(a + k1, b, k2, c, k3, d);
    }
    ReplaceOne(a, k1, tail2, x);
    assert a + x + tail2 == (a + x + b) + k2 + tail3;
  }

  /** Regrouping a concatenation of six texts. */
  lemma {:induction false} ConcatAssoc(p: string, b: string, k2: string, c: string, k3: string, d: string)
    ensures p + b + k2 + c + k3 + d == p + (b + k2 + (c + k3 + d))
  {
    assert p + b + k2 + c + k3 + d == p + (b + k2 + c + k3 + d);
    assert b + k2 + c + k3 + d == b + k2 + (c + k3 + d);
  }

  /** The second of three placeholders replaced. */
  lemma {:induction false} FillSecond(p: string, c: string, d: string, k2: string, k3: string, y: string)
    requires '{' !in p && '{' !in c && '{' !in d
    requires KeyShaped(k2) && KeyShaped(k3) && k2[2] != k3[2]
    ensures Replace(p + k2 + (c + k3 + d), k2, y) == (p + y + c) + k3 + d
  {
    BraceFreeNoKey(d, k2);
    NoKeyAround(c, k3, d, k2);
    ReplaceOne(p, k2, c + k3 + d, y);
  }

  /** Three distinct placeholders, each once in that order between
      brace-free texts, replaced one after the other by brace-free values. */
  lemma {:induction false} FillThree(a: string, b: string, c: string, d: string,
                                     k1: string, k2: string, k3: string, x: string, y: string, z: string)
    requires '{' !in a && '{' !in b && '{' !in c && '{' !in d
    requires '{' !in x && '{' !in y && '{' !in z
    requires KeyShaped(k1) && KeyShaped(k2) && KeyShaped(k3)
    requires k1[2] != k2[2] && k1[2] != k3[2] && k2[2] != k3[2]
    ensures Replace(Replace(Replace(a + k1 + b + k2 + c + k3 + d, k1, x), k2, y), k3, z)
      == a + x + b + y + c + z + d
  {
    FillFirst(a, b, c, d, k1, k2, k3, x);
    var p2 := a + x + b;
    FillSecond(p2, c, d, k2, k3, y);
    var p3 := p2 + y + c;
    BraceFreeNoKey(d, k3);
    ReplaceOne(p3, k3, d, z);
  }

  /** A template that holds each placeholder once, in the order the page
      fills them, with brace-free text around them, renders to that text
      with the three values in place, when the values hold no brace
      either. */
  lemma {:induction false} RenderPageFills(a: string, b: string, c: string, d: string,
                                           options: string, result: string, inputs: string)
    requires '{' !in a && '{' !in b && '{' !in c && '{' !in d
    requires '{' !in options && '{' !in result && '{' !in inputs
    ensures RenderPage(a + ModelOptionsKey + b + ResultKey + c + InputKey + d, options, result, inputs)
      == a + options + b + result + c + inputs + d
  {
    KeysShaped();
    FillThree(a, b, c, d, ModelOptionsKey, ResultKey, InputKey, options, result, inputs);
  }
}
