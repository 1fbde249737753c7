/** studio/handlers/evaluate.rs: the confusion matrix of the validation set
    and the data behind the loss curve. The network's outputs for the
    validation inputs are given; the argmax is the training loop's, which
    the handler repeats. */
module Evaluate {
  import opened Base
  import opened Text
  import opened TrainLoop

  /** The (true class, predicted class) pairs of the validation samples,
      as `zip` makes them, stopping at the shorter side. */
  function Pairs(outputs: seq<seq<real>>, labels: seq<seq<real>>): (r: seq<(nat, nat)>)
    ensures |r| == Min(|outputs|, |labels|)
    ensures forall k :: 0 <= k < |r| ==> r[k] == (ArgMax(labels[k]), ArgMax(outputs[k]))
  {
    seq(Min(|outputs|, |labels|), k requires 0 <= k < Min(|outputs|, |labels|) => (ArgMax(labels[k]), ArgMax(outputs[k])))
  }

  /** How many pairs are (t, p). */
  function Count(pairs: seq<(nat, nat)>, t: nat, p: nat): nat
  {
    if |pairs| == 0 then 0
    else Count(pairs[..|pairs| - 1], t, p) + (if pairs[|pairs| - 1] == (t, p) then 1 else 0)
  }

  /** The counting loop of `build_confusion_matrix_html`: no matrix for an
      empty validation set or fewer than two classes; otherwise an n×n
      matrix, n the first label's length, whose cell [t][p] counts the
      samples of true class t predicted as p. */
  method BuildConfusion(outputs: seq<seq<real>>, labels: seq<seq<real>>) returns (m: Option<array2<nat>>)
    ensures m.None? <==> |labels| == 0 || |labels[0]| < 2
    ensures m.Some? ==> fresh(m.value) && m.value.Length0 == |labels[0]| && m.value.Length1 == |labels[0]|
    ensures m.Some? ==> forall t, p :: 0 <= t < m.value.Length0 && 0 <= p < m.value.Length1 ==>
      m.value[t, p] == Count(Pairs(outputs, labels), t, p)
  {
    if |labels| == 0 {
      return None;
    }
    var n := |labels[0]|;
    if n < 2 {
      return None;
    }
    var a := new nat[n, n]((_, _) => 0);
    var pairs := Pairs(outputs, labels);
    for k := 0 to |pairs|
      invariant forall t, p :: 0 <= t < n && 0 <= p < n ==> a[t, p] == Count(pairs[..k], t, p)
    {
      assert pairs[..k + 1][..k] == pairs[..k];
      var predicted := ArgMax(outputs[k]);
      var truth := ArgMax(labels[k]);
      if predicted < n && truth < n {
        a[truth, predicted] := a[truth, predicted] + 1;
      }
    }
    assert pairs[..|pairs|] == pairs;
    return Some(a);
  }

  /** The number of pairs whose two classes are both below n: the samples
      the loop counts. */
  function InRange(pairs: seq<(nat, nat)>, n: nat): nat
  {
    if |pairs| == 0 then 0
    else
      var x := pairs[|pairs| - 1];
      InRange(pairs[..|pairs| - 1], n) + (if x.0 < n && x.1 < n then 1 else 0)
  }

  /** The sum of the cells [t][0..cols). */
  function RowSum(pairs: seq<(nat, nat)>, t: nat, cols: nat): nat
  {
    if cols == 0 then 0 else RowSum(pairs, t, cols - 1) + Count(pairs, t, cols - 1)
  }

  /** The sum of the cells [0..rows)[0..n). */
  function GridSum(pairs: seq<(nat, nat)>, rows: nat, n: nat): nat
  {
    if rows == 0 then 0 else GridSum(pairs, rows - 1, n) + RowSum(pairs, rows - 1, n)
  }

  lemma {:induction false} RowSumStep(pairs: seq<(nat, nat)>, t: nat, cols: nat)
    requires |pairs| > 0
    ensures var x := pairs[|pairs| - 1];
      RowSum(pairs, t, cols) == RowSum(pairs[..|pairs| - 1], t, cols) + (if x.0 == t && x.1 < cols then 1 else 0)
  {
    if cols > 0 {
      RowSumStep(pairs, t, cols - 1);
    }
  }

  lemma {:induction false} GridSumStep(pairs: seq<(nat, nat)>, rows: nat, n: nat)
    requires |pairs| > 0
    ensures var x := pairs[|pairs| - 1];
      GridSum(pairs, rows, n) == GridSum(pairs[..|pairs| - 1], rows, n) + (if x.0 < rows && x.1 < n then 1 else 0)
  {
    if rows > 0 {
      GridSumStep(pairs, rows - 1, n);
      RowSumStep(pairs, rows - 1, n);
    }
  }

  /** The cells of the n×n matrix add up to the number of samples whose
      true and predicted classes are both below n: each such sample is
      counted once, the others not at all. */
  lemma {:induction false} CellSum(pairs: seq<(nat, nat)>, n: nat)
    ensures GridSum(pairs, n, n) == InRange(pairs, n)
  {
    if |pairs| > 0 {
      var s := pairs[..|pairs| - 1];
      var x := pairs[|pairs| - 1];
      CellSum(s, n);
      GridSumStep(pairs, n, n);
      assert InRange(pairs, n) == InRange(s, n) + (if x.0 < n && x.1 < n then 1 else 0);
    } else {
      GridSumEmpty(pairs, n, n);
    }
  }

  /** Without samples every cell, and so every sum of cells, is 0. */
  lemma {:induction false} GridSumEmpty(pairs: seq<(nat, nat)>, rows: nat, n: nat)
    requires |pairs| == 0
    ensures GridSum(pairs, rows, n) == 0
  {
    if rows > 0 {
      GridSumEmpty(pairs, rows - 1, n);
      RowSumEmpty(pairs, rows - 1, n);
    }
  }

  lemma {:induction false} RowSumEmpty(pairs: seq<(nat, nat)>, t: nat, cols: nat)
    requires |pairs| == 0
    ensures RowSum(pairs, t, cols) == 0
  {
    if cols > 0 {
      RowSumEmpty(pairs, t, cols - 1);
    }
  }

  /** The largest off-diagonal cell of row t among columns [0..cols), 0
      when there is none. */
  function RowMax(pairs: seq<(nat, nat)>, t: nat, cols: nat): (r: nat)
    ensures forall p :: 0 <= p < cols && p != t ==> Count(pairs, t, p) <= r
  {
    if cols == 0 then 0
    else
      var rest := RowMax(pairs, t, cols - 1);
      if cols - 1 == t then rest else Max(rest, Count(pairs, t, cols - 1))
  }

  /** The largest off-diagonal cell among rows [0..rows). */
  function GridMax(pairs: seq<(nat, nat)>, rows: nat, n: nat): (r: nat)
    ensures forall t, p :: 0 <= t < rows && 0 <= p < n && p != t ==> Count(pairs, t, p) <= r
  {
    if rows == 0 then 0 else Max(GridMax(pairs, rows - 1, n), RowMax(pairs, rows - 1, n))
  }

  /** A positive row maximum is one of the row's off-diagonal cells. */
  lemma {:induction false} RowMaxAttained(pairs: seq<(nat, nat)>, t: nat, cols: nat)
    ensures RowMax(pairs, t, cols) == 0 || exists p :: 0 <= p < cols && p != t && Count(pairs, t, p) == RowMax(pairs, t, cols)
  {
    if cols > 0 {
      RowMaxAttained(pairs, t, cols - 1);
      var rest := RowMax(pairs, t, cols - 1);
      if cols - 1 != t && Count(pairs, t, cols - 1) >= rest {
        assert Count(pairs, t, cols - 1) == RowMax(pairs, t, cols);
      } else if rest > 0 {
        var p :| 0 <= p < cols - 1 && p != t && Count(pairs, t, p) == rest;
        assert 0 <= p < cols && p != t;
      }
    }
  }

  /** A positive grid maximum is one of the off-diagonal cells. */
  lemma {:induction false} GridMaxAttained(pairs: seq<(nat, nat)>, rows: nat, n: nat)
    ensures GridMax(pairs, rows, n) == 0
      || exists t, p :: 0 <= t < rows && 0 <= p < n && p != t && Count(pairs, t, p) == GridMax(pairs, rows, n)
  {
    if rows > 0 {
      GridMaxAttained(pairs, rows - 1, n);
      RowMaxAttained(pairs, rows - 1, n);
      var up := GridMax(pairs, rows - 1, n);
      var row := RowMax(pairs, rows - 1, n);
      if up >= row && up > 0 {
        var t, p :| 0 <= t < rows - 1 && 0 <= p < n && p != t && Count(pairs, t, p) == up;
        assert 0 <= t < rows;
      } else if row > up {
        var p :| 0 <= p < n && p != rows - 1 && Count(pairs, rows - 1, p) == row;
        assert 0 <= rows - 1 < rows;
      }
    }
  }

  /** `max_off_diag`: the largest off-diagonal cell, and at least 1, so
      the shading it divides by is never a division by zero. */
  function MaxOffDiag(pairs: seq<(nat, nat)>, n: nat): (r: nat)
    ensures r >= 1
    ensures forall t, p :: 0 <= t < n && 0 <= p < n && p != t ==> Count(pairs, t, p) <= r
  {
    Max(GridMax(pairs, n, n), 1)
  }

  /** Above 1, `max_off_diag` is the count of an actual off-diagonal cell. */
  lemma {:induction false} MaxOffDiagAttained(pairs: seq<(nat, nat)>, n: nat)
    ensures MaxOffDiag(pairs, n) == 1
      || exists t, p :: 0 <= t < n && 0 <= p < n && p != t && Count(pairs, t, p) == MaxOffDiag(pairs, n)
  {
    GridMaxAttained(pairs, n, n);
  }

  /** The hint shown instead of a curve. */
  const HintText: string := "<p class=\"hint\">Not enough data to draw a curve.</p>"

  /** The epoch's validation loss, if it has one. */
  function ValLossOf(s: EpochStats): Option<real>
  {
    s.valLoss
  }

  /** The series `build_svg_loss_curve` draws: none for a history of fewer
      than two epochs, where the hint is shown instead; otherwise one
      training loss per epoch and the validation losses of the epochs that
      have one, in epoch order. */
  function CurveSeries(history: seq<EpochStats>): (r: Option<(seq<real>, seq<real>)>)
    ensures r.None? <==> |history| < 2
    ensures r.Some? ==> (|r.value.0| == |history|
      && (forall i :: 0 <= i < |history| ==> r.value.0[i] == history[i].trainLoss)
      && r.value.1 == SomeValues(history, ValLossOf))
  {
    if |history| < 2 then None
    else Some((seq(|history|, i requires 0 <= i < |history| => history[i].trainLoss), SomeValues(history, ValLossOf)))
  }

  /** `fold(0.0, f64::max)` over the values: their maximum, and 0 when
      that is larger. */
  function FoldMax(vals: seq<real>): (r: real)
    ensures r >= 0.0
    ensures forall i :: 0 <= i < |vals| ==> vals[i] <= r
    ensures r == 0.0 || exists i :: 0 <= i < |vals| && vals[i] == r
  {
    if |vals| == 0 then 0.0
    else
      var m := FoldMax(vals[..|vals| - 1]);
      assert forall i :: 0 <= i < |vals| - 1 ==> vals[..|vals| - 1][i] == vals[i];
      if vals[|vals| - 1] > m then vals[|vals| - 1] else m
  }
}
