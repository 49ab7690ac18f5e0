/**
 * The structural numeric rules of the cost computation, over exact reals: the regularisation
 * term accumulated in feedForward, the in-place clamp of exact 0 and 1 hypothesis entries, and
 * the regularisation of the gradients in backProp, which leaves the bias column alone.
 * Column 0 of every weight matrix holds the bias weights.
 */
module Regularisation {
  import opened Errors
  import opened Matrices
  import opened Codec

  /** The sum of the squares of s. */
  function SumSquares(s: seq<real>): (r: real)
    ensures r >= 0.0
  {
    if s == [] then 0.0 else SumSquares(s[..|s| - 1]) + s[|s| - 1] * s[|s| - 1]
  }

  /** theta[i, 1:]: the weights of a row without its bias weight. */
  function NonBias(row: seq<real>): seq<real> {
    if row == [] then [] else row[1..]
  }

  /** The sum of the squares of the non-bias weights of the given rows. */
  function RowsPenalty(rows: seq<seq<real>>): (r: real)
    ensures r >= 0.0
  {
    if rows == [] then 0.0 else RowsPenalty(rows[..|rows| - 1]) + SumSquares(NonBias(rows[|rows| - 1]))
  }

  /** np.sum(np.multiply(theta[:,1:], theta[:,1:])): one layer's share of the regularisation term. */
  function LayerPenalty(theta: Matrix<real>): (r: real)
    ensures r >= 0.0
  {
    RowsPenalty(theta.entries)
  }

  /** The regularisation term of all layers, each layer counted once. */
  function Penalty(thetas: seq<Matrix<real>>): (r: real)
    ensures r >= 0.0
  {
    if thetas == [] then 0.0 else Penalty(thetas[..|thetas| - 1]) + LayerPenalty(thetas[|thetas| - 1])
  }

  /**
   * The regTerm accumulation of feedForward: every layer but the last inside the forward loop,
   * then the last layer after it.
   */
  method AccumulateRegTerm(thetas: seq<Matrix<real>>, regTerm: real) returns (acc: real)
    requires |thetas| >= 1
    ensures acc == regTerm + Penalty(thetas)
    ensures acc >= regTerm
  {
    acc := regTerm;
    var layer := 0;
    while layer < |thetas| - 1
      invariant 0 <= layer <= |thetas| - 1
      invariant acc == regTerm + Penalty(thetas[..layer])
    {
      assert thetas[..layer + 1][..layer] == thetas[..layer];
      acc := acc + LayerPenalty(thetas[layer]);
      layer := layer + 1;
    }
    assert thetas[..|thetas|][..|thetas| - 1] == thetas[..|thetas| - 1];
    acc := acc + LayerPenalty(thetas[|thetas| - 1]);
    assert thetas[..|thetas|] == thetas;
  }

  /** The regularisation term of two layer lists together is the sum of their terms. */
  lemma {:induction false} PenaltyAppend(xs: seq<Matrix<real>>, ys: seq<Matrix<real>>)
    ensures Penalty(xs + ys) == Penalty(xs) + Penalty(ys)
    decreases |ys|
  {
    if ys != [] {
      var front := ys[..|ys| - 1];
      var last := ys[|ys| - 1];
      PenaltyAppend(xs, front);
      assert xs + ys == (xs + front) + [last];
      calc {
        Penalty(xs + ys);
        Penalty((xs + front) + [last]);
        { assert ((xs + front) + [last])[..|xs + front|] == xs + front; }
        Penalty(xs + front) + LayerPenalty(last);
        Penalty(xs) + Penalty(front) + LayerPenalty(last);
        { assert ys[..|ys| - 1] == front; }
        Penalty(xs) + Penalty(ys);
      }
    } else {
      assert xs + ys == xs;
    }
  }

  /** Two matrices with the same rows once their bias weights are dropped. */
  predicate SameExceptBias(m1: Matrix<real>, m2: Matrix<real>) {
    |m1.entries| == |m2.entries| &&
    forall i :: 0 <= i < |m1.entries| ==> NonBias(m1.entries[i]) == NonBias(m2.entries[i])
  }

  lemma {:induction false} RowsPenaltyIgnoresBias(rows1: seq<seq<real>>, rows2: seq<seq<real>>)
    requires |rows1| == |rows2|
    requires forall i :: 0 <= i < |rows1| ==> NonBias(rows1[i]) == NonBias(rows2[i])
    ensures RowsPenalty(rows1) == RowsPenalty(rows2)
  {
    if rows1 != [] {
      var n := |rows1|;
      RowsPenaltyIgnoresBias(rows1[..n - 1], rows2[..n - 1]);
    }
  }

  /** The regularisation term does not depend on the bias weights. */
  lemma {:induction false} PenaltyIgnoresBias(ts: seq<Matrix<real>>, us: seq<Matrix<real>>)
    requires |ts| == |us| && forall k :: 0 <= k < |ts| ==> SameExceptBias(ts[k], us[k])
    ensures Penalty(ts) == Penalty(us)
  {
    if ts != [] {
      var n := |ts|;
      PenaltyIgnoresBias(ts[..n - 1], us[..n - 1]);
      assert SameExceptBias(ts[n - 1], us[n - 1]);
      RowsPenaltyIgnoresBias(ts[n - 1].entries, us[n - 1].entries);
    }
  }

  /** 1e-9: the step that moves a hypothesis entry off 0 or 1. */
  const Epsilon: real := 0.000000001

  /** hypothesis[hypothesis == target] += delta, for one entry. */
  function Nudge(x: real, target: real, delta: real): real {
    if x == target then x + delta else x
  }

  /**
   * One hypothesis entry after both steps of the clamp: first entries equal to 1 drop by 1e-9,
   * then entries equal to 0 rise by 1e-9.
   */
  function Clamped(x: real): (r: real)
    ensures r != 0.0 && r != 1.0
    ensures x == 1.0 ==> r == 1.0 - Epsilon
    ensures x == 0.0 ==> r == Epsilon
    ensures x != 0.0 && x != 1.0 ==> r == x
  {
    Nudge(Nudge(x, 1.0, -Epsilon), 0.0, Epsilon)
  }

  /** Clamping twice is clamping once. */
  lemma ClampedIdempotent(x: real)
    ensures Clamped(Clamped(x)) == Clamped(x)
  {
  }

  /** `target in hypothesis`: some entry of h equals target exactly. */
  method Occurs(h: array2<real>, target: real) returns (found: bool)
    ensures found <==> exists i, j :: 0 <= i < h.Length0 && 0 <= j < h.Length1 && h[i, j] == target
  {
    for i := 0 to h.Length0
      invariant forall i', j :: 0 <= i' < i && 0 <= j < h.Length1 ==> h[i', j] != target
    {
      for j := 0 to h.Length1
        invariant forall j' :: 0 <= j' < j ==> h[i, j'] != target
      {
        if h[i, j] == target {
          return true;
        }
      }
    }
    return false;
  }

  /** hypothesis[np.where(hypothesis == target)] += delta: nudge every entry equal to target. */
  method NudgeAll(h: array2<real>, target: real, delta: real)
    modifies h
    ensures forall i, j :: 0 <= i < h.Length0 && 0 <= j < h.Length1 ==>
              h[i, j] == Nudge(old(h[i, j]), target, delta)
  {
    for i := 0 to h.Length0
      invariant forall i', j :: 0 <= i' < h.Length0 && 0 <= j < h.Length1 ==>
                  h[i', j] == if i' < i then Nudge(old(h[i', j]), target, delta) else old(h[i', j])
    {
      for j := 0 to h.Length1
        invariant forall i', j' :: 0 <= i' < h.Length0 && 0 <= j' < h.Length1 ==>
                    h[i', j'] == if i' < i || (i' == i && j' < j) then Nudge(old(h[i', j']), target, delta) else old(h[i', j'])
      {
        if h[i, j] == target {
          h[i, j] := h[i, j] + delta;
        }
      }
    }
  }

  /**
   * The numerical-stability check of feedForward: if an entry equals 1, move every such entry
   * down by 1e-9; then, if an entry equals 0, move every such entry up by 1e-9. Every entry ends
   * strictly away from 0 and 1, and only entries that were exactly 0 or 1 change.
   */
  method ClampHypothesis(h: array2<real>)
    modifies h
    ensures forall i, j :: 0 <= i < h.Length0 && 0 <= j < h.Length1 ==> h[i, j] == Clamped(old(h[i, j]))
    ensures forall i, j :: 0 <= i < h.Length0 && 0 <= j < h.Length1 ==> h[i, j] != 0.0 && h[i, j] != 1.0
  {
    var hasOne := Occurs(h, 1.0);
    if hasOne {
      NudgeAll(h, 1.0, -Epsilon);
    }
    var hasZero := Occurs(h, 0.0);
    if hasZero {
      NudgeAll(h, 0.0, Epsilon);
    }
  }

  /** grad and theta are valid matrices of the same shape. */
  predicate SameShape(grad: Matrix<real>, theta: Matrix<real>) {
    grad.Valid() && theta.Valid() && grad.rows == theta.rows && grad.cols == theta.cols
  }

  /** Layer by layer, each gradient has the shape of its weight matrix. */
  predicate SameShapes(grads: seq<Matrix<real>>, thetas: seq<Matrix<real>>) {
    |grads| == |thetas| && forall k :: 0 <= k < |grads| ==> SameShape(grads[k], thetas[k])
  }

  /**
   * grad[:,1:] = grad[:,1:] + 1/m * (LAMBDA * theta[:,1:]): the regularised gradient of one layer.
   * The bias column keeps its unregularised value; every other entry grows by LAMBDA/m times
   * its weight. decay is the estimator's LAMBDA.
   */
  function RegularisedGradient(grad: Matrix<real>, theta: Matrix<real>, decay: real, m: real): (r: Matrix<real>)
    requires SameShape(grad, theta) && m != 0.0
    ensures SameShape(r, theta)
    ensures forall i :: 0 <= i < r.rows && 0 < r.cols ==> r.entries[i][0] == grad.entries[i][0]
    ensures forall i, j :: 0 <= i < r.rows && 1 <= j < r.cols ==>
              r.entries[i][j] - grad.entries[i][j] == 1.0 / m * (decay * theta.entries[i][j])
  {
    Matrix(grad.rows, grad.cols,
      seq(grad.rows, i requires 0 <= i < grad.rows =>
        seq(grad.cols, j requires 0 <= j < grad.cols =>
          if j == 0 then grad.entries[i][j] else grad.entries[i][j] + 1.0 / m * (decay * theta.entries[i][j]))))
  }

  /** With LAMBDA = 0 regularisation changes nothing. */
  lemma ZeroLambdaIdentity(grad: Matrix<real>, theta: Matrix<real>, m: real)
    requires SameShape(grad, theta) && m != 0.0
    ensures RegularisedGradient(grad, theta, 0.0, m) == grad
  {
    var r := RegularisedGradient(grad, theta, 0.0, m);
    forall i | 0 <= i < grad.rows
      ensures r.entries[i] == grad.entries[i]
    {
      forall j | 0 <= j < grad.cols
        ensures r.entries[i][j] == grad.entries[i][j]
      {
        if j > 0 {
          assert 1.0 / m * (0.0 * theta.entries[i][j]) == 0.0;
        }
      }
    }
    assert r.entries == grad.entries;
  }

  /** The regularised gradients of all layers, in layer order. */
  function RegularisedLayers(grads: seq<Matrix<real>>, thetas: seq<Matrix<real>>, decay: real, m: real): (rs: seq<Matrix<real>>)
    requires SameShapes(grads, thetas) && m != 0.0
    ensures SameShapes(rs, thetas)
  {
    seq(|grads|, k requires 0 <= k < |grads| => RegularisedGradient(grads[k], thetas[k], decay, m))
  }

  /**
   * The gradient step of backProp: regularise the gradient of every layer, then ravel the first
   * column-major and concatenate the ravel of each further layer.
   */
  method BackPropGradients(grads: seq<Matrix<real>>, thetas: seq<Matrix<real>>, decay: real, m: real)
    returns (gradients: seq<real>)
    requires SameShapes(grads, thetas) && |thetas| >= 1 && m != 0.0
    ensures AllValid(RegularisedLayers(grads, thetas, decay, m))
    ensures gradients == Flatten(RegularisedLayers(grads, thetas, decay, m))
  {
    ghost var expected := RegularisedLayers(grads, thetas, decay, m);
    var regularised: seq<Matrix<real>> := [];
    for layer := 0 to |thetas|
      invariant regularised == expected[..layer]
    {
      regularised := regularised + [RegularisedGradient(grads[layer], thetas[layer], decay, m)];
    }
    assert regularised == expected;
    gradients := FlattenLayers(regularised);
  }

  /** The regularised gradients have the shapes of the weight matrices. */
  lemma RegularisedConforms(a: Architecture, grads: seq<Matrix<real>>, thetas: seq<Matrix<real>>, decay: real, m: real)
    requires Conforms(thetas, a) && SameShapes(grads, thetas) && m != 0.0
    ensures Conforms(RegularisedLayers(grads, thetas, decay, m), a)
  {
    var rs := RegularisedLayers(grads, thetas, decay, m);
    forall k | 0 <= k < |rs|
      ensures ShapedAs(rs[k], a, k)
    {
      assert ShapedAs(thetas[k], a, k);
    }
  }

  /**
   * The flattened gradients have the parameter vector's layout: Total(a) elements, which
   * reshapeParams cuts back into the regularised gradient of each layer.
   */
  lemma GradientLayout(a: Architecture, grads: seq<Matrix<real>>, thetas: seq<Matrix<real>>, decay: real, m: real)
    requires |a| >= 2 && Conforms(thetas, a) && SameShapes(grads, thetas) && m != 0.0
    ensures |Flatten(RegularisedLayers(grads, thetas, decay, m))| == Total(a)
    ensures Unflatten(a, Flatten(RegularisedLayers(grads, thetas, decay, m))) ==
              Success(RegularisedLayers(grads, thetas, decay, m))
  {
    RegularisedConforms(a, grads, thetas, decay, m);
    UnflattenFlatten(a, RegularisedLayers(grads, thetas, decay, m));
  }

  /**
   * The bias entries of the flattened gradient vector, entry (i, 0) of layer k at position
   * Offset(a, k) + i, hold the unregularised gradient whatever LAMBDA is.
   */
  lemma FlatBiasIgnoresLambda(a: Architecture, grads: seq<Matrix<real>>, thetas: seq<Matrix<real>>,
                              decay: real, m: real, k: nat, i: nat)
    requires |a| >= 2 && Conforms(thetas, a) && SameShapes(grads, thetas) && m != 0.0
    requires k < |a| - 1 && i < a[k + 1]
    ensures Offset(a, k) + i < |Flatten(RegularisedLayers(grads, thetas, decay, m))|
    ensures Flatten(RegularisedLayers(grads, thetas, decay, m))[Offset(a, k) + i] == grads[k].entries[i][0]
  {
    var rs := RegularisedLayers(grads, thetas, decay, m);
    RegularisedConforms(a, grads, thetas, decay, m);
    FlattenEntry(rs, a, k, i, 0);
    assert ColumnMajorIndex(i, 0, a[k + 1], a[k] + 1) == i;
  }
}
