/**
 * The parameter codec of NeuralNetwork: the layout of all weight matrices in one flat
 * parameter vector (reshapeParams, and the flattening loops of initialise and backProp).
 *
 * An architecture is the sequence of layer sizes a[0..N]: a[0] is the input layer, a[N] the
 * output layer. Weight matrix k (0 <= k < N) connects layer k to layer k+1; it is the source's
 * thetas[k+1], has shape (a[k+1], a[k]+1) with column 0 for the bias unit, and occupies a block
 * of a[k+1]*(a[k]+1) consecutive elements, laid out column-major.
 */
module Codec {
  import opened Errors
  import opened Matrices

  type Architecture = seq<nat>

  /** Number of weights between layer k and layer k+1, bias column included. */
  function BlockSize(a: Architecture, k: nat): nat
    requires k + 1 < |a|
  {
    Times(a[k] + 1, a[k + 1])
  }

  /** Position in the parameter vector where weight matrix k starts (the source's lastIndex). */
  function Offset(a: Architecture, k: nat): nat
    requires k < |a|
  {
    if k == 0 then 0 else Offset(a, k - 1) + BlockSize(a, k - 1)
  }

  /** Length of a parameter vector for architecture a: the sum of all block sizes. */
  function Total(a: Architecture): nat
    requires |a| >= 1
  {
    Offset(a, |a| - 1)
  }

  /** Block k lies wholly inside v. */
  predicate BlockFits<T>(a: Architecture, v: seq<T>, k: nat)
    requires k + 1 < |a|
  {
    Offset(a, k + 1) <= |v|
  }

  /** The elements of v that make up weight matrix k. */
  function BlockOf<T>(a: Architecture, v: seq<T>, k: nat): (s: seq<T>)
    requires k + 1 < |a| && BlockFits(a, v, k)
    ensures |s| == BlockSize(a, k)
  {
    v[Offset(a, k)..Offset(a, k + 1)]
  }

  /** Blocks follow each other in layer order: a later block never starts before an earlier one ends. */
  lemma {:induction false} BlocksDisjoint(a: Architecture, j: nat, k: nat)
    requires j < k < |a|
    ensures Offset(a, j) + BlockSize(a, j) <= Offset(a, k)
    decreases k
  {
    if j + 1 < k {
      BlocksDisjoint(a, j, k - 1);
    }
  }

  /** m has the shape of weight matrix k: (a[k+1], a[k]+1). */
  predicate ShapedAs<T>(m: Matrix<T>, a: Architecture, k: nat)
    requires k + 1 < |a|
  {
    m.Valid() && m.rows == a[k + 1] && m.cols == a[k] + 1
  }

  /** ts holds the first |ts| weight matrices of a, each of its layer's shape. */
  predicate ConformsUpTo<T>(ts: seq<Matrix<T>>, a: Architecture) {
    |ts| < |a| && forall k :: 0 <= k < |ts| ==> ShapedAs(ts[k], a, k)
  }

  /** ts holds exactly one weight matrix per pair of adjacent layers of a, each of its layer's shape. */
  predicate Conforms<T>(ts: seq<Matrix<T>>, a: Architecture) {
    |a| >= 1 && |ts| == |a| - 1 && ConformsUpTo(ts, a)
  }

  /** Python's v[lo:hi]: a slice cut short at the end of v. */
  function PySlice<T>(v: seq<T>, lo: nat, hi: nat): (s: seq<T>)
    requires lo <= hi
    ensures |s| == hi - lo <==> hi <= |v| || lo == hi
  {
    if hi <= |v| then v[lo..hi] else if lo <= |v| then v[lo..] else []
  }

  /** numpy's reshape(s, (rows, cols), order="F"), which raises unless s has rows*cols elements. */
  function ReshapeBlock<T>(s: seq<T>, rows: nat, cols: nat): Result<Matrix<T>> {
    if |s| == Times(cols, rows) then Success(Reshape(s, rows, cols)) else Failure(ShapeError)
  }

  /**
   * The first n weight matrices cut from v: each block that v reaches the end of is reshaped to
   * its layer's shape, and the first block that runs past the end of v stops the cut with a shape
   * error (SliceThenReshape shows that this is what slicing and reshaping does).
   */
  function UnflattenLayers<T>(a: Architecture, v: seq<T>, n: nat): Result<seq<Matrix<T>>>
    requires n < |a|
  {
    if n == 0 then Success([])
    else
      match UnflattenLayers(a, v, n - 1)
      case Failure(e) => Failure(e)
      case Success(ts) =>
        if BlockFits(a, v, n - 1) then Success(ts + [Reshape(BlockOf(a, v, n - 1), a[n], a[n - 1] + 1)])
        else Failure(ShapeError)
  }

  /**
   * Slicing block k out of v and reshaping it, as reshapeParams does, gives the reshaped block
   * when v reaches the block's end and a shape error otherwise (once v reaches the block's start).
   */
  lemma SliceThenReshape<T>(a: Architecture, v: seq<T>, k: nat)
    requires k + 1 < |a| && Offset(a, k) <= |v|
    ensures ReshapeBlock(PySlice(v, Offset(a, k), Offset(a, k) + BlockSize(a, k)), a[k + 1], a[k] + 1) ==
              if BlockFits(a, v, k) then Success(Reshape(BlockOf(a, v, k), a[k + 1], a[k] + 1)) else Failure(ShapeError)
  {
    var lo := Offset(a, k);
    var s := PySlice(v, lo, lo + BlockSize(a, k));
    if BlockFits(a, v, k) {
      assert s == BlockOf(a, v, k);
    } else {
      assert |s| != BlockSize(a, k);
    }
  }

  /** reshapeParams: one weight matrix per layer pair; looking up a[1] fails when a has fewer than two layers. */
  function Unflatten<T>(a: Architecture, v: seq<T>): Result<seq<Matrix<T>>> {
    if |a| < 2 then Failure(KeyError) else UnflattenLayers(a, v, |a| - 1)
  }

  /** Concatenation of the column-major layouts of ts, in layer order. */
  function Flatten<T>(ts: seq<Matrix<T>>): seq<T>
    requires AllValid(ts)
  {
    if ts == [] then [] else Flatten(ts[..|ts| - 1]) + Ravel(ts[|ts| - 1])
  }

  /** Cutting the first n blocks succeeds exactly when v reaches the end of block n-1. */
  lemma {:induction false} UnflattenLayersSucceeds<T>(a: Architecture, v: seq<T>, n: nat)
    requires n < |a|
    ensures UnflattenLayers(a, v, n).Success? <==> Offset(a, n) <= |v|
    ensures UnflattenLayers(a, v, n).Success? ==> |UnflattenLayers(a, v, n).value| == n
  {
    if n > 0 {
      UnflattenLayersSucceeds(a, v, n - 1);
    }
  }

  /** Block k of a successful cut is the column-major reshape of v[Offset(a, k)..Offset(a, k+1)]. */
  lemma {:induction false} UnflattenLayersBlock<T>(a: Architecture, v: seq<T>, n: nat, k: nat)
    requires n < |a| && k < n && UnflattenLayers(a, v, n).Success?
    ensures |UnflattenLayers(a, v, n).value| == n
    ensures BlockFits(a, v, k)
    ensures UnflattenLayers(a, v, n).value[k] == Reshape(BlockOf(a, v, k), a[k + 1], a[k] + 1)
  {
    UnflattenLayersStep(a, v, n);
    if k < n - 1 {
      UnflattenLayersBlock(a, v, n - 1, k);
    }
  }

  /** A successful cut of n blocks is the successful cut of n - 1 blocks followed by block n - 1. */
  lemma {:induction false} UnflattenLayersStep<T>(a: Architecture, v: seq<T>, n: nat)
    requires 0 < n < |a| && UnflattenLayers(a, v, n).Success?
    ensures UnflattenLayers(a, v, n - 1).Success? && BlockFits(a, v, n - 1)
    ensures |UnflattenLayers(a, v, n - 1).value| == n - 1 && |UnflattenLayers(a, v, n).value| == n
    ensures forall k :: 0 <= k < n - 1 ==> UnflattenLayers(a, v, n).value[k] == UnflattenLayers(a, v, n - 1).value[k]
    ensures UnflattenLayers(a, v, n).value[n - 1] == Reshape(BlockOf(a, v, n - 1), a[n], a[n - 1] + 1)
  {
    UnflattenLayersSucceeds(a, v, n);
    UnflattenLayersSucceeds(a, v, n - 1);
  }

  /** Cutting one more block that fits after a successful cut appends the reshape of that block. */
  lemma {:induction false} UnflattenLayersExtend<T>(a: Architecture, v: seq<T>, n: nat)
    requires 0 < n < |a| && UnflattenLayers(a, v, n - 1).Success? && BlockFits(a, v, n - 1)
    ensures UnflattenLayers(a, v, n) ==
              Success(UnflattenLayers(a, v, n - 1).value + [Reshape(BlockOf(a, v, n - 1), a[n], a[n - 1] + 1)])
  {
  }

  /** Weight matrix k has entry (i, j) equal to element j*a[k+1] + i of block k of v. */
  ghost predicate ReadsFrom<T>(m: Matrix<T>, a: Architecture, v: seq<T>, k: nat)
    requires k + 1 < |a| && ShapedAs(m, a, k) && BlockFits(a, v, k)
  {
    forall i, j :: 0 <= i < a[k + 1] && 0 <= j < a[k] + 1 ==>
      m.entries[i][j] == BlockOf(a, v, k)[ColumnMajorIndex(i, j, a[k + 1], a[k] + 1)]
  }

  /** Entry (i, j) of a reshaped block is element j*rows + i of the block. */
  lemma ReshapeReads<T>(a: Architecture, v: seq<T>, k: nat)
    requires k + 1 < |a| && BlockFits(a, v, k)
    ensures ShapedAs(Reshape(BlockOf(a, v, k), a[k + 1], a[k] + 1), a, k)
    ensures ReadsFrom(Reshape(BlockOf(a, v, k), a[k + 1], a[k] + 1), a, v, k)
  {
  }

  /**
   * reshapeParams succeeds exactly when the vector holds at least Total(a) elements; then it
   * yields one matrix per layer pair, of shape (a[k+1], a[k]+1), whose entry (i, j) is element
   * j*a[k+1] + i of the k-th block v[Offset(a, k)..Offset(a, k+1)].
   */
  lemma UnflattenEntries<T>(a: Architecture, v: seq<T>)
    requires |a| >= 2
    ensures Unflatten(a, v).Success? <==> Total(a) <= |v|
    ensures Unflatten(a, v).Success? ==> Conforms(Unflatten(a, v).value, a)
    ensures Unflatten(a, v).Success? ==>
              forall k :: 0 <= k < |a| - 1 ==>
                BlockFits(a, v, k) && ShapedAs(Unflatten(a, v).value[k], a, k) &&
                ReadsFrom(Unflatten(a, v).value[k], a, v, k)
  {
    UnflattenLayersSucceeds(a, v, |a| - 1);
    if Unflatten(a, v).Success? {
      var ts := Unflatten(a, v).value;
      forall k | 0 <= k < |a| - 1
        ensures BlockFits(a, v, k) && ShapedAs(ts[k], a, k) && ReadsFrom(ts[k], a, v, k)
      {
        UnflattenLayersBlock(a, v, |a| - 1, k);
        ReshapeReads(a, v, k);
      }
    }
  }

  /** A vector shorter than Total(a) always makes reshapeParams fail with a shape error. */
  lemma ShortVectorFails<T>(a: Architecture, v: seq<T>)
    requires |a| >= 2 && |v| < Total(a)
    ensures Unflatten(a, v) == Failure(ShapeError)
  {
    ShortVectorFailsUpTo(a, v, |a| - 1);
  }

  lemma {:induction false} ShortVectorFailsUpTo<T>(a: Architecture, v: seq<T>, n: nat)
    requires n < |a| && |v| < Offset(a, n)
    ensures UnflattenLayers(a, v, n) == Failure(ShapeError)
  {
    var lo := Offset(a, n - 1);
    if |v| < lo {
      ShortVectorFailsUpTo(a, v, n - 1);
    } else {
      UnflattenLayersSucceeds(a, v, n - 1);
    }
  }

  /** Elements beyond Total(a) are never read: reshapeParams sees only the first Total(a) elements. */
  lemma UnflattenIgnoresTail<T>(a: Architecture, v: seq<T>, tail: seq<T>)
    requires |a| >= 2 && Total(a) <= |v|
    ensures Unflatten(a, v + tail) == Unflatten(a, v)
  {
    var n := |a| - 1;
    UnflattenLayersSucceeds(a, v, n);
    UnflattenLayersSucceeds(a, v + tail, n);
    var ts := Unflatten(a, v).value;
    var us := Unflatten(a, v + tail).value;
    forall k | 0 <= k < n
      ensures us[k] == ts[k]
    {
      UnflattenLayersBlock(a, v, n, k);
      UnflattenLayersBlock(a, v + tail, n, k);
      assert BlockOf(a, v + tail, k) == BlockOf(a, v, k);
    }
    assert us == ts;
  }

  /** Flattening matrices that conform to a up to layer |ts| gives Offset(a, |ts|) elements. */
  lemma {:induction false} FlattenLength<T>(ts: seq<Matrix<T>>, a: Architecture)
    requires ConformsUpTo(ts, a)
    ensures |Flatten(ts)| == Offset(a, |ts|)
  {
    if ts != [] {
      var n := |ts|;
      var front := ts[..n - 1];
      assert ConformsUpTo(front, a) by {
        forall k | 0 <= k < |front|
          ensures ShapedAs(front[k], a, k)
        {
          assert front[k] == ts[k];
        }
      }
      FlattenLength(front, a);
      assert ShapedAs(ts[n - 1], a, n - 1);
    }
  }

  /** Flattening matrices that conform to a places matrix k at Offset(a, k). */
  lemma {:induction false} FlattenBlock<T>(ts: seq<Matrix<T>>, a: Architecture, k: nat)
    requires ConformsUpTo(ts, a) && k < |ts|
    ensures BlockFits(a, Flatten(ts), k) && BlockOf(a, Flatten(ts), k) == Ravel(ts[k])
  {
    var n := |ts|;
    var front := ts[..n - 1];
    FlattenFront(ts, a);
    var x := Flatten(front);
    var y := Ravel(ts[n - 1]);
    if k < n - 1 {
      FlattenBlock(front, a, k);
      BlocksDisjoint(a, k, n - 1);
      SliceOfAppend(x, y, Offset(a, k), Offset(a, k + 1));
    } else {
      SliceOfAppend(x, y, |x|, |x| + |y|);
    }
  }

  /** The matrices before the last still conform, and their layout is followed by the last one's. */
  lemma FlattenFront<T>(ts: seq<Matrix<T>>, a: Architecture)
    requires ConformsUpTo(ts, a) && |ts| > 0
    ensures ConformsUpTo(ts[..|ts| - 1], a)
    ensures ShapedAs(ts[|ts| - 1], a, |ts| - 1)
    ensures |Flatten(ts[..|ts| - 1])| == Offset(a, |ts| - 1)
    ensures |Ravel(ts[|ts| - 1])| == BlockSize(a, |ts| - 1)
    ensures Flatten(ts) == Flatten(ts[..|ts| - 1]) + Ravel(ts[|ts| - 1])
    ensures forall k :: 0 <= k < |ts| - 1 ==> ts[..|ts| - 1][k] == ts[k]
  {
    ConformsFront(ts, a);
    FlattenLength(ts[..|ts| - 1], a);
  }

  lemma ConformsFront<T>(ts: seq<Matrix<T>>, a: Architecture)
    requires ConformsUpTo(ts, a) && |ts| > 0
    ensures ConformsUpTo(ts[..|ts| - 1], a)
  {
    var front := ts[..|ts| - 1];
    forall k | 0 <= k < |front|
      ensures ShapedAs(front[k], a, k)
    {
      assert front[k] == ts[k];
    }
  }

  /** A slice that lies wholly in x or wholly in y is unchanged by concatenating them. */
  lemma SliceOfAppend<X>(x: seq<X>, y: seq<X>, lo: nat, hi: nat)
    requires lo <= hi <= |x| + |y|
    ensures hi <= |x| ==> (x + y)[lo..hi] == x[lo..hi]
    ensures lo == |x| && hi == |x| + |y| ==> (x + y)[lo..hi] == y
  {
  }

  /** Entry (i, j) of matrix k lands at position Offset(a, k) + j*a[k+1] + i of the flattened vector. */
  lemma FlattenEntry<T>(ts: seq<Matrix<T>>, a: Architecture, k: nat, i: nat, j: nat)
    requires ConformsUpTo(ts, a) && k < |ts| && i < a[k + 1] && j < a[k] + 1
    ensures Offset(a, k) + ColumnMajorIndex(i, j, a[k + 1], a[k] + 1) < |Flatten(ts)|
    ensures Flatten(ts)[Offset(a, k) + ColumnMajorIndex(i, j, a[k + 1], a[k] + 1)] == ts[k].entries[i][j]
  {
    FlattenBlock(ts, a, k);
    assert ShapedAs(ts[k], a, k);
    RavelEntry(ts[k], i, j);
    var p := ColumnMajorIndex(i, j, a[k + 1], a[k] + 1);
    assert BlockOf(a, Flatten(ts), k)[p] == Flatten(ts)[Offset(a, k) + p];
  }

  /** Flattening matrices that conform to a up to layer |ts| places matrix k at Offset(a, k). */
  lemma FlattenLayout<T>(ts: seq<Matrix<T>>, a: Architecture)
    requires ConformsUpTo(ts, a)
    ensures |Flatten(ts)| == Offset(a, |ts|)
    ensures forall k :: 0 <= k < |ts| ==>
              BlockFits(a, Flatten(ts), k) && BlockOf(a, Flatten(ts), k) == Ravel(ts[k])
  {
    FlattenLength(ts, a);
    forall k | 0 <= k < |ts|
      ensures BlockFits(a, Flatten(ts), k) && BlockOf(a, Flatten(ts), k) == Ravel(ts[k])
    {
      FlattenBlock(ts, a, k);
    }
  }

  /** Reshaping a vector of exactly Total(a) elements and flattening the result gives the vector back. */
  lemma FlattenUnflatten<T>(a: Architecture, v: seq<T>)
    requires |a| >= 2 && |v| == Total(a)
    ensures Unflatten(a, v).Success?
    ensures AllValid(Unflatten(a, v).value)
    ensures Flatten(Unflatten(a, v).value) == v
  {
    UnflattenEntries(a, v);
    FlattenPrefixes(a, v, |a| - 1);
  }

  lemma {:induction false} FlattenPrefixes<T>(a: Architecture, v: seq<T>, n: nat)
    requires n < |a| && Offset(a, n) <= |v|
    ensures UnflattenLayers(a, v, n).Success?
    ensures AllValid(UnflattenLayers(a, v, n).value)
    ensures Flatten(UnflattenLayers(a, v, n).value) == v[..Offset(a, n)]
  {
    if n > 0 {
      assert Offset(a, n - 1) <= Offset(a, n);
      FlattenPrefixes(a, v, n - 1);
      FlattenStep(a, v, n);
      SlicesJoin(a, v, n - 1);
    }
  }

  /** Cutting one more block and flattening again appends exactly that block. */
  lemma FlattenStep<T>(a: Architecture, v: seq<T>, n: nat)
    requires 0 < n < |a| && Offset(a, n) <= |v|
    requires UnflattenLayers(a, v, n - 1).Success? && AllValid(UnflattenLayers(a, v, n - 1).value)
    ensures BlockFits(a, v, n - 1) && UnflattenLayers(a, v, n).Success?
    ensures AllValid(UnflattenLayers(a, v, n).value)
    ensures Flatten(UnflattenLayers(a, v, n).value) == Flatten(UnflattenLayers(a, v, n - 1).value) + BlockOf(a, v, n - 1)
  {
    var front := UnflattenLayers(a, v, n - 1).value;
    var block := BlockOf(a, v, n - 1);
    var m := Reshape(block, a[n], a[n - 1] + 1);
    UnflattenLayersExtend(a, v, n);
    assert UnflattenLayers(a, v, n).value == front + [m];
    FlattenSnoc(front, m);
    RavelReshape(block, a[n], a[n - 1] + 1);
    assert Flatten(front + [m]) == Flatten(front) + block;
  }

  /** The prefix up to block k followed by block k is the prefix up to block k+1. */
  lemma SlicesJoin<T>(a: Architecture, v: seq<T>, k: nat)
    requires k + 1 < |a| && BlockFits(a, v, k)
    ensures v[..Offset(a, k)] + BlockOf(a, v, k) == v[..Offset(a, k + 1)]
  {
  }

  /** Flattening one more matrix appends its column-major layout. */
  lemma FlattenSnoc<T>(ts: seq<Matrix<T>>, m: Matrix<T>)
    requires AllValid(ts) && m.Valid()
    ensures AllValid(ts + [m])
    ensures Flatten(ts + [m]) == Flatten(ts) + Ravel(m)
  {
    assert (ts + [m])[..|ts|] == ts;
  }

  /** Flattening matrices of the right shapes and reshaping the result gives the matrices back. */
  lemma UnflattenFlatten<T>(a: Architecture, ts: seq<Matrix<T>>)
    requires |a| >= 2 && Conforms(ts, a)
    ensures |Flatten(ts)| == Total(a)
    ensures Unflatten(a, Flatten(ts)) == Success(ts)
  {
    FlattenLength(ts, a);
    var v := Flatten(ts);
    forall k | 0 <= k < |ts|
      ensures CutsInto(a, v, ts, k)
    {
      ReshapeFlattenBlock(a, ts, k);
    }
    UnflattenCuts(a, v, ts, |a| - 1);
    assert ts[..|a| - 1] == ts;
  }

  /** Block k of v reshapes to ts[k]. */
  ghost predicate CutsInto<T>(a: Architecture, v: seq<T>, ts: seq<Matrix<T>>, k: nat) {
    k < |ts| && k + 1 < |a| && BlockFits(a, v, k) && Reshape(BlockOf(a, v, k), a[k + 1], a[k] + 1) == ts[k]
  }

  lemma {:induction false} UnflattenCuts<T>(a: Architecture, v: seq<T>, ts: seq<Matrix<T>>, n: nat)
    requires n < |a| && n <= |ts| && forall k :: 0 <= k < n ==> CutsInto(a, v, ts, k)
    ensures UnflattenLayers(a, v, n) == Success(ts[..n])
  {
    if n > 0 {
      UnflattenCuts(a, v, ts, n - 1);
      CutStep(a, v, ts, n);
    }
  }

  lemma CutStep<T>(a: Architecture, v: seq<T>, ts: seq<Matrix<T>>, n: nat)
    requires 0 < n < |a| && n <= |ts|
    requires UnflattenLayers(a, v, n - 1) == Success(ts[..n - 1]) && CutsInto(a, v, ts, n - 1)
    ensures UnflattenLayers(a, v, n) == Success(ts[..n])
  {
    UnflattenLayersExtend(a, v, n);
    PrefixSnoc(ts, n);
  }

  /** The first n - 1 elements followed by element n - 1 are the first n elements. */
  lemma PrefixSnoc<X>(s: seq<X>, n: nat)
    requires 0 < n <= |s|
    ensures s[..n - 1] + [s[n - 1]] == s[..n]
  {
  }

  /** Block k of the flattened matrices reshapes back to matrix k. */
  lemma ReshapeFlattenBlock<T>(a: Architecture, ts: seq<Matrix<T>>, k: nat)
    requires Conforms(ts, a) && k < |ts|
    ensures BlockFits(a, Flatten(ts), k)
    ensures Reshape(BlockOf(a, Flatten(ts), k), a[k + 1], a[k] + 1) == ts[k]
  {
    FlattenBlock(ts, a, k);
    assert ShapedAs(ts[k], a, k);
    ReshapeRavel(ts[k]);
  }

  /** Once a block fails to reshape, cutting further blocks fails with the same error. */
  lemma {:induction false} FailurePersists<T>(a: Architecture, v: seq<T>, j: nat, n: nat)
    requires j <= n < |a| && UnflattenLayers(a, v, j).Failure?
    ensures UnflattenLayers(a, v, n) == UnflattenLayers(a, v, j)
    decreases n
  {
    if j < n {
      FailurePersists(a, v, j, n - 1);
    }
  }

  /** reshapeParams: cut the parameter vector into one weight matrix per layer pair. */
  method ReshapeParams<T>(a: Architecture, params: seq<T>) returns (thetas: Result<seq<Matrix<T>>>)
    ensures thetas == Unflatten(a, params)
  {
    if |a| < 2 {
      return Failure(KeyError);
    }
    var first := ReshapeBlock(PySlice(params, 0, BlockSize(a, 0)), a[1], a[0] + 1);
    SliceThenReshape(a, params, 0);
    if first.Failure? {
      assert UnflattenLayers(a, params, 1) == Failure(first.error);
      FailurePersists(a, params, 1, |a| - 1);
      return Failure(first.error);
    }
    var ts := [first.value];
    assert [] + [first.value] == ts;
    var lastIndex := BlockSize(a, 0);
    var layer := 2;
    while layer < |a|
      invariant 2 <= layer <= |a|
      invariant lastIndex == Offset(a, layer - 1)
      invariant UnflattenLayers(a, params, layer - 1) == Success(ts)
    {
      var size := BlockSize(a, layer - 1);
      var block := ReshapeBlock(PySlice(params, lastIndex, lastIndex + size), a[layer], a[layer - 1] + 1);
      UnflattenLayersSucceeds(a, params, layer - 1);
      SliceThenReshape(a, params, layer - 1);
      if block.Failure? {
        assert UnflattenLayers(a, params, layer) == Failure(block.error);
        FailurePersists(a, params, layer, |a| - 1);
        return Failure(block.error);
      }
      ts := ts + [block.value];
      lastIndex := lastIndex + size;
      layer := layer + 1;
    }
    return Success(ts);
  }

  /**
   * The flattening loop shared by initialise and backProp: ravel the first matrix, then
   * concatenate the ravel of each further matrix in layer order.
   */
  method FlattenLayers<T>(ts: seq<Matrix<T>>) returns (v: seq<T>)
    requires AllValid(ts) && |ts| >= 1
    ensures v == Flatten(ts)
  {
    v := Ravel(ts[0]);
    assert ts[..1][..0] == [];
    var k := 1;
    while k < |ts|
      invariant 1 <= k <= |ts|
      invariant v == Flatten(ts[..k])
    {
      assert ts[..k + 1][..k] == ts[..k];
      v := v + Ravel(ts[k]);
      k := k + 1;
    }
    assert ts[..|ts|] == ts;
  }

  /**
   * randInitParams(nIn, nOut): a fresh (nOut, nIn+1) weight matrix. rng(call, i, j) stands for the
   * value the random generator yields for entry (i, j) on the call-th draw.
   */
  function RandInitParams<T>(nIn: nat, nOut: nat, call: nat, rng: (nat, nat, nat) -> T): (m: Matrix<T>)
    ensures m.Valid() && m.rows == nOut && m.cols == nIn + 1
  {
    Matrix(nOut, nIn + 1,
      seq(nOut, i requires 0 <= i < nOut => seq(nIn + 1, j requires 0 <= j < nIn + 1 => rng(call, i, j))))
  }

  /** The weight matrices initialise draws, one per layer pair in layer order. */
  function InitialThetas<T>(a: Architecture, rng: (nat, nat, nat) -> T): (ts: seq<Matrix<T>>)
    requires |a| >= 1
    ensures Conforms(ts, a)
  {
    seq(|a| - 1, k requires 0 <= k < |a| - 1 => RandInitParams(a[k], a[k + 1], k, rng))
  }

  /** Drawing layer k's matrix appends its layout to that of the matrices before it. */
  lemma InitialStep<T>(a: Architecture, rng: (nat, nat, nat) -> T, k: nat)
    requires 1 <= k < |a| - 1
    ensures Flatten(InitialThetas(a, rng)[..k + 1]) ==
              Flatten(InitialThetas(a, rng)[..k]) + Ravel(RandInitParams(a[k], a[k + 1], k, rng))
  {
    var ts := InitialThetas(a, rng);
    FlattenSnoc(ts[..k], ts[k]);
    PrefixSnoc(ts, k + 1);
  }

  /** The initial vector has Total(a) elements and reshapeParams cuts it back into the drawn matrices. */
  lemma InitialLayout<T>(a: Architecture, rng: (nat, nat, nat) -> T)
    requires |a| >= 2
    ensures |Flatten(InitialThetas(a, rng))| == Total(a)
    ensures Unflatten(a, Flatten(InitialThetas(a, rng))) == Success(InitialThetas(a, rng))
  {
    UnflattenFlatten(a, InitialThetas(a, rng));
  }

  /**
   * initialise: ravel a random matrix for each layer pair and concatenate them in layer order;
   * looking up a[1] fails when a has fewer than two layers. The result has exactly Total(a)
   * elements and reshapeParams cuts it back into the drawn matrices.
   */
  method Initialise<T>(a: Architecture, rng: (nat, nat, nat) -> T) returns (r: Result<seq<T>>)
    ensures r.Success? <==> |a| >= 2
    ensures r.Failure? ==> r.error == KeyError
    ensures r.Success? ==> r.value == Flatten(InitialThetas(a, rng))
    ensures r.Success? ==> |r.value| == Total(a)
    ensures r.Success? ==> Unflatten(a, r.value) == Success(InitialThetas(a, rng))
  {
    if |a| < 2 {
      return Failure(KeyError);
    }
    ghost var ts := InitialThetas(a, rng);
    var first := RandInitParams(a[0], a[1], 0, rng);
    var initialParams := Ravel(first);
    assert ts[..1] == [] + [first];
    var layer := 1;
    while layer < |a| - 1
      invariant 1 <= layer <= |a| - 1
      invariant initialParams == Flatten(ts[..layer])
    {
      var theta := RandInitParams(a[layer], a[layer + 1], layer, rng);
      InitialStep(a, rng, layer);
      initialParams := initialParams + Ravel(theta);
      layer := layer + 1;
    }
    assert ts[..|a| - 1] == ts;
    InitialLayout(a, rng);
    return Success(initialParams);
  }
}
