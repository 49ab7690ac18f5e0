/**
 * oneHotEncoding: class labels to the k × m indicator matrix compared with the network's
 * hypothesis. Row r of column i is 1 exactly when example i carries the label that addresses
 * row r; k is the number of distinct labels. Labels are used as 0-based row indices, with
 * numpy's negative-index wrap-around, and a label that addresses no row raises IndexError.
 */
module Labels {
  import opened Errors
  import opened Matrices

  /** np.unique(y), as a set: the distinct labels. */
  function Classes(y: seq<int>): set<int> {
    set t | t in y
  }

  /** len(np.unique(y)): the number of distinct labels. */
  function NumClasses(y: seq<int>): nat {
    |Classes(y)|
  }

  /** The indices 0 .. n-1. */
  function Range(n: nat): (r: set<int>)
    ensures forall i :: i in r <==> 0 <= i < n
  {
    if n == 0 then {} else Range(n - 1) + {n - 1}
  }

  /** Range(n) holds exactly n indices. */
  lemma {:induction false} RangeSize(n: nat)
    ensures |Range(n)| == n
  {
    if n > 0 {
      RangeSize(n - 1);
    }
  }

  /** There are never more distinct labels than examples, and at least one when there is an example. */
  lemma {:induction false} NumClassesBounds(y: seq<int>)
    ensures NumClasses(y) <= |y|
    ensures |y| > 0 ==> NumClasses(y) >= 1
  {
    if |y| > 0 {
      var front := y[..|y| - 1];
      NumClassesBounds(front);
      assert Classes(y) == Classes(front) + {y[|y| - 1]};
    }
  }

  /** numpy accepts t as a row index of an axis of length k exactly when -k <= t < k. */
  predicate InRange(t: int, k: nat) {
    -(k as int) <= t < k
  }

  /** 1 on the row a label addresses, 0 elsewhere. */
  function Indicator(row: int, column: int): int {
    if row == column then 1 else 0
  }

  /**
   * The encoder's result: the k × m indicator matrix when every label addresses a row
   * (row t % k, the wrap-around of a negative index), IndexError otherwise.
   */
  function OneHot(y: seq<int>): (r: Result<Matrix<int>>)
    ensures r.Success? ==> r.value.Valid() && r.value.rows == NumClasses(y) && r.value.cols == |y|
  {
    var k := NumClasses(y);
    if forall i :: 0 <= i < |y| ==> InRange(y[i], k) then
      Success(Matrix(k, |y|, seq(k, row requires 0 <= row < k =>
        seq(|y|, i requires 0 <= i < |y| => Indicator(row, y[i] % k)))))
    else
      Failure(IndexError)
  }

  /** indicatorFunction.transpose(): the matrix whose entry (r, c) is indicator[c, r]. */
  function Transposed(indicator: array2<int>): (m: Matrix<int>)
    reads indicator
    ensures m.Valid() && m.rows == indicator.Length1 && m.cols == indicator.Length0
  {
    Matrix(indicator.Length1, indicator.Length0,
      seq(indicator.Length1, r requires 0 <= r < indicator.Length1 reads indicator =>
        seq(indicator.Length0, c requires 0 <= c < indicator.Length0 reads indicator => indicator[c, r])))
  }

  /**
   * oneHotEncoding: fill an m × k zero array with one 1 per example, at the column its label
   * addresses, then transpose it.
   */
  method OneHotEncoding(y: seq<int>) returns (r: Result<Matrix<int>>)
    ensures r == OneHot(y)
  {
    var k := NumClasses(y);
    var m := |y|;
    var indicator := new int[m, k]((i, j) => 0);
    for i := 0 to m
      invariant forall i' :: 0 <= i' < i ==> InRange(y[i'], k)
      invariant forall i', c :: 0 <= i' < m && 0 <= c < k ==>
                  indicator[i', c] == if i' < i then Indicator(c, y[i'] % k) else 0
    {
      if !InRange(y[i], k) {
        return Failure(IndexError);
      }
      var column := if y[i] < 0 then y[i] + k else y[i];
      WrapIndex(y[i], k);
      indicator[i, column] := 1;
    }
    TransposedIsOneHot(y, indicator);
    r := Success(Transposed(indicator));
  }

  /** Once every example's row is filled in, the transposed array is the encoding. */
  lemma TransposedIsOneHot(y: seq<int>, indicator: array2<int>)
    requires indicator.Length0 == |y| && indicator.Length1 == NumClasses(y)
    requires forall i :: 0 <= i < |y| ==> InRange(y[i], NumClasses(y))
    requires forall i, c :: 0 <= i < |y| && 0 <= c < NumClasses(y) ==>
               indicator[i, c] == Indicator(c, y[i] % NumClasses(y))
    ensures OneHot(y) == Success(Transposed(indicator))
  {
    var k := NumClasses(y);
    var r := Transposed(indicator);
    assert OneHot(y).Success?;
    var expected := OneHot(y).value;
    forall row | 0 <= row < k
      ensures r.entries[row] == expected.entries[row]
    {
      forall c | 0 <= c < |y|
        ensures r.entries[row][c] == expected.entries[row][c]
      {
      }
    }
    assert r.entries == expected.entries;
  }

  /** numpy's wrap-around of a negative row index is the Euclidean remainder. */
  lemma WrapIndex(t: int, k: nat)
    requires InRange(t, k)
    ensures 0 <= (if t < 0 then t + k else t) < k
    ensures (if t < 0 then t + k else t) == t % k
  {
    if t < 0 {
      assert t == (t + k) + (-1) * k;
    }
  }

  /** Column i of the encoding is the basis vector of row y[i] % k: one 1 there and 0 in every other row. */
  lemma OneHotColumn(y: seq<int>, i: nat)
    requires OneHot(y).Success? && i < |y|
    ensures NumClasses(y) > 0
    ensures 0 <= y[i] % NumClasses(y) < NumClasses(y)
    ensures OneHot(y).value.entries[y[i] % NumClasses(y)][i] == 1
    ensures forall row :: 0 <= row < NumClasses(y) && row != y[i] % NumClasses(y) ==>
              OneHot(y).value.entries[row][i] == 0
  {
    assert InRange(y[i], NumClasses(y));
  }

  /** A label at or beyond the number of distinct labels addresses no row: the encoder raises IndexError. */
  lemma OneHotLabelTooLarge(y: seq<int>, i: nat)
    requires i < |y| && y[i] >= NumClasses(y)
    ensures OneHot(y) == Failure(IndexError)
  {
    assert !InRange(y[i], NumClasses(y));
  }

  /** Cardinality closes a subset: a subset of Range(k) with k elements is Range(k). */
  lemma SubsetOfRange(s: set<int>, k: nat)
    requires s <= Range(k) && |s| == k
    ensures s == Range(k)
  {
    RangeSize(k);
    var rest := Range(k) - s;
    assert Range(k) == s + rest;
    assert |rest| == 0;
  }

  /**
   * For non-negative labels the encoder succeeds exactly when the labels are 0 .. k-1, that is,
   * when they are numbered from 0 with no gap.
   */
  lemma NonNegativeLabelsSucceedIff(y: seq<int>)
    requires forall i :: 0 <= i < |y| ==> y[i] >= 0
    ensures OneHot(y).Success? <==> Classes(y) == Range(NumClasses(y))
  {
    var k := NumClasses(y);
    if OneHot(y).Success? {
      forall t | t in Classes(y)
        ensures t in Range(k)
      {
        var i :| 0 <= i < |y| && y[i] == t;
        assert InRange(y[i], k);
      }
      SubsetOfRange(Classes(y), k);
    } else {
      var i :| 0 <= i < |y| && !InRange(y[i], k);
      assert y[i] in Classes(y);
    }
  }

  /** Labels 1 .. k, numbered from 1 as the docstring describes, make the encoder fail on label k. */
  lemma OneBasedLabelsFail()
    ensures OneHot([1, 2, 3]) == Failure(IndexError)
  {
    assert Classes([1, 2, 3]) == {1, 2, 3};
    OneHotLabelTooLarge([1, 2, 3], 2);
  }

  /** The encoding of labels 0, 1, 2, 1: three rows, one column per example. */
  lemma OneHotExample()
    ensures OneHot([0, 1, 2, 1]) == Success(Matrix(3, 4, [[1, 0, 0, 0], [0, 1, 0, 1], [0, 0, 1, 0]]))
  {
    var y := [0, 1, 2, 1];
    assert Classes(y) == {0, 1, 2};
    assert forall i :: 0 <= i < |y| ==> InRange(y[i], 3);
    assert NumClasses(y) == 3;
    var m := OneHot(y).value;
    assert m.entries[0] == [1, 0, 0, 0];
    assert m.entries[1] == [0, 1, 0, 1];
    assert m.entries[2] == [0, 0, 1, 0];
    assert m.entries == [[1, 0, 0, 0], [0, 1, 0, 1], [0, 0, 1, 0]];
  }
}
