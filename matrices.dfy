/**
 * Dense matrices and numpy's column-major (order="F") layout of them as a flat sequence.
 * The element type is generic: the layout is pure index arithmetic.
 */
module Matrices {

  /** A rows × cols matrix kept row by row: entries[i][j] is numpy's m[i, j]. */
  datatype Matrix<T> = Matrix(rows: nat, cols: nat, entries: seq<seq<T>>) {
    predicate Valid() {
      |entries| == rows && forall i :: 0 <= i < rows ==> |entries[i]| == cols
    }
  }

  predicate AllValid<T>(ms: seq<Matrix<T>>) {
    forall k :: 0 <= k < |ms| ==> ms[k].Valid()
  }

  /**
   * count * size, written as repeated addition (count blocks of size elements each), so that
   * the layout arithmetic below stays linear for the solver.
   */
  function Times(count: nat, size: nat): nat {
    if count == 0 then 0 else Times(count - 1, size) + size
  }

  /** Times is the product of its arguments. */
  lemma {:induction false} TimesIsProduct(count: nat, size: nat)
    ensures Times(count, size) == count * size
  {
    if count > 0 {
      TimesIsProduct(count - 1, size);
    }
  }

  /** More blocks never take less room. */
  lemma {:induction false} TimesMonotone(c1: nat, c2: nat, size: nat)
    requires c1 <= c2
    ensures Times(c1, size) <= Times(c2, size)
    decreases c2
  {
    if c1 < c2 {
      TimesMonotone(c1, c2 - 1, size);
    }
  }

  /** Position of entry (i, j) of a rows × cols matrix in its column-major layout. */
  function ColumnMajorIndex(i: nat, j: nat, rows: nat, cols: nat): (p: nat)
    requires i < rows && j < cols
    ensures p < Times(cols, rows)
  {
    TimesMonotone(j + 1, cols, rows);
    Times(j, rows) + i
  }

  /** The column-major position of entry (i, j) is j*rows + i. */
  lemma ColumnMajorIndexIsProduct(i: nat, j: nat, rows: nat, cols: nat)
    requires i < rows && j < cols
    ensures ColumnMajorIndex(i, j, rows, cols) == j * rows + i
  {
    TimesIsProduct(j, rows);
  }

  /** Column j of m, top to bottom. */
  function Column<T>(m: Matrix<T>, j: nat): seq<T>
    requires m.Valid() && j < m.cols
  {
    seq(m.rows, i requires 0 <= i < m.rows => m.entries[i][j])
  }

  /** The first c columns of m laid one after another. */
  function RavelColumns<T>(m: Matrix<T>, c: nat): (v: seq<T>)
    requires m.Valid() && c <= m.cols
    ensures |v| == Times(c, m.rows)
    decreases c
  {
    if c == 0 then [] else RavelColumns(m, c - 1) + Column(m, c - 1)
  }

  /** Entry (i, j) sits at its column-major position in the layout of the first c columns. */
  lemma {:induction false} RavelColumnsEntry<T>(m: Matrix<T>, c: nat, i: nat, j: nat)
    requires m.Valid() && c <= m.cols && i < m.rows && j < c
    ensures RavelColumns(m, c)[ColumnMajorIndex(i, j, m.rows, c)] == m.entries[i][j]
    decreases c
  {
    var p := ColumnMajorIndex(i, j, m.rows, c);
    if j < c - 1 {
      RavelColumnsEntry(m, c - 1, i, j);
      assert p == ColumnMajorIndex(i, j, m.rows, c - 1);
    } else {
      assert p == |RavelColumns(m, c - 1)| + i;
    }
  }

  /** numpy's ravel(m, order="F"): the whole matrix, column by column. */
  function Ravel<T>(m: Matrix<T>): (v: seq<T>)
    requires m.Valid()
    ensures |v| == Times(m.cols, m.rows)
  {
    RavelColumns(m, m.cols)
  }

  /** Entry (i, j) of m sits at position j*rows + i of its column-major layout. */
  lemma RavelEntry<T>(m: Matrix<T>, i: nat, j: nat)
    requires m.Valid() && i < m.rows && j < m.cols
    ensures Ravel(m)[ColumnMajorIndex(i, j, m.rows, m.cols)] == m.entries[i][j]
  {
    RavelColumnsEntry(m, m.cols, i, j);
  }

  /** numpy's reshape(s, (rows, cols), order="F") of a sequence with exactly rows*cols elements. */
  function Reshape<T>(s: seq<T>, rows: nat, cols: nat): (m: Matrix<T>)
    requires |s| == Times(cols, rows)
    ensures m.Valid() && m.rows == rows && m.cols == cols
  {
    Matrix(rows, cols,
      seq(rows, i requires 0 <= i < rows =>
        seq(cols, j requires 0 <= j < cols => s[ColumnMajorIndex(i, j, rows, cols)])))
  }

  /** Reshaping a matrix's column-major layout gives the matrix back. */
  lemma ReshapeRavel<T>(m: Matrix<T>)
    requires m.Valid()
    ensures Reshape(Ravel(m), m.rows, m.cols) == m
  {
    var r := Reshape(Ravel(m), m.rows, m.cols);
    forall i | 0 <= i < m.rows
      ensures r.entries[i] == m.entries[i]
    {
      forall j | 0 <= j < m.cols
        ensures r.entries[i][j] == m.entries[i][j]
      {
        RavelEntry(m, i, j);
      }
    }
  }

  lemma {:induction false} RavelColumnsOfReshape<T>(s: seq<T>, rows: nat, cols: nat, c: nat)
    requires |s| == Times(cols, rows) && c <= cols
    ensures Times(c, rows) <= |s|
    ensures RavelColumns(Reshape(s, rows, cols), c) == s[..Times(c, rows)]
    decreases c
  {
    TimesMonotone(c, cols, rows);
    if c > 0 {
      var m := Reshape(s, rows, cols);
      RavelColumnsOfReshape(s, rows, cols, c - 1);
      var lo := Times(c - 1, rows);
      var col := Column(m, c - 1);
      forall i | 0 <= i < rows
        ensures col[i] == s[lo..lo + rows][i]
      {
        assert ColumnMajorIndex(i, c - 1, rows, cols) == lo + i;
      }
      assert col == s[lo..lo + rows];
      assert s[..lo] + s[lo..lo + rows] == s[..Times(c, rows)];
    }
  }

  /** Laying out a reshaped sequence column by column gives the sequence back. */
  lemma RavelReshape<T>(s: seq<T>, rows: nat, cols: nat)
    requires |s| == Times(cols, rows)
    ensures Ravel(Reshape(s, rows, cols)) == s
  {
    RavelColumnsOfReshape(s, rows, cols, cols);
    assert s[..Times(cols, rows)] == s;
  }
}
