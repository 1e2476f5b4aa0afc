/** Tensors as the prediction loops see them: a 2-D tensor is the sequence
    of its rows, and the values inside a row are never inspected. */
module Tensors {

  /** The name of a node type of the heterogeneous graph. */
  type NType = string

  /** One row of a 2-D tensor (one node's prediction, embedding or label). */
  type Row = seq<int>

  /** A 2-D tensor, as its rows along dimension 0. */
  type Tensor = seq<Row>

  /** th.cat along dimension 0: the rows of every part, part after part. */
  function Cat(parts: seq<Tensor>): Tensor
  {
    if parts == [] then [] else parts[0] + Cat(parts[1..])
  }

  /** The number of rows of all parts together. */
  function TotalRows(parts: seq<Tensor>): nat
  {
    if parts == [] then 0 else |parts[0]| + TotalRows(parts[1..])
  }

  /** Concatenation keeps every row: the result has as many rows as the parts. */
  lemma {:induction false} CatLength(parts: seq<Tensor>)
    ensures |Cat(parts)| == TotalRows(parts)
  {
    if parts != [] {
      CatLength(parts[1..]);
    }
  }

  /** Concatenating a list of parts in two pieces gives the same tensor. */
  lemma {:induction false} CatAppend(a: seq<Tensor>, b: seq<Tensor>)
    ensures Cat(a + b) == Cat(a) + Cat(b)
  {
    if a == [] {
      assert a + b == b;
    } else {
      assert (a + b)[1..] == a[1..] + b;
      CatAppend(a[1..], b);
    }
  }

  /** Every index picks an existing row of `t`. */
  predicate InRange(t: Tensor, idx: seq<nat>)
  {
    forall i :: 0 <= i < |idx| ==> idx[i] < |t|
  }

  /** Advanced indexing `t[idx]`: row i of the result is row idx[i] of t. */
  function Select(t: Tensor, idx: seq<nat>): (s: Tensor)
    requires InRange(t, idx)
    ensures |s| == |idx|
    ensures forall i :: 0 <= i < |idx| ==> s[i] == t[idx[i]]
  {
    seq(|idx|, i requires 0 <= i < |idx| => t[idx[i]])
  }
}
