/** Per-node-type accumulation of mini-batch outputs: the dictionaries of
    lists that the prediction loops fill batch by batch, and their final
    concatenation. `outs` is always the sequence of per-batch outputs in the
    order the loader yielded the batches. */
module Grouping {
  import opened Tensors

  /** A dictionary from node type to the list of per-batch tensors. */
  type Parts = map<NType, seq<Tensor>>

  /** The tensors of node type `t`, one for each batch that produced `t`,
      in batch order. */
  function Collect(outs: seq<map<NType, Tensor>>, t: NType): seq<Tensor>
  {
    if outs == [] then []
    else (if t in outs[0] then [outs[0][t]] else []) + Collect(outs[1..], t)
  }

  /** The node types produced by at least one batch. */
  function KeysOf(outs: seq<map<NType, Tensor>>): set<NType>
  {
    if outs == [] then {} else outs[0].Keys + KeysOf(outs[1..])
  }

  /** The dictionary of lists after every batch has been appended. */
  function Gather(outs: seq<map<NType, Tensor>>): Parts
  {
    map t | t in KeysOf(outs) :: Collect(outs, t)
  }

  /** The final result: each node type's list concatenated. */
  function Concatenated(outs: seq<map<NType, Tensor>>): map<NType, Tensor>
  {
    map t | t in KeysOf(outs) :: Cat(Collect(outs, t))
  }

  /** The number of rows the batches produced for node type `t`. */
  function RowCount(outs: seq<map<NType, Tensor>>, t: NType): nat
  {
    if outs == [] then 0
    else (if t in outs[0] then |outs[0][t]| else 0) + RowCount(outs[1..], t)
  }

  lemma {:induction false} KeysOfExists(outs: seq<map<NType, Tensor>>, t: NType)
    ensures t in KeysOf(outs) <==> exists j :: 0 <= j < |outs| && t in outs[j]
  {
    if outs != [] {
      KeysOfExists(outs[1..], t);
      if t in KeysOf(outs[1..]) {
        var j :| 0 <= j < |outs| - 1 && t in outs[1..][j];
        assert t in outs[j + 1];
      }
      if exists j :: 0 <= j < |outs| && t in outs[j] {
        var j :| 0 <= j < |outs| && t in outs[j];
        if j > 0 {
          assert t in outs[1..][j - 1];
        }
      }
    }
  }

  lemma {:induction false} KeysOfAppend(a: seq<map<NType, Tensor>>, b: seq<map<NType, Tensor>>)
    ensures KeysOf(a + b) == KeysOf(a) + KeysOf(b)
  {
    if a == [] {
      assert a + b == b;
    } else {
      assert (a + b)[1..] == a[1..] + b;
      KeysOfAppend(a[1..], b);
    }
  }

  lemma {:induction false} CollectAppend(a: seq<map<NType, Tensor>>, b: seq<map<NType, Tensor>>, t: NType)
    ensures Collect(a + b, t) == Collect(a, t) + Collect(b, t)
  {
    if a == [] {
      assert a + b == b;
    } else {
      assert (a + b)[1..] == a[1..] + b;
      CollectAppend(a[1..], b, t);
    }
  }

  lemma {:induction false} CollectOutside(outs: seq<map<NType, Tensor>>, t: NType)
    requires t !in KeysOf(outs)
    ensures Collect(outs, t) == []
  {
    if outs != [] {
      CollectOutside(outs[1..], t);
    }
  }

  lemma {:induction false} CollectRows(outs: seq<map<NType, Tensor>>, t: NType)
    ensures TotalRows(Collect(outs, t)) == RowCount(outs, t)
  {
    if outs != [] {
      CollectRows(outs[1..], t);
      TotalRowsAppend(if t in outs[0] then [outs[0][t]] else [], Collect(outs[1..], t));
    }
  }

  lemma {:induction false} TotalRowsAppend(a: seq<Tensor>, b: seq<Tensor>)
    ensures TotalRows(a + b) == TotalRows(a) + TotalRows(b)
  {
    if a == [] {
      assert a + b == b;
    } else {
      assert (a + b)[1..] == a[1..] + b;
      TotalRowsAppend(a[1..], b);
    }
  }

  /** Appending one more batch to the gathered lists: any dictionary that
      extends the lists of the batch's node types by its tensor, starts a
      one-element list for a node type seen for the first time, and keeps
      every other list, is the gathered dictionary of the longer sequence. */
  lemma GatherSnoc(outs: seq<map<NType, Tensor>>, m: map<NType, Tensor>, u: Parts)
    requires u.Keys == Gather(outs).Keys + m.Keys
    requires forall t :: t in m && t in Gather(outs) ==> u[t] == Gather(outs)[t] + [m[t]]
    requires forall t :: t in m && t !in Gather(outs) ==> u[t] == [m[t]]
    requires forall t :: t in Gather(outs) && t !in m ==> u[t] == Gather(outs)[t]
    ensures u == Gather(outs + [m])
  {
    var g := Gather(outs + [m]);
    KeysOfAppend(outs, [m]);
    assert KeysOf([m]) == m.Keys by {
      assert [m][1..] == [];
    }
    forall t | t in u
      ensures u[t] == g[t]
    {
      CollectAppend(outs, [m], t);
      assert [m][1..] == [];
      if t !in KeysOf(outs) {
        CollectOutside(outs, t);
      }
    }
  }

  /** The dictionary of lists `to` after `append_to_dict(from, to)`. */
  ghost function Extend(to: Parts, from: map<NType, Tensor>): Parts
  {
    map t | t in to.Keys + from.Keys ::
      (if t in to then to[t] else []) + (if t in from then [from[t]] else [])
  }

  /** Extending by nothing changes nothing. */
  lemma ExtendNothing(to: Parts)
    ensures Extend(to, map[]) == to
  {
    var e := Extend(to, map[]);
    assert e.Keys == to.Keys;
    forall t | t in to
      ensures e[t] == to[t]
    {
      assert e[t] == to[t] + [];
    }
  }

  /** Appending one more node type's tensor, the way the source's inner
      loops do it, extends the dictionary by that entry. */
  lemma ExtendStep(to: Parts, from: map<NType, Tensor>, t: NType, v: Tensor)
    requires t !in from
    ensures var e := Extend(to, from);
      Extend(to, from[t := v]) == e[t := if t in e then e[t] + [v] else [v]]
  {
    var e := Extend(to, from);
    var e' := Extend(to, from[t := v]);
    var w := e[t := if t in e then e[t] + [v] else [v]];
    assert e'.Keys == w.Keys;
    forall u | u in w
      ensures e'[u] == w[u]
    {
      if u != t && u in from {
        assert from[t := v][u] == from[u];
      }
    }
  }

  /** Extending the lists gathered from earlier batches by one batch gives
      the lists gathered from all of them. */
  lemma ExtendGather(outs: seq<map<NType, Tensor>>, m: map<NType, Tensor>)
    ensures Extend(Gather(outs), m) == Gather(outs + [m])
  {
    GatherSnoc(outs, m, Extend(Gather(outs), m));
  }

  /** The dictionary that concatenates every gathered list is the final result. */
  lemma CatGather(outs: seq<map<NType, Tensor>>, c: map<NType, Tensor>)
    requires c.Keys == Gather(outs).Keys
    requires forall t :: t in c ==> c[t] == Cat(Gather(outs)[t])
    ensures c == Concatenated(outs)
  {
  }

  /** A node type is a key of the result exactly when some batch produced it. */
  lemma ConcatenatedKeys(outs: seq<map<NType, Tensor>>)
    ensures forall t :: t in Concatenated(outs) <==> exists j :: 0 <= j < |outs| && t in outs[j]
  {
    forall t
      ensures t in Concatenated(outs) <==> exists j :: 0 <= j < |outs| && t in outs[j]
    {
      KeysOfExists(outs, t);
    }
  }

  /** The result for a node type has as many rows as the batches produced for it. */
  lemma ConcatenatedRows(outs: seq<map<NType, Tensor>>, t: NType)
    requires t in Concatenated(outs)
    ensures |Concatenated(outs)[t]| == RowCount(outs, t)
  {
    CatLength(Collect(outs, t));
    CollectRows(outs, t);
  }

  /** Loader order, no re-sorting: the rows batch j produced for node type t
      sit in the result right after the rows all earlier batches produced
      for t. */
  lemma BatchSlice(outs: seq<map<NType, Tensor>>, j: nat, t: NType)
    requires j < |outs| && t in outs[j]
    ensures t in Concatenated(outs)
    ensures RowCount(outs[..j], t) + |outs[j][t]| <= |Concatenated(outs)[t]|
    ensures Concatenated(outs)[t][RowCount(outs[..j], t) .. RowCount(outs[..j], t) + |outs[j][t]|] == outs[j][t]
  {
    KeysOfExists(outs, t);
    var before, here, after := outs[..j], [outs[j]], outs[j + 1..];
    assert outs == before + (here + after);
    CollectAppend(before, here + after, t);
    CollectAppend(here, after, t);
    assert here[1..] == [];
    assert Collect(here, t) == [outs[j][t]];
    var pre, post := Collect(before, t), Collect(after, t);
    assert Collect(outs, t) == pre + ([outs[j][t]] + post);
    CatAppend(pre, [outs[j][t]] + post);
    CatAppend([outs[j][t]], post);
    assert Cat([outs[j][t]]) == outs[j][t] by {
      assert [outs[j][t]][1..] == [];
    }
    CatLength(pre);
    CollectRows(before, t);
    var whole := Cat(pre) + (outs[j][t] + Cat(post));
    assert Concatenated(outs)[t] == whole;
    assert whole[|Cat(pre)| .. |Cat(pre)| + |outs[j][t]|] == outs[j][t];
  }

  /** `append_to_dict`: appends each tensor of `from` to the list of its node
      type in `to`, creating the list on first sight of a node type. */
  method AppendToDict(from: map<NType, Tensor>, to: Parts) returns (updated: Parts)
    ensures updated.Keys == to.Keys + from.Keys
    ensures forall t :: t in from && t in to ==> updated[t] == to[t] + [from[t]]
    ensures forall t :: t in from && t !in to ==> updated[t] == [from[t]]
    ensures forall t :: t in to && t !in from ==> updated[t] == to[t]
    ensures updated == Extend(to, from)
  {
    updated := to;
    var todo := from.Keys;
    while todo != {}
      invariant todo <= from.Keys
      invariant updated.Keys == to.Keys + (from.Keys - todo)
      invariant forall t :: t in from && t !in todo && t in to ==> updated[t] == to[t] + [from[t]]
      invariant forall t :: t in from && t !in todo && t !in to ==> updated[t] == [from[t]]
      invariant forall t :: t in to && (t !in from || t in todo) ==> updated[t] == to[t]
      decreases todo
    {
      var t :| t in todo;
      if t in updated {
        updated := updated[t := updated[t] + [from[t]]];
      } else {
        updated := updated[t := [from[t]]];
      }
      todo := todo - {t};
    }
    ExtendPointwise(to, from, updated);
  }

  /** A dictionary of lists that agrees with `Extend(to, from)` key by key
      is that extension. */
  lemma ExtendPointwise(to: Parts, from: map<NType, Tensor>, updated: Parts)
    requires updated.Keys == to.Keys + from.Keys
    requires forall t :: t in from && t in to ==> updated[t] == to[t] + [from[t]]
    requires forall t :: t in from && t !in to ==> updated[t] == [from[t]]
    requires forall t :: t in to && t !in from ==> updated[t] == to[t]
    ensures updated == Extend(to, from)
  {
    var e := Extend(to, from);
    assert updated.Keys == e.Keys;
    forall t | t in e
      ensures updated[t] == e[t]
    {
      if t !in from {
        assert e[t] == to[t] + [];
      } else if t !in to {
        assert e[t] == [] + [from[t]];
      }
    }
  }

  /** append_to_dict on the lists gathered from the earlier batches gives
      the lists gathered from those batches and this one. */
  method AppendBatch(from: map<NType, Tensor>, to: Parts, ghost earlier: seq<map<NType, Tensor>>)
    returns (updated: Parts)
    requires to == Gather(earlier)
    ensures updated == Gather(earlier + [from])
  {
    updated := AppendToDict(from, to);
    ExtendGather(earlier, from);
  }

  /** The closing loop `for ntype, parts in d.items(): d[ntype] = th.cat(parts)`. */
  method CatEach(lists: Parts) returns (cat: map<NType, Tensor>)
    ensures cat.Keys == lists.Keys
    ensures forall t :: t in cat ==> cat[t] == Cat(lists[t])
  {
    cat := map[];
    var todo := lists.Keys;
    while todo != {}
      invariant todo <= lists.Keys
      invariant cat.Keys == lists.Keys - todo
      invariant forall t :: t in cat ==> cat[t] == Cat(lists[t])
      decreases todo
    {
      var t :| t in todo;
      cat := cat[t := Cat(lists[t])];
      todo := todo - {t};
    }
  }
}
