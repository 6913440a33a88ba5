/** The flattener: `SPMMAT.flatten_gen` yields the leaves of a value that is
    wrapped in arrays to any depth, and `flatten` (decorated with
    `one_or_list`) collapses a single leaf to itself. */
module Flatten {
  import opened Values

  /** The leaves `flatten_gen` yields: a non-array value is its own single
      leaf; an array yields the leaves of its elements, depth first and
      left to right. */
  function Leaves(v: Value): (r: seq<Value>)
    ensures forall i :: 0 <= i < |r| ==> !r[i].Arr?
    ensures !v.Arr? ==> r == [v]
    decreases v, 1
  {
    match v
    case Arr(es) => LeavesOf(es)
    case _ => [v]
  }

  /** The leaves of each of `es`, concatenated in order. */
  function LeavesOf(es: seq<Value>): (r: seq<Value>)
    ensures forall i :: 0 <= i < |r| ==> !r[i].Arr?
    decreases es, 0
  {
    if es == [] then [] else Leaves(es[0]) + LeavesOf(es[1..])
  }

  /** The `one_or_list` decorator: the sole element of a one-element list,
      otherwise the list itself. */
  function OneOrList(vs: seq<Value>): (r: Item)
    ensures r.Val? <==> |vs| == 1
    ensures r.Val? ==> r.v == vs[0]
    ensures !r.Val? ==> r == List(vs)
  {
    if |vs| == 1 then Val(vs[0]) else List(vs)
  }

  /** `SPMMAT.flatten`. */
  function Flat(v: Value): (r: Item)
    ensures r.Val? || r.List?
    ensures !v.Arr? ==> r == Val(v)
  {
    OneOrList(Leaves(v))
  }

  /** The leaves of a concatenation of arrays are the concatenation of
      their leaves: the flattener keeps the order of its input. */
  lemma {:induction false} LeavesOfAppend(a: seq<Value>, b: seq<Value>)
    ensures LeavesOf(a + b) == LeavesOf(a) + LeavesOf(b)
    decreases |a|
  {
    if a == [] {
      assert a + b == b;
    } else {
      assert (a + b)[0] == a[0];
      assert (a + b)[1..] == a[1..] + b;
      LeavesOfAppend(a[1..], b);
    }
  }

  /** Each element's leaves sit in the result at the position given by the
      leaves of the elements before it. */
  lemma {:induction false} LeavesOfElement(es: seq<Value>, k: nat)
    requires k < |es|
    ensures LeavesOf(es) == LeavesOf(es[..k]) + Leaves(es[k]) + LeavesOf(es[k + 1..])
  {
    assert es == es[..k] + es[k..];
    LeavesOfAppend(es[..k], es[k..]);
    assert es[k..][0] == es[k];
    assert es[k..][1..] == es[k + 1..];
  }

  /** Wrapping a value in any number of single-element arrays does not
      change its leaves. */
  lemma {:induction false} LeavesWrap(v: Value, depth: nat)
    ensures Leaves(Wrap(v, depth)) == Leaves(v)
  {
    if depth > 0 {
      LeavesWrap(v, depth - 1);
      var inner := Wrap(v, depth - 1);
      assert Wrap(v, depth) == Arr([inner]);
      assert [inner][1..] == [];
      assert LeavesOf([inner]) == Leaves(inner) + LeavesOf([]);
    }
  }

  /** ...and therefore does not change what `flatten` returns. */
  lemma FlatWrap(v: Value, depth: nat)
    ensures Flat(Wrap(v, depth)) == Flat(v)
  {
    LeavesWrap(v, depth);
  }

  /** A non-array value wrapped to any depth flattens to itself. */
  lemma FlatWrappedLeaf(v: Value, depth: nat)
    requires !v.Arr?
    ensures Flat(Wrap(v, depth)) == Val(v)
  {
    FlatWrap(v, depth);
  }

  /** The leaves are already flat: flattening them again yields them
      unchanged. */
  lemma {:induction false} LeavesIdempotent(vs: seq<Value>)
    requires forall i :: 0 <= i < |vs| ==> !vs[i].Arr?
    ensures LeavesOf(vs) == vs
    decreases |vs|
  {
    if vs != [] {
      LeavesIdempotent(vs[1..]);
      assert [vs[0]] + vs[1..] == vs;
    }
  }

  /** Flattening an array of leaves collapses it iff it has exactly one
      element; otherwise the whole list comes back, neither truncated nor
      reordered. */
  lemma FlatOfLeaves(vs: seq<Value>)
    requires forall i :: 0 <= i < |vs| ==> !vs[i].Arr?
    ensures |vs| == 1 ==> Flat(Arr(vs)) == Val(vs[0])
    ensures |vs| != 1 ==> Flat(Arr(vs)) == List(vs)
  {
    LeavesIdempotent(vs);
  }

  /** Flattening twice: the list `flatten` returns, seen again as an array,
      flattens to the same list. */
  lemma FlatIdempotent(v: Value)
    ensures Flat(v).List? ==> Flat(Arr(Flat(v).vs)) == Flat(v)
  {
    var r := Leaves(v);
    if |r| != 1 {
      FlatOfLeaves(r);
    }
  }
}
