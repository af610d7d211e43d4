/** Sequence combinators behind the pipeline's "keep what worked, in order"
    loops, with the facts the stages rely on. */
module Seqs {
  import opened Common

  /** `[x for x in xs if p(x)]`. */
  function Filter<T(!new)>(xs: seq<T>, p: T -> bool): (r: seq<T>)
    ensures |r| <= |xs|
    ensures forall x :: x in r <==> x in xs && p(x)
  {
    if xs == [] then []
    else
      var init := xs[..|xs| - 1];
      var last := xs[|xs| - 1];
      assert xs == init + [last];
      Filter(init, p) + (if p(last) then [last] else [])
  }

  lemma {:induction false} FilterMultiset<T(!new)>(xs: seq<T>, p: T -> bool, x: T)
    ensures multiset(Filter(xs, p))[x] == if p(x) then multiset(xs)[x] else 0
  {
    if xs != [] {
      var init := xs[..|xs| - 1];
      assert xs == init + [xs[|xs| - 1]];
      FilterMultiset(init, p, x);
    }
  }

  /** One step of a skip-and-continue loop: what an item yields, if anything. */
  function Emit<B>(o: Option<B>): seq<B> {
    if o.Some? then [o.value] else []
  }

  /** The values `f` yields over `xs`, in order; items for which `f` yields
      nothing are skipped and the rest carry on. */
  function FilterMap<A, B>(xs: seq<A>, f: A -> Option<B>): (r: seq<B>)
    ensures |r| <= |xs|
  {
    if xs == [] then [] else FilterMap(xs[..|xs| - 1], f) + Emit(f(xs[|xs| - 1]))
  }

  /** The positions of `xs` at which `f` yields a value, ascending. */
  function KeptIndices<A, B>(xs: seq<A>, f: A -> Option<B>): (r: seq<nat>)
    ensures forall k :: 0 <= k < |r| ==> r[k] < |xs|
    ensures forall k, l :: 0 <= k < l < |r| ==> r[k] < r[l]
    ensures forall i :: 0 <= i < |xs| ==> (i in r <==> f(xs[i]).Some?)
  {
    if xs == [] then []
    else
      var init := xs[..|xs| - 1];
      assert forall i :: 0 <= i < |init| ==> init[i] == xs[i];
      KeptIndices(init, f) + (if f(xs[|xs| - 1]).Some? then [|xs| - 1] else [])
  }

  /** The output of a skip-and-continue loop is an order-preserving
      subsequence of its input: its k-th element is what `f` yields at the
      k-th kept position, and every position where `f` yields is kept. */
  lemma {:induction false} FilterMapKept<A, B>(xs: seq<A>, f: A -> Option<B>)
    ensures |KeptIndices(xs, f)| == |FilterMap(xs, f)|
    ensures forall k :: 0 <= k < |FilterMap(xs, f)| ==>
      f(xs[KeptIndices(xs, f)[k]]) == Some(FilterMap(xs, f)[k])
  {
    if xs != [] {
      var init := xs[..|xs| - 1];
      var last := xs[|xs| - 1];
      FilterMapKept(init, f);
      var ki := KeptIndices(init, f);
      var fm := FilterMap(init, f);
      var idx := KeptIndices(xs, f);
      var out := FilterMap(xs, f);
      assert idx == ki + (if f(last).Some? then [|xs| - 1] else []);
      assert out == fm + Emit(f(last));
      forall k | 0 <= k < |out|
        ensures f(xs[idx[k]]) == Some(out[k])
      {
        if k < |fm| {
          assert idx[k] == ki[k] && out[k] == fm[k];
          assert init[ki[k]] == xs[ki[k]];
        }
      }
    }
  }

  /** Skipping is local: one item's failure does not affect the others. */
  lemma {:induction false} FilterMapAppend<A, B>(xs: seq<A>, ys: seq<A>, f: A -> Option<B>)
    ensures FilterMap(xs + ys, f) == FilterMap(xs, f) + FilterMap(ys, f)
  {
    if ys != [] {
      var ys' := ys[..|ys| - 1];
      var last := ys[|ys| - 1];
      assert (xs + ys)[..|xs + ys| - 1] == xs + ys';
      assert (xs + ys)[|xs + ys| - 1] == last;
      FilterMapAppend(xs, ys', f);
      calc {
        FilterMap(xs + ys, f);
        FilterMap(xs + ys', f) + Emit(f(last));
        FilterMap(xs, f) + FilterMap(ys', f) + Emit(f(last));
        FilterMap(xs, f) + (FilterMap(ys', f) + Emit(f(last)));
        FilterMap(xs, f) + FilterMap(ys, f);
      }
    } else {
      assert xs + ys == xs;
    }
  }

  /** The output is empty exactly when no item yields. */
  lemma {:induction false} FilterMapEmpty<A, B>(xs: seq<A>, f: A -> Option<B>)
    ensures FilterMap(xs, f) == [] <==> forall i :: 0 <= i < |xs| ==> f(xs[i]).None?
  {
    if xs != [] {
      var init := xs[..|xs| - 1];
      assert forall i :: 0 <= i < |init| ==> init[i] == xs[i];
      FilterMapEmpty(init, f);
    }
  }

  /** When every item yields, nothing is skipped. */
  lemma {:induction false} FilterMapTotal<A, B>(xs: seq<A>, f: A -> Option<B>)
    requires forall i :: 0 <= i < |xs| ==> f(xs[i]).Some?
    ensures |FilterMap(xs, f)| == |xs|
    ensures forall k :: 0 <= k < |xs| ==> f(xs[k]) == Some(FilterMap(xs, f)[k])
  {
    if xs != [] {
      var init := xs[..|xs| - 1];
      assert forall i :: 0 <= i < |init| ==> init[i] == xs[i];
      FilterMapTotal(init, f);
    }
  }

  /** Concatenation of a sequence of sequences, left to right. */
  function Flatten<T>(ss: seq<seq<T>>): seq<T> {
    if ss == [] then [] else Flatten(ss[..|ss| - 1]) + ss[|ss| - 1]
  }

  lemma FlattenSnoc<T>(ss: seq<seq<T>>, s: seq<T>)
    ensures Flatten(ss + [s]) == Flatten(ss) + s
  {
    assert (ss + [s])[..|ss|] == ss;
  }

  /** Appending one step's output to a concatenation. */
  lemma FlattenEmit<T>(ss: seq<seq<T>>, o: Option<seq<T>>)
    ensures Flatten(ss + Emit(o)) == Flatten(ss) + (if o.Some? then o.value else [])
  {
    if o.Some? {
      FlattenSnoc(ss, o.value);
    } else {
      assert ss + Emit(o) == ss;
    }
  }

  function SumLengths<T>(ss: seq<seq<T>>): nat {
    if ss == [] then 0 else SumLengths(ss[..|ss| - 1]) + |ss[|ss| - 1]|
  }

  lemma {:induction false} FlattenLength<T>(ss: seq<seq<T>>)
    ensures |Flatten(ss)| == SumLengths(ss)
  {
    if ss != [] {
      FlattenLength(ss[..|ss| - 1]);
    }
  }

  /** If every part has length `n`, the whole has `|ss| * n`. */
  lemma {:induction false} SumLengthsUniform<T>(ss: seq<seq<T>>, n: nat)
    requires forall i :: 0 <= i < |ss| ==> |ss[i]| == n
    ensures SumLengths(ss) == |ss| * n
  {
    if ss != [] {
      var init := ss[..|ss| - 1];
      assert forall i :: 0 <= i < |init| ==> init[i] == ss[i];
      SumLengthsUniform(init, n);
    }
  }

  /** `[f(x) for x in xs]`. */
  function Map<A, B>(xs: seq<A>, f: A -> B): (r: seq<B>)
    ensures |r| == |xs|
    ensures forall i :: 0 <= i < |xs| ==> r[i] == f(xs[i])
  {
    if xs == [] then [] else [f(xs[0])] + Map(xs[1..], f)
  }
}
