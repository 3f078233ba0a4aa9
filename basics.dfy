/** Small generic building blocks shared by every other module: an optional
    value (Python's `None`), flattening a list of line blocks, and counting
    list elements. */
module Basics {

  datatype Option<+T> = None | Some(value: T)

  /** Python truthiness of an `Optional[str]`: present and non-empty. */
  predicate Truthy(o: Option<string>) {
    o.Some? && o.value != ""
  }

  /** Python's `f"{x}"` of an `Optional[str]`. */
  function Show(o: Option<string>): (r: string)
    ensures o.Some? ==> r == o.value
  {
    if o.Some? then o.value else "None"
  }

  /** Python's `a or b` on two `Optional[str]`: `a` when truthy, otherwise `b`. */
  function Or(a: Option<string>, b: Option<string>): (r: Option<string>)
    ensures Truthy(a) ==> r == a
    ensures !Truthy(a) ==> r == b
  {
    if Truthy(a) then a else b
  }

  /** Concatenation of a list of blocks, peeled from the end so that it
      grows the way a list does when a loop appends to it. */
  function Flatten<T>(blocks: seq<seq<T>>): seq<T>
  {
    if blocks == [] then [] else Flatten(blocks[..|blocks| - 1]) + blocks[|blocks| - 1]
  }

  lemma FlattenSnoc<T>(blocks: seq<seq<T>>, b: seq<T>)
    ensures Flatten(blocks + [b]) == Flatten(blocks) + b
  {
    assert (blocks + [b])[..|blocks|] == blocks;
  }

  lemma {:induction false} FlattenAppend<T>(a: seq<seq<T>>, b: seq<seq<T>>)
    ensures Flatten(a + b) == Flatten(a) + Flatten(b)
    decreases |b|
  {
    if b == [] {
      assert a + b == a;
    } else {
      var b' := b[..|b| - 1];
      assert a + b == (a + b') + [b[|b| - 1]];
      FlattenSnoc(a + b', b[|b| - 1]);
      FlattenAppend(a, b');
      FlattenSnoc(b', b[|b| - 1]);
      assert b == b' + [b[|b| - 1]];
    }
  }

  /** Number of elements of `s` equal to `x`. */
  function Count<T(==)>(s: seq<T>, x: T): nat
  {
    if s == [] then 0 else Count(s[..|s| - 1], x) + (if s[|s| - 1] == x then 1 else 0)
  }

  lemma {:induction false} CountAppend<T>(a: seq<T>, b: seq<T>, x: T)
    ensures Count(a + b, x) == Count(a, x) + Count(b, x)
    decreases |b|
  {
    if b == [] {
      assert a + b == a;
    } else {
      var b' := b[..|b| - 1];
      assert (a + b)[..|a + b| - 1] == a + b';
      CountAppend(a, b', x);
    }
  }

  lemma {:induction false} CountAbsent<T>(s: seq<T>, x: T)
    requires x !in s
    ensures Count(s, x) == 0
    decreases |s|
  {
    if s != [] {
      assert forall y :: y in s[..|s| - 1] ==> y in s;
      CountAbsent(s[..|s| - 1], x);
    }
  }

  /** The lines of a listing that satisfy `keep`, in order. */
  function FilterLines(lines: seq<string>, keep: string -> bool): (r: seq<string>)
    ensures |r| <= |lines|
    ensures forall l :: l in r ==> l in lines && keep(l)
  {
    if lines == [] then []
    else
      var init := FilterLines(lines[..|lines| - 1], keep);
      var last := lines[|lines| - 1];
      if keep(last) then init + [last] else init
  }

  lemma {:induction false} FilterLinesAppend(a: seq<string>, b: seq<string>, keep: string -> bool)
    ensures FilterLines(a + b, keep) == FilterLines(a, keep) + FilterLines(b, keep)
    decreases |b|
  {
    if b == [] {
      assert a + b == a;
    } else {
      var b' := b[..|b| - 1];
      assert (a + b)[..|a + b| - 1] == a + b';
      FilterLinesAppend(a, b', keep);
    }
  }

  /** `f` applied to each element of `xs`, built from the end as a loop
      that appends one result per element. */
  function MapSeq<T, U>(xs: seq<T>, f: T -> U): (r: seq<U>)
    ensures |r| == |xs|
    decreases |xs|
  {
    if xs == [] then [] else MapSeq(xs[..|xs| - 1], f) + [f(xs[|xs| - 1])]
  }

  /** Element `i` of the mapped sequence is `f` of element `i`. */
  lemma {:induction false} MapSeqAt<T, U>(xs: seq<T>, f: T -> U, i: nat)
    requires i < |xs|
    ensures MapSeq(xs, f)[i] == f(xs[i])
    decreases |xs|
  {
    var init := xs[..|xs| - 1];
    if i < |init| {
      MapSeqAt(init, f, i);
      assert init[i] == xs[i];
    }
  }

  /** Appending `f` of the next element keeps a prefix of results
      pointwise equal to `f` of the inputs. */
  lemma SnocPointwise<T, U>(ys: seq<U>, xs: seq<T>, f: T -> U, i: nat, y: U)
    requires i < |xs| && |ys| == i && y == f(xs[i])
    requires forall k :: 0 <= k < i ==> ys[k] == f(xs[k])
    ensures |ys + [y]| == i + 1
    ensures forall k :: 0 <= k < i + 1 ==> (ys + [y])[k] == f(xs[k])
  {
  }

  /** The present results of `f` over `xs`, in order: a loop that appends
      only when a lookup succeeds. */
  function Collect<T, U>(xs: seq<T>, f: T -> Option<U>): (r: seq<U>)
    ensures |r| <= |xs|
    decreases |xs|
  {
    if xs == [] then []
    else
      var y := f(xs[|xs| - 1]);
      Collect(xs[..|xs| - 1], f) + if y.Some? then [y.value] else []
  }

  lemma {:induction false} CollectMembers<T, U>(xs: seq<T>, f: T -> Option<U>, y: U)
    ensures y in Collect(xs, f) <==> exists i :: 0 <= i < |xs| && f(xs[i]) == Some(y)
    decreases |xs|
  {
    if xs != [] {
      var init := xs[..|xs| - 1];
      CollectMembers(init, f, y);
      assert forall i :: 0 <= i < |init| ==> init[i] == xs[i];
      if y in Collect(xs, f) && y !in Collect(init, f) {
        assert f(xs[|xs| - 1]) == Some(y);
      }
    }
  }

  lemma {:induction false} CollectAll<T, U>(xs: seq<T>, f: T -> Option<U>)
    requires forall i :: 0 <= i < |xs| ==> f(xs[i]).Some?
    ensures |Collect(xs, f)| == |xs|
    ensures forall i :: 0 <= i < |xs| ==> Collect(xs, f)[i] == f(xs[i]).value
    decreases |xs|
  {
    if xs != [] {
      var init := xs[..|xs| - 1];
      assert forall i :: 0 <= i < |init| ==> init[i] == xs[i];
      CollectAll(init, f);
    }
  }
}
