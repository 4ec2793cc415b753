/** The array pipeline operations the service chains together
    (`Array.prototype.map` and `filter`), and a one-pass filter-map that
    serves as their reference: a chain of them is proved equal to one
    `FilterMap`, whose order and multiplicity are then stated once. */
module Seqs {
  import opened Wrappers

  /** `xs.map(f)`. */
  function Map<A, B>(xs: seq<A>, f: A -> B): (r: seq<B>)
    ensures |r| == |xs|
    ensures forall i :: 0 <= i < |xs| ==> r[i] == f(xs[i])
  {
    if xs == [] then [] else [f(xs[0])] + Map(xs[1..], f)
  }

  /** `xs.filter(p)`. */
  function Filter<A>(xs: seq<A>, p: A -> bool): (r: seq<A>)
    ensures |r| <= |xs|
    ensures forall i :: 0 <= i < |r| ==> p(r[i]) && r[i] in xs
  {
    if xs == [] then [] else (if p(xs[0]) then [xs[0]] else []) + Filter(xs[1..], p)
  }

  /** `xs.filter((x): x is B => x !== null && p(x))`: the values that are
      present and pass `p`, with the optional wrapper removed. */
  function Keep<B>(xs: seq<Option<B>>, p: B -> bool): (r: seq<B>)
    ensures |r| <= |xs|
    ensures forall i :: 0 <= i < |r| ==> p(r[i]) && Some(r[i]) in xs
  {
    if xs == [] then []
    else (if xs[0].Some? && p(xs[0].value) then [xs[0].value] else []) + Keep(xs[1..], p)
  }

  /** The reference: each element contributes `f`'s value when there is one. */
  function FilterMap<A, B>(xs: seq<A>, f: A -> Option<B>): seq<B>
  {
    if xs == [] then [] else (if f(xs[0]).Some? then [f(xs[0]).value] else []) + FilterMap(xs[1..], f)
  }

  /** How many elements of `xs` have a value under `f`. */
  function CountSome<A, B>(xs: seq<A>, f: A -> Option<B>): nat
  {
    if xs == [] then 0 else (if f(xs[0]).Some? then 1 else 0) + CountSome(xs[1..], f)
  }

  lemma FilterMapCons<A, B>(x: A, xs: seq<A>, f: A -> Option<B>)
    ensures FilterMap([x] + xs, f) == (if f(x).Some? then [f(x).value] else []) + FilterMap(xs, f)
  {
    assert ([x] + xs)[1..] == xs;
  }

  /** `map`, then `filter`, then `map` is one filter-map pass. */
  lemma {:induction false} MapFilterMapFusion<A, B, C>(xs: seq<A>, g: A -> B, p: B -> bool, h: B -> C, f: A -> Option<C>)
    requires forall x :: f(x) == if p(g(x)) then Some(h(g(x))) else None
    ensures Map(Filter(Map(xs, g), p), h) == FilterMap(xs, f)
  {
    if xs != [] {
      MapFilterMapFusion(xs[1..], g, p, h, f);
      var ys := Map(xs, g);
      assert ys[1..] == Map(xs[1..], g);
      var head := if p(ys[0]) then [ys[0]] else [];
      assert Filter(ys, p) == head + Filter(ys[1..], p);
      MapAppend(head, Filter(ys[1..], p), h);
    }
  }

  /** `map`, then a type-guarded `filter`, is one filter-map pass. */
  lemma {:induction false} MapKeepFusion<A, B>(xs: seq<A>, g: A -> Option<B>, p: B -> bool, f: A -> Option<B>)
    requires forall x :: f(x) == if g(x).Some? && p(g(x).value) then g(x) else None
    ensures Keep(Map(xs, g), p) == FilterMap(xs, f)
  {
    if xs != [] {
      MapKeepFusion(xs[1..], g, p, f);
      assert Map(xs, g)[1..] == Map(xs[1..], g);
    }
  }

  lemma {:induction false} MapAppend<B, C>(a: seq<B>, b: seq<B>, h: B -> C)
    ensures Map(a + b, h) == Map(a, h) + Map(b, h)
  {
  }

  /** The pass never grows the list; its length is the count of kept
      elements. */
  lemma {:induction false} FilterMapLength<A, B>(xs: seq<A>, f: A -> Option<B>)
    ensures |FilterMap(xs, f)| == CountSome(xs, f) <= |xs|
  {
    if xs != [] {
      FilterMapLength(xs[1..], f);
    }
  }

  lemma {:induction false} CountSomePrefix<A, B>(xs: seq<A>, f: A -> Option<B>, i: nat)
    requires i < |xs|
    ensures CountSome(xs[..i + 1], f) == CountSome(xs[..i], f) + (if f(xs[i]).Some? then 1 else 0)
    decreases i
  {
    if i > 0 {
      assert xs[..i + 1][1..] == xs[1..][..i];
      assert xs[..i][1..] == xs[1..][..i - 1];
      CountSomePrefix(xs[1..], f, i - 1);
    }
  }

  /** Order and multiplicity: an element with a value contributes exactly
      that value, at the position given by how many earlier elements
      contributed. `CountSomeMonotone` shows these positions increase with
      the element's index. */
  lemma {:induction false} FilterMapAt<A, B>(xs: seq<A>, f: A -> Option<B>, i: nat)
    requires i < |xs| && f(xs[i]).Some?
    ensures CountSome(xs[..i], f) < |FilterMap(xs, f)|
    ensures FilterMap(xs, f)[CountSome(xs[..i], f)] == f(xs[i]).value
    decreases i
  {
    FilterMapLength(xs, f);
    var head := if f(xs[0]).Some? then [f(xs[0]).value] else [];
    if i == 0 {
      assert xs[..0] == [];
    } else {
      FilterMapAt(xs[1..], f, i - 1);
      assert xs[..i][1..] == xs[1..][..i - 1];
      assert FilterMap(xs, f) == head + FilterMap(xs[1..], f);
    }
  }

  /** A later contributing element lands at a later position: the number
      of contributors before `j` exceeds the number before an earlier
      contributor `i`. */
  lemma {:induction false} CountSomeMonotone<A, B>(xs: seq<A>, f: A -> Option<B>, i: nat, j: nat)
    requires i < j <= |xs| && f(xs[i]).Some?
    ensures CountSome(xs[..i], f) < CountSome(xs[..j], f)
    decreases j - i
  {
    CountSomePrefix(xs, f, j - 1);
    if j - 1 > i {
      CountSomeMonotone(xs, f, i, j - 1);
    }
  }

  /** Conversely, every output element is the value of some input element,
      at the position `FilterMapAt` assigns it. */
  lemma {:induction false} FilterMapFrom<A, B>(xs: seq<A>, f: A -> Option<B>, k: nat)
    requires k < |FilterMap(xs, f)|
    ensures exists i :: 0 <= i < |xs| && f(xs[i]) == Some(FilterMap(xs, f)[k]) && CountSome(xs[..i], f) == k
    decreases |xs|
  {
    var r := FilterMap(xs, f);
    var head := if f(xs[0]).Some? then [f(xs[0]).value] else [];
    assert r == head + FilterMap(xs[1..], f);
    if f(xs[0]).Some? && k == 0 {
      assert xs[..0] == [];
      assert f(xs[0]) == Some(r[0]);
    } else {
      var k' := if f(xs[0]).Some? then k - 1 else k;
      FilterMapFrom(xs[1..], f, k');
      var j :| 0 <= j < |xs[1..]| && f(xs[1..][j]) == Some(FilterMap(xs[1..], f)[k']) && CountSome(xs[1..][..j], f) == k';
      assert xs[..j + 1][1..] == xs[1..][..j];
      assert f(xs[j + 1]) == Some(r[k]) && CountSome(xs[..j + 1], f) == k;
    }
  }

  /** A property of every value `f` produces holds of every output element. */
  lemma FilterMapAll<A, B>(xs: seq<A>, f: A -> Option<B>, P: B -> bool)
    requires forall x :: f(x).Some? ==> P(f(x).value)
    ensures forall k :: 0 <= k < |FilterMap(xs, f)| ==> P(FilterMap(xs, f)[k])
  {
    forall k | 0 <= k < |FilterMap(xs, f)|
      ensures P(FilterMap(xs, f)[k])
    {
      FilterMapFrom(xs, f, k);
    }
  }
}
