/** Swift's `map`, `compactMap` and `remove(at:)` on arrays, with what they preserve. */
module Sequences {
  import opened Wrappers

  function Map<A, B>(xs: seq<A>, g: A -> B): (r: seq<B>)
    ensures |r| == |xs|
    ensures forall i :: 0 <= i < |xs| ==> r[i] == g(xs[i])
  {
    seq(|xs|, i requires 0 <= i < |xs| => g(xs[i]))
  }

  /** What `compactMap` keeps of one element: its result if present, nothing otherwise. */
  function Kept<A, B>(f: A -> Option<B>, x: A): (r: seq<B>)
    ensures |r| <= 1
  {
    match f(x)
    case Some(y) => [y]
    case None => []
  }

  /** Keeps the results of `f` that are present, in order. */
  function CompactMap<A, B>(xs: seq<A>, f: A -> Option<B>): (r: seq<B>)
    ensures |r| <= |xs|
  {
    if xs == [] then [] else Kept(f, xs[0]) + CompactMap(xs[1..], f)
  }

  /**
   * `r` is what `f` keeps of `xs`, in order: `idx` lists, strictly
   * increasing, the positions of `xs` that `f` accepts, every such
   * position occurs in it, and `r[k]` is what `f` made of `xs[idx[k]]`.
   */
  ghost predicate Selects<A, B>(xs: seq<A>, f: A -> Option<B>, r: seq<B>, idx: seq<int>) {
    && |idx| == |r|
    && PicksFrom(xs, f, r, idx)
    && Increasing(idx)
    && CoversAccepted(xs, f, idx)
  }

  /** `r[k]` is what `f` made of `xs[idx[k]]`. */
  ghost predicate PicksFrom<A, B>(xs: seq<A>, f: A -> Option<B>, r: seq<B>, idx: seq<int>)
    requires |idx| == |r|
  {
    forall k :: 0 <= k < |idx| ==> 0 <= idx[k] < |xs| && f(xs[idx[k]]) == Some(r[k])
  }

  ghost predicate Increasing(idx: seq<int>) {
    forall k, l :: 0 <= k < l < |idx| ==> idx[k] < idx[l]
  }

  /** Every position of `xs` that `f` accepts occurs in `idx`. */
  ghost predicate CoversAccepted<A, B>(xs: seq<A>, f: A -> Option<B>, idx: seq<int>) {
    forall j :: 0 <= j < |xs| && f(xs[j]).Some? ==> j in idx
  }

  function Shift(idx: seq<int>): (r: seq<int>)
    ensures |r| == |idx|
    ensures forall k :: 0 <= k < |idx| ==> r[k] == idx[k] + 1
  {
    seq(|idx|, k requires 0 <= k < |idx| => idx[k] + 1)
  }

  /** What `f` picks from `xs[1..]` at `idx`, it picks from `xs` one place on. */
  lemma PicksFromCons<A, B>(xs: seq<A>, f: A -> Option<B>, r: seq<B>, idx: seq<int>)
    requires xs != [] && |idx| == |r| && PicksFrom(xs[1..], f, r, idx)
    ensures PicksFrom(xs, f, Kept(f, xs[0]) + r, (if f(xs[0]).Some? then [0] else []) + Shift(idx))
  {
    var r', idx' := Kept(f, xs[0]) + r, (if f(xs[0]).Some? then [0] else []) + Shift(idx);
    var h := if f(xs[0]).Some? then 1 else 0;
    assert |Kept(f, xs[0])| == h;
    forall k | 0 <= k < |idx'| ensures 0 <= idx'[k] < |xs| && f(xs[idx'[k]]) == Some(r'[k]) {
      if k >= h {
        assert idx'[k] == idx[k - h] + 1 && r'[k] == r[k - h];
        assert xs[idx'[k]] == xs[1..][idx[k - h]];
      }
    }
  }

  /** Moving increasing non-negative positions one place on, after an optional `0`, keeps them increasing. */
  lemma IncreasingCons(h: bool, idx: seq<int>)
    requires Increasing(idx) && forall k :: 0 <= k < |idx| ==> 0 <= idx[k]
    ensures Increasing((if h then [0] else []) + Shift(idx))
  {
    var idx' := (if h then [0] else []) + Shift(idx);
    var n := if h then 1 else 0;
    forall k, l | 0 <= k < l < |idx'| ensures idx'[k] < idx'[l] {
      assert idx'[l] == idx[l - n] + 1;
      if k >= n {
        assert idx'[k] == idx[k - n] + 1;
      }
    }
  }

  /** Positions `f` accepts in `xs[1..]` are covered one place on in `xs`, and `0` by the head. */
  lemma CoversAcceptedCons<A, B>(xs: seq<A>, f: A -> Option<B>, idx: seq<int>)
    requires xs != [] && CoversAccepted(xs[1..], f, idx)
    ensures CoversAccepted(xs, f, (if f(xs[0]).Some? then [0] else []) + Shift(idx))
  {
    var idx' := (if f(xs[0]).Some? then [0] else []) + Shift(idx);
    var h := if f(xs[0]).Some? then 1 else 0;
    forall j | 0 <= j < |xs| && f(xs[j]).Some? ensures j in idx' {
      if j > 0 {
        assert xs[j] == xs[1..][j - 1];
        var k :| 0 <= k < |idx| && idx[k] == j - 1;
        assert idx'[k + h] == j;
      }
    }
  }

  /** `compactMap` keeps exactly the accepted elements, in their original order. */
  lemma {:induction false} CompactMapSelects<A, B>(xs: seq<A>, f: A -> Option<B>)
    ensures exists idx :: Selects(xs, f, CompactMap(xs, f), idx)
  {
    if xs == [] {
      assert CompactMap(xs, f) == [];
      assert Selects(xs, f, CompactMap(xs, f), []);
    } else {
      CompactMapSelects(xs[1..], f);
      var r := CompactMap(xs[1..], f);
      var idx :| Selects(xs[1..], f, r, idx);
      var idx' := (if f(xs[0]).Some? then [0] else []) + Shift(idx);
      PicksFromCons(xs, f, r, idx);
      IncreasingCons(f(xs[0]).Some?, idx);
      CoversAcceptedCons(xs, f, idx);
      assert CompactMap(xs, f) == Kept(f, xs[0]) + r;
      assert Selects(xs, f, CompactMap(xs, f), idx');
    }
  }

  /** The positions of `xs` that `f` accepts. */
  ghost function AcceptedPositions<A, B>(xs: seq<A>, f: A -> Option<B>): set<int> {
    set j | 0 <= j < |xs| && f(xs[j]).Some?
  }

  /** Strictly increasing positions are pairwise distinct, so there are as many of them as entries. */
  lemma {:induction false} IncreasingHasDistinctEntries(idx: seq<int>)
    requires Increasing(idx)
    ensures |set k | k in idx| == |idx|
  {
    if idx != [] {
      IncreasingHasDistinctEntries(idx[1..]);
      assert (set k | k in idx) == (set k | k in idx[1..]) + {idx[0]};
      assert idx[0] !in idx[1..] by {
        forall k | 0 <= k < |idx[1..]| ensures idx[1..][k] != idx[0] {
          assert idx[1..][k] == idx[k + 1];
        }
      }
    }
  }

  /** The positions a selection lists are exactly the accepted ones. */
  lemma SelectedAreAccepted<A, B>(xs: seq<A>, f: A -> Option<B>, r: seq<B>, idx: seq<int>)
    requires Selects(xs, f, r, idx)
    ensures (set k | k in idx) == AcceptedPositions(xs, f)
  {
    forall j | j in idx ensures j in AcceptedPositions(xs, f) {
      var k :| 0 <= k < |idx| && idx[k] == j;
      assert 0 <= idx[k] < |xs| && f(xs[idx[k]]) == Some(r[k]);
    }
  }

  /** `compactMap` yields one element per accepted input: its length counts the accepted positions. */
  lemma CompactMapLength<A, B>(xs: seq<A>, f: A -> Option<B>)
    ensures |CompactMap(xs, f)| == |AcceptedPositions(xs, f)|
  {
    var r := CompactMap(xs, f);
    CompactMapSelects(xs, f);
    var idx :| Selects(xs, f, r, idx);
    IncreasingHasDistinctEntries(idx);
    SelectedAreAccepted(xs, f, r, idx);
  }

  lemma {:induction false} CompactMapAppend<A, B>(xs: seq<A>, ys: seq<A>, f: A -> Option<B>)
    ensures CompactMap(xs + ys, f) == CompactMap(xs, f) + CompactMap(ys, f)
  {
    if xs == [] {
      assert xs + ys == ys;
    } else {
      assert (xs + ys)[0] == xs[0];
      assert (xs + ys)[1..] == xs[1..] + ys;
      CompactMapAppend(xs[1..], ys, f);
    }
  }

  /** Decoding what was encoded keeps everything: `compactMap` undoes a `map` that it inverts. */
  lemma {:induction false} CompactMapOfMap<A, B>(xs: seq<A>, g: A -> B, f: B -> Option<A>)
    requires forall x :: f(g(x)) == Some(x)
    ensures CompactMap(Map(xs, g), f) == xs
  {
    if xs != [] {
      assert Map(xs, g)[1..] == Map(xs[1..], g);
      CompactMapOfMap(xs[1..], g, f);
    }
  }

  /** `s.remove(at: i)`. */
  function RemoveAt<T>(s: seq<T>, i: nat): (r: seq<T>)
    requires i < |s|
    ensures |r| == |s| - 1
    ensures forall k :: 0 <= k < i ==> r[k] == s[k]
    ensures forall k :: i <= k < |r| ==> r[k] == s[k + 1]
    ensures multiset(r) + multiset{s[i]} == multiset(s)
  {
    assert s == s[..i] + [s[i]] + s[i + 1..];
    s[..i] + s[i + 1..]
  }

  /** Removing a later element leaves the head in front. */
  lemma RemoveAtTail<T>(s: seq<T>, i: nat)
    requires 0 < i < |s|
    ensures RemoveAt(s, i) == [s[0]] + RemoveAt(s[1..], i - 1)
  {
    var r, r' := RemoveAt(s, i), [s[0]] + RemoveAt(s[1..], i - 1);
    forall k | 0 <= k < |r| ensures r[k] == r'[k] {
      if k > 0 {
        assert r'[k] == RemoveAt(s[1..], i - 1)[k - 1];
      }
    }
  }
}
