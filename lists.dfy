/** Order-preserving filtering, the shape of every "append if it passes" loop in the pipeline. */
module Lists {
  import opened Wrappers

  /** The values `f` yields for the elements of `s`, in order, skipping the elements it rejects. */
  function FilterMap<T, U>(s: seq<T>, f: T -> Option<U>): (r: seq<U>)
    ensures |r| <= |s|
  {
    if s == [] then []
    else FilterMap(s[..|s| - 1], f) + match f(s[|s| - 1]) case Some(u) => [u] case None => []
  }

  /** Filtering one more element appends what `f` yields for it. */
  lemma FilterMapStep<T, U>(s: seq<T>, f: T -> Option<U>, i: nat)
    requires i < |s|
    ensures FilterMap(s[..i + 1], f) == FilterMap(s[..i], f) + match f(s[i]) case Some(u) => [u] case None => []
  {
    assert s[..i + 1][..i] == s[..i];
    assert s[..i + 1][i] == s[i];
  }

  /** Filtering works element by element: it distributes over concatenation. */
  lemma {:induction false} FilterMapAppend<T, U>(a: seq<T>, b: seq<T>, f: T -> Option<U>)
    ensures FilterMap(a + b, f) == FilterMap(a, f) + FilterMap(b, f)
  {
    if b == [] {
      assert a + b == a;
    } else {
      FilterMapAppend(a, b[..|b| - 1], f);
      assert (a + b)[..|a + b| - 1] == a + b[..|b| - 1];
    }
  }

  /** Nothing is dropped exactly when every element is accepted, and then the result is pointwise. */
  lemma {:induction false} FilterMapKeepsAll<T, U>(s: seq<T>, f: T -> Option<U>)
    ensures (|FilterMap(s, f)| == |s|) <==> (forall i :: 0 <= i < |s| ==> f(s[i]).Some?)
    ensures |FilterMap(s, f)| == |s| ==> forall i :: 0 <= i < |s| ==> FilterMap(s, f)[i] == f(s[i]).value
  {
    if s != [] {
      var init := s[..|s| - 1];
      FilterMapKeepsAll(init, f);
      assert forall i :: 0 <= i < |init| ==> init[i] == s[i];
    }
  }

  /** The result is empty exactly when every element is rejected. */
  lemma {:induction false} FilterMapEmpty<T, U>(s: seq<T>, f: T -> Option<U>)
    ensures FilterMap(s, f) == [] <==> forall i :: 0 <= i < |s| ==> f(s[i]).None?
  {
    if s != [] {
      var init := s[..|s| - 1];
      FilterMapEmpty(init, f);
      assert forall i :: 0 <= i < |init| ==> init[i] == s[i];
    }
  }

  /** Every value in the result comes from some element of the input. */
  lemma {:induction false} FilterMapSource<T, U>(s: seq<T>, f: T -> Option<U>, j: nat)
    requires j < |FilterMap(s, f)|
    ensures exists i :: 0 <= i < |s| && f(s[i]) == Some(FilterMap(s, f)[j])
  {
    var init := s[..|s| - 1];
    if j < |FilterMap(init, f)| {
      FilterMapSource(init, f, j);
      var i :| 0 <= i < |init| && f(init[i]) == Some(FilterMap(init, f)[j]);
      assert f(s[i]) == Some(FilterMap(s, f)[j]);
    } else {
      assert f(s[|s| - 1]) == Some(FilterMap(s, f)[j]);
    }
  }

  /**
   * When `x` is the only element `f` maps to `u`, the result holds `u` as
   * often as `s` holds `x`; when no element maps to `u`, not at all.
   */
  lemma {:induction false} FilterMapCount<T, U>(s: seq<T>, f: T -> Option<U>, x: T, u: U)
    requires forall y :: f(y) == Some(u) ==> y == x
    ensures multiset(FilterMap(s, f))[u] == if f(x) == Some(u) then multiset(s)[x] else 0
  {
    if s != [] {
      var init, last := s[..|s| - 1], s[|s| - 1];
      FilterMapCount(init, f, x, u);
      assert s == init + [last];
      assert multiset(s) == multiset(init) + multiset{last};
      var kept := match f(last) case Some(v) => [v] case None => [];
      assert FilterMap(s, f) == FilterMap(init, f) + kept;
      assert multiset(FilterMap(s, f)) == multiset(FilterMap(init, f)) + multiset(kept);
      assert multiset(s)[x] == multiset(init)[x] + if last == x then 1 else 0;
      assert multiset(kept)[u] == if f(x) == Some(u) && last == x then 1 else 0;
    }
  }

  /** The concatenation of the pieces `f` makes of the elements of `s`, in order. */
  function ConcatMap<T, U>(s: seq<T>, f: T -> seq<U>): (r: seq<U>)
    ensures s == [] ==> r == []
  {
    if s == [] then []
    else ConcatMap(s[..|s| - 1], f) + f(s[|s| - 1])
  }

  /** The pieces of a concatenation are the pieces of its parts, in order. */
  lemma {:induction false} ConcatMapAppend<T, U>(a: seq<T>, b: seq<T>, f: T -> seq<U>)
    ensures ConcatMap(a + b, f) == ConcatMap(a, f) + ConcatMap(b, f)
  {
    if b == [] {
      assert a + b == a;
    } else {
      var init := b[..|b| - 1];
      ConcatMapAppend(a, init, f);
      assert (a + b)[..|a + b| - 1] == a + init;
      assert (a + b)[|a + b| - 1] == b[|b| - 1];
    }
  }
}
