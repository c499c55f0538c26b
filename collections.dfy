/** Kotlin's list operations the AI layer uses: `take`, `getOrNull`, `mapNotNull`, `all`. */
module Collections {
  import opened Outcomes

  /** `take(n)` for `n >= 0`: the first `n` elements, or all of them when there are fewer. */
  function Take<T>(xs: seq<T>, n: nat): (r: seq<T>)
    ensures |r| == if n < |xs| then n else |xs|
    ensures r == xs[..|r|]
  {
    if n < |xs| then xs[..n] else xs
  }

  /** `getOrNull(i)`: the element at `i`, or `null` when `i` is not an index. */
  function GetOrNull<T>(xs: seq<T>, i: int): (r: Option<T>)
    ensures r.Some? <==> 0 <= i < |xs|
    ensures r.Some? ==> r.value == xs[i]
  {
    if 0 <= i < |xs| then Some(xs[i]) else None
  }

  /** `mapIndexed(f)` over `xs[i..]`, the indices counted from 0 at the start of `xs`. */
  function MapIndexedFrom<A, B>(xs: seq<A>, i: nat, f: (nat, A) -> B): (r: seq<B>)
    requires i <= |xs|
    ensures |r| == |xs| - i
    ensures forall k :: 0 <= k < |r| ==> r[k] == f(i + k, xs[i + k])
    decreases |xs| - i
  {
    if i == |xs| then [] else [f(i, xs[i])] + MapIndexedFrom(xs, i + 1, f)
  }

  /** `mapNotNull(f)` over `xs[i..]`: the non-null images, in order. */
  function MapNotNullFrom<A, B>(xs: seq<A>, i: nat, f: A -> Option<B>): (r: seq<B>)
    requires i <= |xs|
    ensures |r| <= |xs| - i
    decreases |xs| - i
  {
    if i == |xs| then []
    else match f(xs[i])
      case None => MapNotNullFrom(xs, i + 1, f)
      case Some(y) => [y] + MapNotNullFrom(xs, i + 1, f)
  }

  function MapNotNull<A, B>(xs: seq<A>, f: A -> Option<B>): (r: seq<B>)
    ensures |r| <= |xs|
  {
    MapNotNullFrom(xs, 0, f)
  }

  /** The positions in `xs[i..]` whose image is not null. */
  function KeptFrom<A, B>(xs: seq<A>, i: nat, f: A -> Option<B>): seq<nat>
    requires i <= |xs|
    decreases |xs| - i
  {
    if i == |xs| then []
    else (if f(xs[i]).Some? then [i] else []) + KeptFrom(xs, i + 1, f)
  }

  lemma {:induction false} KeptFromBounds<A, B>(xs: seq<A>, i: nat, f: A -> Option<B>)
    requires i <= |xs|
    ensures forall k :: 0 <= k < |KeptFrom(xs, i, f)| ==> i <= KeptFrom(xs, i, f)[k] < |xs|
    ensures forall k, m :: 0 <= k < m < |KeptFrom(xs, i, f)| ==> KeptFrom(xs, i, f)[k] < KeptFrom(xs, i, f)[m]
    decreases |xs| - i
  {
    if i < |xs| {
      KeptFromBounds(xs, i + 1, f);
    }
  }

  lemma {:induction false} KeptFromComplete<A, B>(xs: seq<A>, i: nat, f: A -> Option<B>)
    requires i <= |xs|
    ensures forall j :: i <= j < |xs| && j !in KeptFrom(xs, i, f) ==> f(xs[j]).None?
    decreases |xs| - i
  {
    if i < |xs| {
      KeptFromComplete(xs, i + 1, f);
    }
  }

  lemma {:induction false} KeptFromImages<A, B>(xs: seq<A>, i: nat, f: A -> Option<B>)
    requires i <= |xs|
    ensures |KeptFrom(xs, i, f)| == |MapNotNullFrom(xs, i, f)|
    ensures forall k :: 0 <= k < |KeptFrom(xs, i, f)| ==>
      KeptFrom(xs, i, f)[k] < |xs| && f(xs[KeptFrom(xs, i, f)[k]]) == Some(MapNotNullFrom(xs, i, f)[k])
    decreases |xs| - i
  {
    if i < |xs| {
      KeptFromImages(xs, i + 1, f);
      KeptFromBounds(xs, i + 1, f);
      var r', ps' := MapNotNullFrom(xs, i + 1, f), KeptFrom(xs, i + 1, f);
      var r, ps := MapNotNullFrom(xs, i, f), KeptFrom(xs, i, f);
      if f(xs[i]).Some? {
        assert r == [f(xs[i]).value] + r';
        assert ps == [i] + ps';
        forall k | 1 <= k < |ps| ensures ps[k] < |xs| && f(xs[ps[k]]) == Some(r[k]) {
          assert ps[k] == ps'[k - 1] && r[k] == r'[k - 1];
        }
      } else {
        assert r == r' && ps == ps';
      }
    }
  }

  /**
   * What `mapNotNull` keeps: element `k` of the result is the image of
   * `xs[ps[k]]`, the positions `ps` increase strictly, and every position
   * left out has a null image.
   */
  lemma MapNotNullKeeps<A, B>(xs: seq<A>, f: A -> Option<B>)
    ensures var r, ps := MapNotNull(xs, f), KeptFrom(xs, 0, f);
      && |ps| == |r|
      && (forall k :: 0 <= k < |ps| ==> ps[k] < |xs| && f(xs[ps[k]]) == Some(r[k]))
      && (forall k, m :: 0 <= k < m < |ps| ==> ps[k] < ps[m])
      && (forall j :: 0 <= j < |xs| && j !in ps ==> f(xs[j]).None?)
  {
    KeptFromBounds(xs, 0, f);
    KeptFromComplete(xs, 0, f);
    KeptFromImages(xs, 0, f);
  }

  /** When no image is null, `mapNotNull` is a plain `map`. */
  lemma {:induction false} MapNotNullTotal<A, B>(xs: seq<A>, i: nat, f: A -> Option<B>)
    requires i <= |xs|
    requires forall j :: i <= j < |xs| ==> f(xs[j]).Some?
    ensures |MapNotNullFrom(xs, i, f)| == |xs| - i
    ensures forall k :: 0 <= k < |xs| - i ==> Some(MapNotNullFrom(xs, i, f)[k]) == f(xs[i + k])
    decreases |xs| - i
  {
    if i < |xs| {
      MapNotNullTotal(xs, i + 1, f);
      var r' := MapNotNullFrom(xs, i + 1, f);
      assert MapNotNullFrom(xs, i, f) == [f(xs[i]).value] + r';
    }
  }

  /** When every image is null, `mapNotNull` gives nothing. */
  lemma {:induction false} MapNotNullNoneFrom<A, B>(xs: seq<A>, i: nat, f: A -> Option<B>)
    requires i <= |xs|
    requires forall j :: i <= j < |xs| ==> f(xs[j]).None?
    ensures MapNotNullFrom(xs, i, f) == []
    decreases |xs| - i
  {
    if i < |xs| {
      MapNotNullNoneFrom(xs, i + 1, f);
    }
  }
}
