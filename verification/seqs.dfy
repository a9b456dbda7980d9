/** The list combinators the widgets build their results with: `Array.prototype.map`,
    `filter`, `map(...).filter(Boolean)`, `Promise.all` over a map, batches of a fixed
    size, round-robin interleaving of two lists and first-seen-wins de-duplication. */
module Seqs {
  import opened Wrappers

  // ---------------------------------------------------------------------------
  // map, filter, map-then-drop-nulls
  // ---------------------------------------------------------------------------

  /** `xs.map(f)`. */
  function Map<A, B>(xs: seq<A>, f: A -> B): (r: seq<B>)
    ensures |r| == |xs|
    ensures forall i :: 0 <= i < |xs| ==> r[i] == f(xs[i])
  {
    seq(|xs|, i requires 0 <= i < |xs| => f(xs[i]))
  }

  lemma MapConcat<A, B>(a: seq<A>, b: seq<A>, f: A -> B)
    ensures Map(a + b, f) == Map(a, f) + Map(b, f)
  {
  }

  /** Taking out the element at `k` takes one copy of it out of the multiset. */
  lemma MultisetRemove<T>(b: seq<T>, k: nat)
    requires k < |b|
    ensures multiset(b[..k] + b[k + 1..]) == multiset(b) - multiset{b[k]}
  {
    assert b == b[..k] + [b[k]] + b[k + 1..];
  }

  /** Mapping a list with the element at `k` taken out takes one copy of its image out. */
  lemma MapRemove<A, B>(b: seq<A>, k: nat, f: A -> B)
    requires k < |b|
    ensures multiset(Map(b, f)) == multiset(Map(b[..k] + b[k + 1..], f)) + multiset{f(b[k])}
  {
    var front, back := b[..k], b[k + 1..];
    assert b == front + [b[k]] + back;
    MapConcat(front + [b[k]], back, f);
    MapConcat(front, [b[k]], f);
    MapConcat(front, back, f);
    assert Map([b[k]], f) == [f(b[k])];
  }

  lemma MapCons<A, B>(xs: seq<A>, f: A -> B)
    requires xs != []
    ensures Map(xs, f) == [f(xs[0])] + Map(xs[1..], f)
  {
  }

  /** Mapping commutes with rearranging: rearranged inputs give rearranged outputs. */
  lemma {:induction false} MapMultiset<A, B>(a: seq<A>, b: seq<A>, f: A -> B)
    requires multiset(a) == multiset(b)
    ensures multiset(Map(a, f)) == multiset(Map(b, f))
    decreases |a|
  {
    if a == [] {
      assert |b| == |multiset(b)| == 0;
    } else {
      var x := a[0];
      assert exists k :: 0 <= k < |b| && b[k] == x by {
        assert x in multiset(a);
      }
      var k :| 0 <= k < |b| && b[k] == x;
      var others := b[..k] + b[k + 1..];
      assert multiset(a[1..]) == multiset(others) by {
        MultisetOfCons(a);
        MultisetRemove(b, k);
      }
      MapMultiset(a[1..], others, f);
      MapRemove(b, k, f);
      MapCons(a, f);
    }
  }

  /** `xs.filter(p)`. */
  function Filter<T>(xs: seq<T>, p: T -> bool): (r: seq<T>)
    ensures |r| <= |xs|
    ensures forall x :: x in r ==> x in xs && p(x)
    ensures forall x :: x in xs && p(x) ==> x in r
    decreases |xs|
  {
    if xs == [] then [] else (if p(xs[0]) then [xs[0]] else []) + Filter(xs[1..], p)
  }

  /** Filtering keeps the relative order: filtering a concatenation filters each part in place. */
  lemma {:induction false} FilterConcat<T>(a: seq<T>, b: seq<T>, p: T -> bool)
    ensures Filter(a + b, p) == Filter(a, p) + Filter(b, p)
    decreases |a|
  {
    if a != [] {
      assert (a + b)[0] == a[0];
      assert (a + b)[1..] == a[1..] + b;
      FilterConcat(a[1..], b, p);
    } else {
      assert a + b == b;
    }
  }

  /** `xs.map(f).filter(Boolean)` where `f` answers `null` for the elements it drops. */
  function FilterMap<A, B>(xs: seq<A>, f: A -> Option<B>): (r: seq<B>)
    ensures |r| <= |xs|
    ensures forall y :: y in r ==> exists x :: x in xs && f(x) == Some(y)
    ensures forall x :: x in xs && f(x).Some? ==> f(x).value in r
    decreases |xs|
  {
    if xs == [] then []
    else
      var rest := FilterMap(xs[1..], f);
      assert forall x :: x in xs[1..] ==> x in xs;
      match f(xs[0])
      case Some(y) => [y] + rest
      case None => rest
  }

  /** Map-then-drop keeps the relative order of the survivors. */
  lemma {:induction false} FilterMapConcat<A, B>(a: seq<A>, b: seq<A>, f: A -> Option<B>)
    ensures FilterMap(a + b, f) == FilterMap(a, f) + FilterMap(b, f)
    decreases |a|
  {
    if a != [] {
      assert (a + b)[0] == a[0];
      assert (a + b)[1..] == a[1..] + b;
      FilterMapConcat(a[1..], b, f);
      var head := if f(a[0]).Some? then [f(a[0]).value] else [];
      assert FilterMap(a + b, f) == head + FilterMap(a[1..] + b, f);
      assert FilterMap(a, f) == head + FilterMap(a[1..], f);
    } else {
      assert a + b == b;
    }
  }

  /** Map-then-drop depends only on the optional results, position by position: two inputs
      whose results agree everywhere keep the same survivors in the same order. */
  lemma {:induction false} FilterMapPointwise<A, C, B>(a: seq<A>, f: A -> Option<B>, b: seq<C>, g: C -> Option<B>)
    requires |a| == |b|
    requires forall i :: 0 <= i < |a| ==> f(a[i]) == g(b[i])
    ensures FilterMap(a, f) == FilterMap(b, g)
    decreases |a|
  {
    if a != [] {
      assert forall i :: 0 <= i < |a[1..]| ==> a[1..][i] == a[i + 1] && b[1..][i] == b[i + 1];
      FilterMapPointwise(a[1..], f, b[1..], g);
    }
  }

  /** When nothing is dropped, map-then-drop is a plain map. */
  lemma {:induction false} FilterMapTotal<A, B>(xs: seq<A>, f: A -> Option<B>)
    requires forall i :: 0 <= i < |xs| ==> f(xs[i]).Some?
    ensures |FilterMap(xs, f)| == |xs|
    ensures forall i :: 0 <= i < |xs| ==> FilterMap(xs, f)[i] == f(xs[i]).value
    decreases |xs|
  {
    if xs != [] {
      FilterMapTotal(xs[1..], f);
      var r := FilterMap(xs, f);
      assert r == [f(xs[0]).value] + FilterMap(xs[1..], f);
      forall i | 0 <= i < |xs| ensures r[i] == f(xs[i]).value {
        if i > 0 { assert xs[1..][i - 1] == xs[i]; }
      }
    }
  }

  // ---------------------------------------------------------------------------
  // Promise.all over a map whose callbacks may throw
  // ---------------------------------------------------------------------------

  /** `await Promise.all(xs.map(f))` run one element after another: it succeeds with the
      results in input order exactly when every call succeeds, and otherwise fails with the
      error of the first call that failed. */
  function MapAll<A, B, E>(xs: seq<A>, f: A -> Result<B, E>): (r: Result<seq<B>, E>)
    ensures r.Success? <==> forall i :: 0 <= i < |xs| ==> f(xs[i]).Success?
    ensures r.Success? ==> |r.value| == |xs| && forall i :: 0 <= i < |xs| ==> r.value[i] == f(xs[i]).value
    ensures r.Failure? ==>
      exists i :: 0 <= i < |xs| && f(xs[i]) == Failure(r.error) && forall j :: 0 <= j < i ==> f(xs[j]).Success?
    decreases |xs|
  {
    if xs == [] then Success([])
    else
      match f(xs[0])
      case Failure(e) => Failure(e)
      case Success(y) =>
        match MapAll(xs[1..], f)
        case Failure(e) =>
          ghost var i :| 0 <= i < |xs[1..]| && f(xs[1..][i]) == Failure(e) && forall j :: 0 <= j < i ==> f(xs[1..][j]).Success?;
          assert f(xs[i + 1]) == Failure(e);
          Failure(e)
        case Success(ys) => Success([y] + ys)
  }

  // ---------------------------------------------------------------------------
  // Fixed-size batches
  // ---------------------------------------------------------------------------

  function Flatten<T>(xss: seq<seq<T>>): seq<T>
  {
    if xss == [] then [] else xss[0] + Flatten(xss[1..])
  }

  /** `xs.slice(i, i + n)` for `i = 0, n, 2n, ...`: contiguous chunks of `n`, only the last
      one possibly shorter, which together are `xs` again. */
  function Chunks<T>(xs: seq<T>, n: nat): (r: seq<seq<T>>)
    requires n > 0
    ensures Flatten(r) == xs
    ensures forall i :: 0 <= i < |r| ==> 0 < |r[i]| <= n
    ensures forall i :: 0 <= i < |r| - 1 ==> |r[i]| == n
    decreases |xs|
  {
    if xs == [] then []
    else if |xs| <= n then
      assert Flatten([xs]) == xs + Flatten([xs][1..]);
      [xs]
    else
      var rest := Chunks(xs[n..], n);
      assert ([xs[..n]] + rest)[1..] == rest;
      assert xs == xs[..n] + xs[n..];
      [xs[..n]] + rest
  }

  /** Runs `f` over each chunk in turn and concatenates the chunk results. */
  function MapChunks<A, B>(chunks: seq<seq<A>>, f: A -> B): seq<B>
  {
    if chunks == [] then [] else Map(chunks[0], f) + MapChunks(chunks[1..], f)
  }

  lemma {:induction false} MapChunksIsMap<A, B>(chunks: seq<seq<A>>, f: A -> B)
    ensures MapChunks(chunks, f) == Map(Flatten(chunks), f)
  {
    if chunks != [] {
      MapChunksIsMap(chunks[1..], f);
    }
  }

  /** The batch loop: chunks of `n` awaited one after another, each chunk's results kept in
      their original positions. */
  function BatchMap<A, B>(xs: seq<A>, n: nat, f: A -> B): seq<B>
    requires n > 0
  {
    MapChunks(Chunks(xs, n), f)
  }

  /** Batching is invisible in the result: same length, same order, element `i` of the
      output is `f` of element `i` of the input. */
  lemma BatchMapIsMap<A, B>(xs: seq<A>, n: nat, f: A -> B)
    requires n > 0
    ensures BatchMap(xs, n, f) == Map(xs, f)
    ensures |BatchMap(xs, n, f)| == |xs|
    ensures forall i :: 0 <= i < |xs| ==> BatchMap(xs, n, f)[i] == f(xs[i])
  {
    MapChunksIsMap(Chunks(xs, n), f);
  }

  // ---------------------------------------------------------------------------
  // Round-robin interleave
  // ---------------------------------------------------------------------------

  function Min(a: int, b: int): int { if a <= b then a else b }

  /** `a[0], b[0], a[1], b[1], ...` and then the rest of the longer list. */
  function Interleave<T>(a: seq<T>, b: seq<T>): (r: seq<T>)
    ensures |r| == |a| + |b|
    decreases |a|
  {
    if a == [] then b
    else if b == [] then a
    else [a[0], b[0]] + Interleave(a[1..], b[1..])
  }

  /** Past the first pair, the interleaving is the interleaving of the tails, two places on. */
  lemma InterleaveShift<T>(a: seq<T>, b: seq<T>, i: nat)
    requires a != [] && b != [] && 2 <= i < |a| + |b|
    ensures Interleave(a, b)[i] == Interleave(a[1..], b[1..])[i - 2]
  {
    assert Interleave(a, b) == [a[0], b[0]] + Interleave(a[1..], b[1..]);
  }

  /** While both lists last, position `2k` holds `a[k]`. */
  lemma {:induction false} InterleaveEven<T>(a: seq<T>, b: seq<T>)
    ensures forall k :: 0 <= k < |a| && k < |b| ==> Interleave(a, b)[2 * k] == a[k]
    decreases |a|
  {
    if a != [] && b != [] {
      InterleaveEven(a[1..], b[1..]);
      forall k | 0 <= k < |a| && k < |b| ensures Interleave(a, b)[2 * k] == a[k] {
        if k == 0 {
          assert Interleave(a, b) == [a[0], b[0]] + Interleave(a[1..], b[1..]);
        } else {
          assert Interleave(a[1..], b[1..])[2 * (k - 1)] == a[1..][k - 1];
          InterleaveShift(a, b, 2 * k);
        }
      }
    }
  }

  /** While both lists last, position `2k + 1` holds `b[k]`. */
  lemma {:induction false} InterleaveOdd<T>(a: seq<T>, b: seq<T>)
    ensures forall k :: 0 <= k < |a| && k < |b| ==> Interleave(a, b)[2 * k + 1] == b[k]
    decreases |a|
  {
    if a != [] && b != [] {
      InterleaveOdd(a[1..], b[1..]);
      forall k | 0 <= k < |a| && k < |b| ensures Interleave(a, b)[2 * k + 1] == b[k] {
        if k == 0 {
          assert Interleave(a, b) == [a[0], b[0]] + Interleave(a[1..], b[1..]);
        } else {
          assert Interleave(a[1..], b[1..])[2 * (k - 1) + 1] == b[1..][k - 1];
          InterleaveShift(a, b, 2 * k + 1);
        }
      }
    }
  }

  /** While both lists last, position `2k` holds `a[k]` and position `2k + 1` holds `b[k]`. */
  lemma InterleavePairs<T>(a: seq<T>, b: seq<T>)
    ensures forall k :: 0 <= k < |a| && k < |b| ==>
      Interleave(a, b)[2 * k] == a[k] && Interleave(a, b)[2 * k + 1] == b[k]
  {
    InterleaveEven(a, b);
    InterleaveOdd(a, b);
  }

  /** Once `b` runs out, the rest of `a` follows in order: `a[k]` sits at `|b| + k`. */
  lemma {:induction false} InterleaveTailA<T>(a: seq<T>, b: seq<T>)
    ensures forall k :: |b| <= k < |a| ==> Interleave(a, b)[|b| + k] == a[k]
    decreases |a|
  {
    if a != [] && b != [] {
      InterleaveTailA(a[1..], b[1..]);
      var r := Interleave(a, b);
      forall k | |b| <= k < |a| ensures r[|b| + k] == a[k] {
        InterleaveShift(a, b, |b| + k);
        assert |b[1..]| + (k - 1) == |b| + k - 2;
        assert a[k] == a[1..][k - 1];
      }
    } else if a != [] {
      assert Interleave(a, b) == a;
    }
  }

  /** Once `a` runs out, the rest of `b` follows in order: `b[k]` sits at `|a| + k`. */
  lemma {:induction false} InterleaveTailB<T>(a: seq<T>, b: seq<T>)
    ensures forall k :: |a| <= k < |b| ==> Interleave(a, b)[|a| + k] == b[k]
    decreases |a|
  {
    if a != [] && b != [] {
      InterleaveTailB(a[1..], b[1..]);
      var r := Interleave(a, b);
      forall k | |a| <= k < |b| ensures r[|a| + k] == b[k] {
        InterleaveShift(a, b, |a| + k);
        assert |a[1..]| + (k - 1) == |a| + k - 2;
        assert b[k] == b[1..][k - 1];
      }
    } else if b != [] {
      assert Interleave(a, b) == b;
    }
  }

  lemma MultisetOfCons<T>(xs: seq<T>)
    requires xs != []
    ensures multiset(xs) == multiset{xs[0]} + multiset(xs[1..])
  {
    assert xs == [xs[0]] + xs[1..];
  }

  lemma MultisetOfPair<T>(x: T, y: T, rest: seq<T>)
    ensures multiset([x, y] + rest) == multiset{x} + multiset{y} + multiset(rest)
  {
  }

  /** The interleave is a rearrangement of the two lists together: nothing lost, nothing added. */
  lemma {:induction false} InterleaveMultiset<T>(a: seq<T>, b: seq<T>)
    ensures multiset(Interleave(a, b)) == multiset(a) + multiset(b)
    decreases |a|
  {
    if a != [] && b != [] {
      InterleaveMultiset(a[1..], b[1..]);
      MultisetOfPair(a[0], b[0], Interleave(a[1..], b[1..]));
      MultisetOfCons(a);
      MultisetOfCons(b);
    }
  }

  /** `xs[i..]`, or nothing once `i` is past the end. */
  function Drop<T>(xs: seq<T>, i: nat): (r: seq<T>)
    ensures i <= |xs| ==> r == xs[i..]
    ensures i >= |xs| ==> r == []
  {
    if i <= |xs| then xs[i..] else []
  }

  /** What one round of the interleaving loop pushes: `a[i]` and then `b[i]`, where present. */
  function Heads<T>(a: seq<T>, b: seq<T>, i: nat): seq<T>
  {
    (if i < |a| then [a[i]] else []) + (if i < |b| then [b[i]] else [])
  }

  /** What is left to interleave from position `i` starts with that round's heads, followed by
      what is left from `i + 1`. */
  lemma InterleaveStep<T>(a: seq<T>, b: seq<T>, i: nat)
    requires i < |a| || i < |b|
    ensures Interleave(Drop(a, i), Drop(b, i)) == Heads(a, b, i) + Interleave(Drop(a, i + 1), Drop(b, i + 1))
  {
    if i < |a| {
      assert Drop(a, i)[1..] == Drop(a, i + 1);
    }
    if i < |b| {
      assert Drop(b, i)[1..] == Drop(b, i + 1);
    }
  }

  lemma InterleaveLoopStep<T>(combined: seq<T>, a: seq<T>, b: seq<T>, i: nat)
    requires i < |a| || i < |b|
    requires combined + Interleave(Drop(a, i), Drop(b, i)) == Interleave(a, b)
    ensures (combined + Heads(a, b, i)) + Interleave(Drop(a, i + 1), Drop(b, i + 1)) == Interleave(a, b)
  {
    var h, rest := Heads(a, b, i), Interleave(Drop(a, i + 1), Drop(b, i + 1));
    InterleaveStep(a, b, i);
    assert combined + (h + rest) == Interleave(a, b);
    assert (combined + h) + rest == combined + (h + rest);
  }

  /** The source's loop: for each position up to the longer length, push `a[i]` then `b[i]`
      where they exist (`Heads`). It computes `Interleave`. */
  method InterleaveLoop<T>(a: seq<T>, b: seq<T>) returns (combined: seq<T>)
    ensures combined == Interleave(a, b)
  {
    combined := [];
    var n := if |a| < |b| then |b| else |a|;
    var i := 0;
    while i < n
      invariant 0 <= i <= n
      invariant combined + Interleave(Drop(a, i), Drop(b, i)) == Interleave(a, b)
    {
      InterleaveLoopStep(combined, a, b, i);
      combined := combined + Heads(a, b, i);
      i := i + 1;
    }
    assert Drop(a, i) == [] && Drop(b, i) == [];
  }

  // ---------------------------------------------------------------------------
  // First-seen-wins de-duplication
  // ---------------------------------------------------------------------------

  /** The keys of the elements of `xs`. */
  function Keys<T, K(==)>(xs: seq<T>, key: T -> K): set<K>
  {
    set i | 0 <= i < |xs| :: key(xs[i])
  }

  lemma KeysCons<T, K>(x: T, xs: seq<T>, key: T -> K)
    ensures Keys([x] + xs, key) == {key(x)} + Keys(xs, key)
  {
    var ys := [x] + xs;
    assert ys[0] == x;
    assert key(ys[0]) in Keys(ys, key);
    forall k | k in Keys(ys, key) ensures k in {key(x)} + Keys(xs, key) {
      var i :| 0 <= i < |ys| && key(ys[i]) == k;
      if i > 0 { assert key(xs[i - 1]) == k; }
    }
    forall k | k in Keys(xs, key) ensures k in Keys(ys, key) {
      var i :| 0 <= i < |xs| && key(xs[i]) == k;
      assert key(ys[i + 1]) == k;
    }
  }

  /** `xs` with every element dropped whose key is in `seen` or was met earlier in `xs`. */
  function DedupFrom<T, K(==)>(xs: seq<T>, key: T -> K, seen: set<K>): seq<T>
    decreases |xs|
  {
    if xs == [] then []
    else if key(xs[0]) in seen then DedupFrom(xs[1..], key, seen)
    else [xs[0]] + DedupFrom(xs[1..], key, seen + {key(xs[0])})
  }

  /** De-duplication keeping the first element of each key. */
  function DedupBy<T, K(==)>(xs: seq<T>, key: T -> K): seq<T>
  {
    DedupFrom(xs, key, {})
  }

  /** `sub` is `xs` with some elements left out, the rest in their original order. */
  predicate IsSubsequence<T(==)>(sub: seq<T>, xs: seq<T>)
    decreases |xs|
  {
    if sub == [] then true
    else if xs == [] then false
    else if sub[0] == xs[0] then IsSubsequence(sub[1..], xs[1..])
    else IsSubsequence(sub, xs[1..])
  }

  /** `k` is the position of the first element of `xs` whose key is `key(xs[k])`. */
  predicate FirstOfKey<T, K(==)>(xs: seq<T>, key: T -> K, k: int) {
    0 <= k < |xs| && forall j :: 0 <= j < k ==> key(xs[j]) != key(xs[k])
  }

  /** A first-of-key position of the tail, whose key differs from the head's, is a
      first-of-key position of the whole list one place on. */
  lemma FirstOfKeyShift<T, K>(xs: seq<T>, key: T -> K, k: nat)
    requires xs != [] && FirstOfKey(xs[1..], key, k) && key(xs[1..][k]) != key(xs[0])
    ensures FirstOfKey(xs, key, k + 1) && xs[k + 1] == xs[1..][k]
  {
    forall j | 0 <= j < k + 1 ensures key(xs[j]) != key(xs[k + 1]) {
      if j > 0 { assert xs[j] == xs[1..][j - 1]; }
    }
  }

  lemma {:induction false} DedupFromSpec<T, K>(xs: seq<T>, key: T -> K, seen: set<K>)
    ensures var r := DedupFrom(xs, key, seen);
      && IsSubsequence(r, xs)
      && Keys(r, key) == Keys(xs, key) - seen
      && (forall i, j :: 0 <= i < j < |r| ==> key(r[i]) != key(r[j]))
      && (forall i :: 0 <= i < |r| ==> exists k :: FirstOfKey(xs, key, k) && xs[k] == r[i])
    decreases |xs|
  {
    var r := DedupFrom(xs, key, seen);
    if xs != [] {
      var x := xs[0];
      var tl := xs[1..];
      assert xs == [x] + tl;
      KeysCons(x, tl, key);
      if key(x) in seen {
        DedupFromSpec(tl, key, seen);
        assert r == DedupFrom(tl, key, seen);
        SubsequenceSkip(r, x, tl);
        forall i | 0 <= i < |r| ensures exists k :: FirstOfKey(xs, key, k) && xs[k] == r[i] {
          var k :| FirstOfKey(tl, key, k) && tl[k] == r[i];
          assert key(r[i]) in Keys(r, key);
          FirstOfKeyShift(xs, key, k);
        }
      } else {
        var seen' := seen + {key(x)};
        var rest := DedupFrom(tl, key, seen');
        DedupFromSpec(tl, key, seen');
        assert r == [x] + rest;
        assert r[1..] == rest;
        KeysCons(x, rest, key);
        forall i, j | 0 <= i < j < |r| ensures key(r[i]) != key(r[j]) {
          if i == 0 {
            assert key(rest[j - 1]) in Keys(rest, key);
          } else {
            assert r[i] == rest[i - 1] && r[j] == rest[j - 1];
          }
        }
        forall i | 0 <= i < |r| ensures exists k :: FirstOfKey(xs, key, k) && xs[k] == r[i] {
          if i == 0 {
            assert FirstOfKey(xs, key, 0);
          } else {
            var k :| FirstOfKey(tl, key, k) && tl[k] == rest[i - 1];
            assert key(rest[i - 1]) in Keys(rest, key);
            FirstOfKeyShift(xs, key, k);
          }
        }
      }
    }
  }

  lemma {:induction false} SubsequenceSkip<T>(sub: seq<T>, x: T, xs: seq<T>)
    requires IsSubsequence(sub, xs)
    ensures IsSubsequence(sub, [x] + xs)
    decreases |xs|, 1
  {
    assert ([x] + xs)[1..] == xs;
    if sub != [] && sub[0] == x {
      SubsequenceCons(sub, xs);
    }
  }

  lemma {:induction false} SubsequenceCons<T>(sub: seq<T>, xs: seq<T>)
    requires sub != [] && IsSubsequence(sub, xs)
    ensures IsSubsequence(sub[1..], xs)
    decreases |xs|, 0
  {
    if xs != [] {
      if sub[0] == xs[0] {
        if sub[1..] != [] {
          SubsequenceCons(sub[1..], xs[1..]);
          SubsequenceSkip(sub[1..][1..], xs[0], xs[1..]);
          assert [xs[0]] + xs[1..] == xs;
          if sub[1..][0] == xs[0] {
            assert IsSubsequence(sub[1..][1..], xs[1..]);
          }
        }
      } else {
        SubsequenceCons(sub, xs[1..]);
        SubsequenceSkip(sub[1..], xs[0], xs[1..]);
        assert [xs[0]] + xs[1..] == xs;
      }
    }
  }

  /** The elements among the first `n` of `xs` that are the first of their key, in index order:
      the reference that first-seen-wins de-duplication is measured against. */
  function FirstsUpTo<T, K(==)>(xs: seq<T>, key: T -> K, n: nat): seq<T>
    requires n <= |xs|
  {
    if n == 0 then []
    else FirstsUpTo(xs, key, n - 1) + (if FirstOfKey(xs, key, n - 1) then [xs[n - 1]] else [])
  }

  /** Appending one element to the input appends it to the output exactly when its key is new. */
  lemma {:induction false} DedupFromSnoc<T, K>(a: seq<T>, y: T, key: T -> K, seen: set<K>)
    ensures DedupFrom(a + [y], key, seen) ==
      DedupFrom(a, key, seen) + (if key(y) in seen + Keys(a, key) then [] else [y])
    decreases |a|
  {
    if a == [] {
      assert a + [y] == [y];
      assert Keys(a, key) == {};
    } else {
      assert (a + [y])[0] == a[0];
      assert (a + [y])[1..] == a[1..] + [y];
      assert a == [a[0]] + a[1..];
      KeysCons(a[0], a[1..], key);
      if key(a[0]) in seen {
        DedupFromSnoc(a[1..], y, key, seen);
      } else {
        DedupFromSnoc(a[1..], y, key, seen + {key(a[0])});
      }
    }
  }

  /** Position `n` holds the first element of its key iff no earlier element has that key. */
  lemma FirstOfKeyPrefix<T, K>(xs: seq<T>, key: T -> K, n: nat)
    requires n < |xs|
    ensures FirstOfKey(xs, key, n) <==> key(xs[n]) !in Keys(xs[..n], key)
  {
    if key(xs[n]) in Keys(xs[..n], key) {
      var i :| 0 <= i < n && key(xs[..n][i]) == key(xs[n]);
      assert xs[..n][i] == xs[i];
    } else {
      forall j | 0 <= j < n ensures key(xs[j]) != key(xs[n]) {
        assert xs[..n][j] == xs[j];
      }
    }
  }

  /** De-duplicating a prefix gives the first-of-key elements of that prefix, in order. */
  lemma {:induction false} DedupByIsFirsts<T, K>(xs: seq<T>, key: T -> K, n: nat)
    requires n <= |xs|
    ensures DedupBy(xs[..n], key) == FirstsUpTo(xs, key, n)
    decreases n
  {
    if n == 0 {
      assert xs[..0] == [];
    } else {
      DedupByIsFirsts(xs, key, n - 1);
      assert xs[..n] == xs[..n - 1] + [xs[n - 1]];
      DedupFromSnoc(xs[..n - 1], xs[n - 1], key, {});
      FirstOfKeyPrefix(xs, key, n - 1);
      assert {} + Keys(xs[..n - 1], key) == Keys(xs[..n - 1], key);
    }
  }

  /** First-seen-wins de-duplication: the result keeps the input order, holds one element per
      key of the input and no other, and each element it keeps is the first of its key. It is
      exactly the first-of-key elements of the input, taken in index order. */
  lemma DedupBySpec<T, K>(xs: seq<T>, key: T -> K)
    ensures var r := DedupBy(xs, key);
      && IsSubsequence(r, xs)
      && Keys(r, key) == Keys(xs, key)
      && (forall i, j :: 0 <= i < j < |r| ==> key(r[i]) != key(r[j]))
      && (forall i :: 0 <= i < |r| ==> exists k :: FirstOfKey(xs, key, k) && xs[k] == r[i])
      && r == FirstsUpTo(xs, key, |xs|)
  {
    DedupFromSpec(xs, key, {});
    assert xs[..|xs|] == xs;
    DedupByIsFirsts(xs, key, |xs|);
  }

  /** The source's loop: a `seen` set and an output array, one pass over the input. */
  method DedupLoop<T, K(==)>(xs: seq<T>, key: T -> K) returns (unique: seq<T>)
    ensures unique == DedupBy(xs, key)
  {
    var seen: set<K> := {};
    unique := [];
    var i := 0;
    while i < |xs|
      invariant 0 <= i <= |xs|
      invariant unique + DedupFrom(xs[i..], key, seen) == DedupBy(xs, key)
    {
      assert xs[i..][1..] == xs[i + 1..];
      if key(xs[i]) !in seen {
        seen := seen + {key(xs[i])};
        unique := unique + [xs[i]];
      }
      i := i + 1;
    }
  }
}
