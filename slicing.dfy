/** Python sequence indexing and slicing, and the fixed-width, no-overlap
    slicing comprehension `[s[i:i + n] for i in range(0, len(s), n)]`, used with
    n = 512 to chunk a document's text and with n = 100 to batch ingestion
    chunks. */
module Slicing {
  import opened Wrappers

  const IndexOutOfRange := Exception(IndexError, "list index out of range")

  /** Python's `s[i]`: a negative `i` counts from the end, and an `i` outside
      `-len(s) .. len(s) - 1` raises IndexError. */
  function PyIndex<T>(s: seq<T>, i: int): (r: Result<T, Exception>)
    ensures 0 <= i < |s| ==> r == Ok(s[i])
    ensures -|s| <= i < 0 ==> r == Ok(s[|s| + i])
    ensures r.Err? <==> (i >= |s| || i < -|s|)
  {
    if 0 <= i < |s| then Ok(s[i])
    else if -|s| <= i < 0 then Ok(s[|s| + i])
    else Err(IndexOutOfRange)
  }

  /** Python's `s[:k]`: a negative `k` drops `-k` items from the end. */
  function PyPrefix<T>(s: seq<T>, k: int): (r: seq<T>)
    ensures r <= s
    ensures k >= 0 ==> |r| == Min(k, |s|)
    ensures k < 0 ==> |r| == (if |s| + k < 0 then 0 else |s| + k)
  {
    if k >= 0 then s[..Min(k, |s|)]
    else if |s| + k < 0 then []
    else s[..|s| + k]
  }

  function Min(a: int, b: int): int {
    if a <= b then a else b
  }

  /** The slices `s[i:i + n]` for `i` in `range(start, len(s), n)`. Python's
      slice stops at the end of `s`, hence the `Min`. */
  function SlicesFrom<T>(s: seq<T>, n: nat, start: nat): seq<seq<T>>
    requires n > 0
    decreases |s| - start
  {
    if start >= |s| then []
    else [s[start..Min(start + n, |s|)]] + SlicesFrom(s, n, start + n)
  }

  function Slices<T>(s: seq<T>, n: nat): seq<seq<T>>
    requires n > 0
  {
    SlicesFrom(s, n, 0)
  }

  /** Concatenation of a sequence of sequences, in order. */
  function Flatten<T>(ss: seq<seq<T>>): seq<T> {
    if ss == [] then [] else ss[0] + Flatten(ss[1..])
  }

  /** Flattening lists of at most `m` items each gives at most `m` items
      per list. */
  lemma {:induction false} FlattenBound<T>(ss: seq<seq<T>>, m: nat)
    requires forall k :: 0 <= k < |ss| ==> |ss[k]| <= m
    ensures |Flatten(ss)| <= |ss| * m
  {
    if ss != [] {
      FlattenBound(ss[1..], m);
      MulSucc(|ss| - 1, m);
    }
  }

  /** Flattening three lists concatenates them in order. */
  lemma FlattenThree<T>(a: seq<T>, b: seq<T>, c: seq<T>)
    ensures Flatten([a, b, c]) == a + b + c
  {
    assert [a, b, c][1..] == [b, c] && [b, c][1..] == [c] && [c][1..] == [];
    assert Flatten([c]) == c;
  }

  lemma {:induction false} FlattenAppend<T>(a: seq<seq<T>>, b: seq<seq<T>>)
    ensures Flatten(a + b) == Flatten(a) + Flatten(b)
  {
    if a != [] {
      assert (a + b)[1..] == a[1..] + b;
      FlattenAppend(a[1..], b);
    } else {
      assert a + b == b;
    }
  }

  lemma {:induction false} FlattenSlicesFrom<T>(s: seq<T>, n: nat, start: nat)
    requires n > 0 && start <= |s|
    ensures Flatten(SlicesFrom(s, n, start)) == s[start..]
    decreases |s| - start
  {
    if start < |s| {
      var rest := SlicesFrom(s, n, start + n);
      assert SlicesFrom(s, n, start)[1..] == rest;
      if start + n <= |s| {
        FlattenSlicesFrom(s, n, start + n);
        assert s[start..start + n] + s[start + n..] == s[start..];
      } else {
        assert rest == [];
        assert s[start..|s|] == s[start..];
      }
    }
  }

  /** Concatenating the slices gives back the input exactly. */
  lemma FlattenSlices<T>(s: seq<T>, n: nat)
    requires n > 0
    ensures Flatten(Slices(s, n)) == s
  {
    FlattenSlicesFrom(s, n, 0);
  }

  lemma MulSucc(a: nat, n: nat)
    ensures (a + 1) * n == a * n + n
  {
  }

  /** Each slice from `start` on is non-empty and at most `n` long, and all
      but the last are exactly `n` long. */
  lemma {:induction false} SlicesFromSizes<T>(s: seq<T>, n: nat, start: nat)
    requires n > 0
    ensures forall k :: 0 <= k < |SlicesFrom(s, n, start)| ==> 0 < |SlicesFrom(s, n, start)[k]| <= n
    ensures forall k :: 0 <= k < |SlicesFrom(s, n, start)| - 1 ==> |SlicesFrom(s, n, start)[k]| == n
    decreases |s| - start
  {
    if start < |s| {
      var r := SlicesFrom(s, n, start);
      var r' := SlicesFrom(s, n, start + n);
      SlicesFromSizes(s, n, start + n);
      assert r == [s[start..Min(start + n, |s|)]] + r';
      assert r' != [] ==> start + n < |s|;
      assert forall k :: 1 <= k < |r| ==> r[k] == r'[k - 1];
    }
  }

  /** The number of slices from `start` on covers the remaining items with
      less than one slice to spare. */
  lemma {:induction false} SlicesFromCount<T>(s: seq<T>, n: nat, start: nat)
    requires n > 0 && start <= |s|
    ensures |s| - start <= |SlicesFrom(s, n, start)| * n < |s| - start + n
    decreases |s| - start
  {
    if start < |s| {
      var c := |SlicesFrom(s, n, start + n)|;
      assert |SlicesFrom(s, n, start)| == c + 1;
      MulSucc(c, n);
      if start + n <= |s| {
        SlicesFromCount(s, n, start + n);
      } else {
        assert c == 0;
      }
    }
  }

  /** Every slice is non-empty and at most `n` long, every slice but the last
      is exactly `n` long, and the number of slices is the least `c` with
      `c * n >= |s|`, that is ceil(|s| / n). */
  lemma SlicesShape<T>(s: seq<T>, n: nat)
    requires n > 0
    ensures forall k :: 0 <= k < |Slices(s, n)| ==> 0 < |Slices(s, n)[k]| <= n
    ensures forall k :: 0 <= k < |Slices(s, n)| - 1 ==> |Slices(s, n)[k]| == n
    ensures |s| <= |Slices(s, n)| * n < |s| + n
  {
    SlicesFromSizes(s, n, 0);
    SlicesFromCount(s, n, 0);
  }

  /** Slice `k` is the window of `s` that starts at `start + k * n`: the
      comprehension read position by position. */
  lemma {:induction false} SlicesFromAt<T>(s: seq<T>, n: nat, start: nat, k: nat)
    requires n > 0 && k < |SlicesFrom(s, n, start)|
    ensures start + k * n < |s|
    ensures SlicesFrom(s, n, start)[k] == s[start + k * n..Min(start + k * n + n, |s|)]
    decreases k
  {
    if k > 0 {
      SlicesFromAt(s, n, start + n, k - 1);
      MulSucc(k - 1, n);
    }
  }

  lemma SlicesAt<T>(s: seq<T>, n: nat, k: nat)
    requires n > 0 && k < |Slices(s, n)|
    ensures k * n < |s|
    ensures Slices(s, n)[k] == s[k * n..Min(k * n + n, |s|)]
  {
    SlicesFromAt(s, n, 0, k);
  }

  /** The empty sequence has no slices; a non-empty one of at most `n` items
      is a single slice equal to itself. */
  lemma SlicesOfShort<T>(s: seq<T>, n: nat)
    requires n > 0 && |s| <= n
    ensures Slices(s, n) == (if s == [] then [] else [s])
  {
    if s != [] {
      assert SlicesFrom(s, n, n) == [];
      assert s[0..Min(n, |s|)] == s;
    }
  }
}
