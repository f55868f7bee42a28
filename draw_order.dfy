/**
 * The index orders the depth demo draws its items in. `std::iota` fills
 * 0..n-1, then `std::sort` orders the indices by item depth, or
 * `std::shuffle` permutes them. Both are library calls. The sort is
 * modelled as a stable insertion sort, which fixes one order for equal
 * depths where `std::sort` leaves it unspecified; the properties the C++
 * standard does guarantee, a permutation ordered by the comparison, are
 * proved about it. The shuffle is Fisher-Yates driven by a sequence of
 * picks standing for the generator's outputs, and yields a permutation.
 */
module DrawOrdering {

  /** `std::iota` from 0: the indices 0 through n-1 in order. */
  function Iota(n: nat): (s: seq<nat>)
    ensures |s| == n && forall k :: 0 <= k < n ==> s[k] == k
  {
    seq(n, k requires 0 <= k < n => k)
  }

  /** Every entry of `s` is an index into a sequence of length `n`. */
  predicate InRange(s: seq<nat>, n: nat) {
    forall k :: 0 <= k < |s| ==> s[k] < n
  }

  /** `s` is a rearrangement of 0 through n-1. */
  predicate IndexPermutation(s: seq<nat>, n: nat) {
    multiset(s) == multiset(Iota(n))
  }

  /** No index occurs twice in `Iota(n)`. */
  lemma {:induction false} IotaOnce(n: nat, v: nat)
    ensures multiset(Iota(n))[v] == if v < n then 1 else 0
  {
    if n > 0 {
      var last: nat := n - 1;
      IotaOnce(last, v);
      assert Iota(n) == Iota(last) + [last];
      assert multiset(Iota(n)) == multiset(Iota(last)) + multiset{last};
    }
  }

  /** A value at two positions of `s` occurs at least twice in it. */
  lemma Twice(s: seq<nat>, i: nat, j: nat)
    requires i < j < |s| && s[i] == s[j]
    ensures multiset(s)[s[i]] >= 2
  {
    assert s == s[..j] + [s[j]] + s[j + 1..];
    assert s[..j][i] == s[i];
    assert s[i] in multiset(s[..j]);
  }

  /**
   * A rearrangement of 0 through n-1 has length n, holds only indices below
   * n, and holds each of them exactly once.
   */
  lemma PermutationIndices(s: seq<nat>, n: nat)
    requires IndexPermutation(s, n)
    ensures |s| == n && InRange(s, n)
    ensures forall i, j :: 0 <= i < j < |s| ==> s[i] != s[j]
    ensures forall v :: 0 <= v < n ==> v in s
  {
    assert |multiset(s)| == |s| && |multiset(Iota(n))| == n;
    forall k | 0 <= k < |s|
      ensures s[k] < n
    {
      assert s[k] in multiset(s);
      IotaOnce(n, s[k]);
    }
    forall i, j | 0 <= i < j < |s|
      ensures s[i] != s[j]
    {
      if s[i] == s[j] {
        Twice(s, i, j);
        IotaOnce(n, s[i]);
      }
    }
    forall v | 0 <= v < n
      ensures v in s
    {
      IotaOnce(n, v);
      assert v in multiset(s);
    }
  }

  /**
   * The comparison the sort uses: with `ascending` the key of `a` is at most
   * that of `b` (`std::sort` with `<`), otherwise at least (with `>`).
   */
  predicate InOrder(keys: seq<real>, a: nat, b: nat, ascending: bool)
    requires a < |keys| && b < |keys|
  {
    if ascending then keys[a] <= keys[b] else keys[a] >= keys[b]
  }

  /** The keys of `s` never go against the comparison. */
  predicate Sorted(s: seq<nat>, keys: seq<real>, ascending: bool)
    requires InRange(s, |keys|)
  {
    forall i, j :: 0 <= i < j < |s| ==> InOrder(keys, s[i], s[j], ascending)
  }

  /** `x` put before the first entry it may precede. */
  function Insert(x: nat, s: seq<nat>, keys: seq<real>, ascending: bool): (r: seq<nat>)
    requires x < |keys| && InRange(s, |keys|)
    ensures |r| == |s| + 1 && InRange(r, |keys|)
  {
    if s == [] then [x]
    else if InOrder(keys, x, s[0], ascending) then [x] + s
    else
      assert s == [s[0]] + s[1..];
      [s[0]] + Insert(x, s[1..], keys, ascending)
  }

  /** Insertion sort of the indices `s` by their keys. */
  function Sort(s: seq<nat>, keys: seq<real>, ascending: bool): (r: seq<nat>)
    requires InRange(s, |keys|)
    ensures |r| == |s| && InRange(r, |keys|)
  {
    if s == [] then []
    else
      assert s == [s[0]] + s[1..];
      Insert(s[0], Sort(s[1..], keys, ascending), keys, ascending)
  }

  /** The insertion adds `x` and loses nothing. */
  lemma {:induction false} InsertPermutes(x: nat, s: seq<nat>, keys: seq<real>, ascending: bool)
    requires x < |keys| && InRange(s, |keys|)
    ensures multiset(Insert(x, s, keys, ascending)) == multiset(s) + multiset{x}
    decreases |s|
  {
    if s != [] && !InOrder(keys, x, s[0], ascending) {
      assert s == [s[0]] + s[1..];
      InsertPermutes(x, s[1..], keys, ascending);
    }
  }

  /** The sort rearranges its input. */
  lemma {:induction false} SortPermutes(s: seq<nat>, keys: seq<real>, ascending: bool)
    requires InRange(s, |keys|)
    ensures multiset(Sort(s, keys, ascending)) == multiset(s)
    decreases |s|
  {
    if s != [] {
      assert s == [s[0]] + s[1..];
      SortPermutes(s[1..], keys, ascending);
      InsertPermutes(s[0], Sort(s[1..], keys, ascending), keys, ascending);
    }
  }

  /** A sorted sequence without its first entry is sorted. */
  lemma SortedTail(s: seq<nat>, keys: seq<real>, ascending: bool)
    requires s != [] && InRange(s, |keys|) && Sorted(s, keys, ascending)
    ensures InRange(s[1..], |keys|) && Sorted(s[1..], keys, ascending)
  {
    forall i, j | 0 <= i < j < |s[1..]|
      ensures InOrder(keys, s[1..][i], s[1..][j], ascending)
    {
      assert s[1..][i] == s[i + 1] && s[1..][j] == s[j + 1];
    }
  }

  /** An entry that may precede every entry of a sorted sequence can go in front of it. */
  lemma ConsSorted(a: nat, t: seq<nat>, keys: seq<real>, ascending: bool)
    requires a < |keys| && InRange(t, |keys|) && Sorted(t, keys, ascending)
    requires forall k :: 0 <= k < |t| ==> InOrder(keys, a, t[k], ascending)
    ensures InRange([a] + t, |keys|) && Sorted([a] + t, keys, ascending)
  {
    var r := [a] + t;
    forall i, j | 0 <= i < j < |r|
      ensures InOrder(keys, r[i], r[j], ascending)
    {
      assert r[j] == t[j - 1];
      if i > 0 {
        assert r[i] == t[i - 1];
      }
    }
  }

  /**
   * When `x` may not precede the first entry `s[0]` of a sorted sequence,
   * `s[0]` may precede everything `x` is inserted among after it.
   */
  lemma FirstPrecedesInsert(x: nat, s: seq<nat>, keys: seq<real>, ascending: bool)
    requires x < |keys| && s != [] && InRange(s, |keys|) && Sorted(s, keys, ascending)
    requires !InOrder(keys, x, s[0], ascending)
    ensures InRange(s[1..], |keys|)
    ensures forall k :: 0 <= k < |Insert(x, s[1..], keys, ascending)| ==>
              InOrder(keys, s[0], Insert(x, s[1..], keys, ascending)[k], ascending)
  {
    var t := Insert(x, s[1..], keys, ascending);
    InsertPermutes(x, s[1..], keys, ascending);
    forall k | 0 <= k < |t|
      ensures InOrder(keys, s[0], t[k], ascending)
    {
      assert t[k] in multiset(t);
      if t[k] != x {
        assert t[k] in multiset(s[1..]);
        var j :| 0 <= j < |s[1..]| && s[1..][j] == t[k];
        assert s[j + 1] == t[k];
      }
    }
  }

  /** Inserting into a sorted sequence keeps it sorted. */
  lemma {:induction false} InsertSorted(x: nat, s: seq<nat>, keys: seq<real>, ascending: bool)
    requires x < |keys| && InRange(s, |keys|) && Sorted(s, keys, ascending)
    ensures Sorted(Insert(x, s, keys, ascending), keys, ascending)
    decreases |s|
  {
    if s == [] {
    } else if InOrder(keys, x, s[0], ascending) {
      ConsSorted(x, s, keys, ascending);
    } else {
      SortedTail(s, keys, ascending);
      InsertSorted(x, s[1..], keys, ascending);
      FirstPrecedesInsert(x, s, keys, ascending);
      ConsSorted(s[0], Insert(x, s[1..], keys, ascending), keys, ascending);
    }
  }

  /** The sort orders its result by the comparison. */
  lemma {:induction false} SortSorted(s: seq<nat>, keys: seq<real>, ascending: bool)
    requires InRange(s, |keys|)
    ensures Sorted(Sort(s, keys, ascending), keys, ascending)
    decreases |s|
  {
    if s != [] {
      SortSorted(s[1..], keys, ascending);
      InsertSorted(s[0], Sort(s[1..], keys, ascending), keys, ascending);
    }
  }

  /** The indices of `keys` sorted by key (`std::iota` then `std::sort`). */
  function SortedIndices(keys: seq<real>, ascending: bool): seq<nat> {
    Sort(Iota(|keys|), keys, ascending)
  }

  /**
   * Sorting the indices of `keys` rearranges 0 through |keys|-1 and leaves
   * the keys non-decreasing (`ascending`) or non-increasing.
   */
  lemma SortedIndicesSpec(keys: seq<real>, ascending: bool)
    ensures IndexPermutation(SortedIndices(keys, ascending), |keys|)
    ensures InRange(SortedIndices(keys, ascending), |keys|)
    ensures forall i, j :: 0 <= i < j < |keys| ==>
              if ascending then keys[SortedIndices(keys, ascending)[i]] <= keys[SortedIndices(keys, ascending)[j]]
              else keys[SortedIndices(keys, ascending)[i]] >= keys[SortedIndices(keys, ascending)[j]]
  {
    SortSorted(Iota(|keys|), keys, ascending);
    SortPermutes(Iota(|keys|), keys, ascending);
  }

  /** Entries `i` and `j` exchanged (`std::iter_swap`). */
  function Swap(s: seq<nat>, i: nat, j: nat): (r: seq<nat>)
    requires i < |s| && j < |s|
    ensures |r| == |s|
  {
    s[i := s[j]][j := s[i]]
  }

  /** The exchange keeps the same entries. */
  lemma SwapPermutes(s: seq<nat>, i: nat, j: nat)
    requires i < |s| && j < |s|
    ensures multiset(Swap(s, i, j)) == multiset(s)
  {
  }

  /** The next value the generator yields: the first pick, or 0 once they run out. */
  function Head(picks: seq<nat>): nat {
    if picks == [] then 0 else picks[0]
  }

  /** The picks after the first. */
  function Tail(picks: seq<nat>): seq<nat> {
    if picks == [] then [] else picks[1..]
  }

  /**
   * Fisher-Yates over the first `k` entries: position k-1 is exchanged with
   * the position the next pick selects among 0 through k-1, then the first
   * k-1 entries are shuffled with the remaining picks.
   */
  function ShuffleFirst(s: seq<nat>, picks: seq<nat>, k: nat): (r: seq<nat>)
    requires k <= |s|
    ensures |r| == |s|
    decreases k
  {
    if k <= 1 then s else ShuffleFirst(Swap(s, k - 1, Head(picks) % k), Tail(picks), k - 1)
  }

  /** Every exchange keeps the entries, so the shuffle rearranges them. */
  lemma {:induction false} ShufflePermutes(s: seq<nat>, picks: seq<nat>, k: nat)
    requires k <= |s|
    ensures multiset(ShuffleFirst(s, picks, k)) == multiset(s)
    decreases k
  {
    if k > 1 {
      SwapPermutes(s, k - 1, Head(picks) % k);
      ShufflePermutes(Swap(s, k - 1, Head(picks) % k), Tail(picks), k - 1);
    }
  }

  /** `std::shuffle` of `s` with a generator yielding `picks`. */
  function Shuffle(s: seq<nat>, picks: seq<nat>): seq<nat> {
    ShuffleFirst(s, picks, |s|)
  }

  /**
   * Bringing the entry `t` wants last among the first `k` into position
   * k-1 leaves a sequence that agrees with `t` from k-1 on.
   */
  lemma SwapFixesLast(s: seq<nat>, t: seq<nat>, k: nat, j: nat)
    requires |s| == |t| && 0 < k <= |s| && s[k..] == t[k..]
    requires j < k && s[j] == t[k - 1]
    ensures Swap(s, k - 1, j)[k - 1..] == t[k - 1..]
  {
    var u := Swap(s, k - 1, j);
    assert u[k - 1] == t[k - 1] && u[k..] == s[k..];
    assert t[k - 1..] == [t[k - 1]] + t[k..];
    assert u[k - 1..] == [u[k - 1]] + u[k..];
  }

  /**
   * Bringing the entry `t` wants last among the first `k` into position k-1
   * leaves the same entries as `t` before it.
   */
  lemma SwapKeepsRest(s: seq<nat>, t: seq<nat>, k: nat, j: nat)
    requires |s| == |t| && 0 < k <= |s| && multiset(s[..k]) == multiset(t[..k])
    requires j < k && s[j] == t[k - 1]
    ensures multiset(Swap(s, k - 1, j)[..k - 1]) == multiset(t[..k - 1])
  {
    SwapPrefix(s, k, j);
    SwapLastKeepsRest(s[..k], t[..k], j);
    assert t[..k][..k - 1] == t[..k - 1];
  }

  /** Bringing the entry `t` holds last into the last position of `s` leaves the same entries before it. */
  lemma SwapLastKeepsRest(s: seq<nat>, t: seq<nat>, j: nat)
    requires |s| == |t| > 0 && multiset(s) == multiset(t) && j < |s| && s[j] == t[|t| - 1]
    ensures multiset(Swap(s, |s| - 1, j)[..|s| - 1]) == multiset(t[..|t| - 1])
  {
    var swapped := Swap(s, |s| - 1, j);
    SwapPermutes(s, |s| - 1, j);
    assert swapped[|s| - 1] == s[j];
    DropLast(swapped, s, t);
  }

  /** Exchanging two of the first `k` entries and then cutting at `k - 1` is cutting first. */
  lemma SwapPrefix(s: seq<nat>, k: nat, j: nat)
    requires 0 < k <= |s| && j < k
    ensures Swap(s[..k], k - 1, j)[..k - 1] == Swap(s, k - 1, j)[..k - 1]
    ensures Swap(s[..k], k - 1, j)[k - 1] == s[j]
  {
    assert Swap(s[..k], k - 1, j) == Swap(s, k - 1, j)[..k];
  }

  /**
   * Two sequences with the same entries (both those of `c`) and the same
   * last entry have the same entries before it.
   */
  lemma DropLast(a: seq<nat>, c: seq<nat>, b: seq<nat>)
    requires |a| == |b| > 0 && multiset(a) == multiset(c) && multiset(c) == multiset(b) && a[|a| - 1] == b[|b| - 1]
    ensures multiset(a[..|a| - 1]) == multiset(b[..|b| - 1])
  {
    assert a == a[..|a| - 1] + [a[|a| - 1]];
    assert b == b[..|b| - 1] + [b[|b| - 1]];
    var x := a[|a| - 1];
    assert multiset(a) == multiset(a[..|a| - 1]) + multiset{x};
    assert multiset(b) == multiset(b[..|b| - 1]) + multiset{x};
    assert multiset(a[..|a| - 1]) == multiset(a) - multiset{x};
    assert multiset(b[..|b| - 1]) == multiset(b) - multiset{x};
  }

  /** The entry `t` wants last among the first `k` is among the first `k` of `s`. */
  lemma LastIsAmong(s: seq<nat>, t: seq<nat>, k: nat) returns (j: nat)
    requires |s| == |t| && 0 < k <= |s| && multiset(s[..k]) == multiset(t[..k])
    ensures j < k && s[j] == t[k - 1]
  {
    assert t[..k][k - 1] == t[k - 1];
    assert t[k - 1] in multiset(s[..k]);
    j :| 0 <= j < k && s[..k][j] == t[k - 1];
  }

  /** A first pick below `k` names the position exchanged with k-1 outright. */
  lemma ShuffleStep(s: seq<nat>, j: nat, rest: seq<nat>, k: nat)
    requires 1 < k <= |s| && j < k
    ensures ShuffleFirst(s, [j] + rest, k) == ShuffleFirst(Swap(s, k - 1, j), rest, k - 1)
  {
    assert ([j] + rest)[0] == j && ([j] + rest)[1..] == rest;
    assert j % k == j;
  }

  /**
   * Any rearrangement of the first `k` entries of `s` is what some
   * generator output makes of them: the shuffle can produce every
   * permutation.
   */
  lemma {:induction false} ShuffleReaches(s: seq<nat>, t: seq<nat>, k: nat)
    requires |s| == |t| && k <= |s| && s[k..] == t[k..] && multiset(s[..k]) == multiset(t[..k])
    ensures exists picks :: ShuffleFirst(s, picks, k) == t
    decreases k
  {
    if k == 0 {
      assert s == s[0..] && t == t[0..];
      assert ShuffleFirst(s, [], k) == t;
    } else if k == 1 {
      var j := LastIsAmong(s, t, k);
      assert s == [s[0]] + s[1..] && t == [t[0]] + t[1..];
      assert ShuffleFirst(s, [], k) == t;
    } else {
      var j := LastIsAmong(s, t, k);
      var u := Swap(s, k - 1, j);
      SwapFixesLast(s, t, k, j);
      SwapKeepsRest(s, t, k, j);
      ShuffleReaches(u, t, k - 1);
      var rest :| ShuffleFirst(u, rest, k - 1) == t;
      ShuffleStep(s, j, rest, k);
    }
  }

  /**
   * The shuffled indices rearrange 0 through n-1, and every rearrangement of
   * them is the shuffle under some generator output.
   */
  lemma ShuffledIndicesSpec(n: nat, picks: seq<nat>, p: seq<nat>)
    ensures IndexPermutation(Shuffle(Iota(n), picks), n)
    ensures IndexPermutation(p, n) ==> exists ps :: Shuffle(Iota(n), ps) == p
  {
    ShufflePermutes(Iota(n), picks, n);
    if IndexPermutation(p, n) {
      PermutationIndices(p, n);
      assert Iota(n) == Iota(n)[..n] && p == p[..n];
      assert Iota(n)[n..] == [] == p[n..];
      ShuffleReaches(Iota(n), p, n);
      var ps :| ShuffleFirst(Iota(n), ps, n) == p;
      assert Shuffle(Iota(n), ps) == p;
    }
  }
}
