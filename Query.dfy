/**
 * The query string of a URL as the crawler handles it: the list of
 * (key, value) pairs that `parse_qsl(..., keep_blank_values=True)` yields,
 * the tracking-parameter filter, `list.sort()` on the pairs, and the
 * insertion-ordered `dict` built from them.
 */
module Query {
  import opened Wrappers
  import opened Strings

  datatype Pair = Pair(key: string, value: string)

  /**
   * A tracking parameter: the key starts with `utm_` (case-sensitively) or,
   * lower-cased, is one of the three session-id names.
   */
  predicate IsTracking(key: string) {
    StartsWith(key, "utm_") || Lower(key) in {"sessionid", "sid", "phpsessid"}
  }

  /** The list comprehension that drops tracking pairs, keeping the order of the rest. */
  function Untracked(q: seq<Pair>): (r: seq<Pair>)
    ensures forall p :: multiset(r)[p] == if IsTracking(p.key) then 0 else multiset(q)[p]
    ensures forall i :: 0 <= i < |r| ==> !IsTracking(r[i].key)
    decreases |q|
  {
    if q == [] then []
    else
      assert q == [q[0]] + q[1..];
      if IsTracking(q[0].key) then Untracked(q[1..]) else [q[0]] + Untracked(q[1..])
  }

  /** A list with no tracking pair is left as it is by the filter. */
  lemma {:induction false} UntrackedOfClean(q: seq<Pair>)
    requires forall i :: 0 <= i < |q| ==> !IsTracking(q[i].key)
    ensures Untracked(q) == q
    decreases |q|
  {
    if q != [] {
      UntrackedOfClean(q[1..]);
    }
  }

  // ---------- the order list.sort() uses on (key, value) tuples ----------

  /** Tuple comparison: by key, and by value between equal keys. */
  predicate PairLess(a: Pair, b: Pair) {
    Less(a.key, b.key) || (a.key == b.key && Less(a.value, b.value))
  }

  predicate PairLessEq(a: Pair, b: Pair) {
    a == b || PairLess(a, b)
  }

  lemma PairLessTotal(a: Pair, b: Pair)
    ensures a == b || PairLess(a, b) || PairLess(b, a)
  {
    LessTotal(a.key, b.key);
    LessTotal(a.value, b.value);
  }

  lemma PairLessEqAntisymmetric(a: Pair, b: Pair)
    requires PairLessEq(a, b) && PairLessEq(b, a)
    ensures a == b
  {
    if a != b {
      if Less(a.key, b.key) {
        LessAsymmetric(a.key, b.key);
        LessIrreflexive(a.key);
      } else {
        LessIrreflexive(b.key);
        LessAsymmetric(a.value, b.value);
      }
    }
  }

  lemma PairLessAsymmetric(a: Pair, b: Pair)
    requires PairLess(a, b)
    ensures !PairLessEq(b, a)
  {
    LessIrreflexive(a.key);
    LessIrreflexive(a.value);
    if PairLessEq(b, a) {
      PairLessEqAntisymmetric(a, b);
    }
  }

  lemma PairLessEqTransitive(a: Pair, b: Pair, c: Pair)
    requires PairLessEq(a, b) && PairLessEq(b, c)
    ensures PairLessEq(a, c)
  {
    if a != b && b != c {
      if Less(a.key, b.key) && Less(b.key, c.key) {
        LessTransitive(a.key, b.key, c.key);
      } else if a.key == b.key && b.key == c.key {
        LessTransitive(a.value, b.value, c.value);
      }
    }
  }

  predicate Sorted(s: seq<Pair>) {
    forall i, j :: 0 <= i < j < |s| ==> PairLessEq(s[i], s[j])
  }

  /** Inserts `p` before the first element it does not exceed. */
  function Insert(p: Pair, s: seq<Pair>): (r: seq<Pair>)
    ensures multiset(r) == multiset(s) + multiset{p}
    decreases |s|
  {
    if s == [] || PairLessEq(p, s[0]) then [p] + s
    else
      assert s == [s[0]] + s[1..];
      [s[0]] + Insert(p, s[1..])
  }

  lemma {:induction false} InsertSorted(p: Pair, s: seq<Pair>)
    requires Sorted(s)
    ensures Sorted(Insert(p, s))
    decreases |s|
  {
    var r := Insert(p, s);
    if s == [] || PairLessEq(p, s[0]) {
      forall i, j | 0 <= i < j < |r| ensures PairLessEq(r[i], r[j]) {
        if i == 0 && j > 1 {
          PairLessEqTransitive(p, s[0], s[j - 1]);
        }
      }
    } else {
      var t := Insert(p, s[1..]);
      InsertSorted(p, s[1..]);
      PairLessTotal(p, s[0]);
      forall i, j | 0 <= i < j < |r| ensures PairLessEq(r[i], r[j]) {
        if i == 0 {
          var x := t[j - 1];
          assert x in multiset(t);
          if x != p {
            assert x in multiset(s[1..]);
            var k :| 0 <= k < |s[1..]| && s[1..][k] == x;
            assert s[k + 1] == x;
          }
        }
      }
    }
  }

  /** `list.sort()` on the pairs: a sorted permutation of the input. */
  function SortPairs(s: seq<Pair>): (r: seq<Pair>)
    ensures multiset(r) == multiset(s)
    ensures Sorted(r)
    decreases |s|
  {
    if s == [] then []
    else
      assert s == [s[0]] + s[1..];
      var t := SortPairs(s[1..]);
      InsertSorted(s[0], t);
      Insert(s[0], t)
  }

  /** The head of a sorted list is below every element of it. */
  lemma SortedHeadIsLeast(s: seq<Pair>, x: Pair)
    requires Sorted(s) && x in s
    ensures PairLessEq(s[0], x)
  {
    var k :| 0 <= k < |s| && s[k] == x;
  }

  lemma SortedTail(s: seq<Pair>)
    requires Sorted(s) && s != []
    ensures Sorted(s[1..])
  {
    forall i, j | 0 <= i < j < |s| - 1 ensures PairLessEq(s[1..][i], s[1..][j]) {
      assert s[1..][i] == s[i + 1] && s[1..][j] == s[j + 1];
    }
  }

  /** Two sorted lists holding the same pairs are the same list. */
  lemma {:induction false} SortedUnique(a: seq<Pair>, b: seq<Pair>)
    requires Sorted(a) && Sorted(b) && multiset(a) == multiset(b)
    ensures a == b
    decreases |a|
  {
    assert |a| == |multiset(a)| == |multiset(b)| == |b|;
    if a != [] {
      var x, y := a[0], b[0];
      assert x in multiset(b) && y in multiset(a);
      SortedHeadIsLeast(b, x);
      SortedHeadIsLeast(a, y);
      PairLessEqAntisymmetric(x, y);
      TailMultiset(a);
      TailMultiset(b);
      SortedTail(a);
      SortedTail(b);
      SortedUnique(a[1..], b[1..]);
    }
  }

  lemma TailMultiset(a: seq<Pair>)
    requires a != []
    ensures multiset(a[1..]) == multiset(a) - multiset{a[0]}
  {
    assert a == [a[0]] + a[1..];
  }

  /** Sorting a list that is already sorted changes nothing. */
  lemma SortSortedIsIdentity(s: seq<Pair>)
    requires Sorted(s)
    ensures SortPairs(s) == s
  {
    SortedUnique(SortPairs(s), s);
  }

  // ---------- filter-then-sort ----------

  /** The query that survives normalisation: tracking pairs dropped, the rest sorted. */
  function Canonical(q: seq<Pair>): (r: seq<Pair>)
    ensures Sorted(r)
    ensures multiset(r) == multiset(Untracked(q))
    ensures forall p :: p in r <==> p in q && !IsTracking(p.key)
  {
    var r := SortPairs(Untracked(q));
    assert forall p :: p in r <==> p in multiset(Untracked(q));
    r
  }

  /** Filtering and sorting a second time gives the same list. */
  lemma CanonicalIdempotent(q: seq<Pair>)
    ensures Canonical(Canonical(q)) == Canonical(q)
  {
    var c := Canonical(q);
    assert forall i :: 0 <= i < |c| ==> !IsTracking(c[i].key) by {
      forall i | 0 <= i < |c| ensures !IsTracking(c[i].key) {
        assert c[i] in c;
      }
    }
    UntrackedOfClean(c);
    SortSortedIsIdentity(c);
  }

  /**
   * Two queries canonicalise alike exactly when they hold the same
   * non-tracking pairs, each as many times: order and tracking pairs do not
   * matter, anything else does.
   */
  lemma CanonicalEqualIff(a: seq<Pair>, b: seq<Pair>)
    ensures Canonical(a) == Canonical(b) <==> multiset(Untracked(a)) == multiset(Untracked(b))
  {
    if multiset(Untracked(a)) == multiset(Untracked(b)) {
      SortedUnique(Canonical(a), Canonical(b));
    }
  }

  /** The order of the pairs in the input does not matter. */
  lemma CanonicalPermutationInvariant(a: seq<Pair>, b: seq<Pair>)
    requires multiset(a) == multiset(b)
    ensures Canonical(a) == Canonical(b)
  {
    assert multiset(Untracked(a)) == multiset(Untracked(b)) by {
      forall p ensures multiset(Untracked(a))[p] == multiset(Untracked(b))[p] {
      }
    }
    CanonicalEqualIff(a, b);
  }

  // ---------- dict(qs) and new_qs["page"] = ... ----------

  /** One pair per key, as in a dict. */
  predicate UniqueKeys(d: seq<Pair>) {
    forall i, j :: 0 <= i < j < |d| ==> d[i].key != d[j].key
  }

  /** With unique keys, no pair occurs twice. */
  lemma {:induction false} UniqueKeysOnce(d: seq<Pair>)
    requires UniqueKeys(d)
    ensures forall p :: multiset(d)[p] <= 1
    decreases |d|
  {
    if d != [] {
      assert d == [d[0]] + d[1..];
      assert UniqueKeys(d[1..]) by {
        forall i, j | 0 <= i < j < |d[1..]| ensures d[1..][i].key != d[1..][j].key {
          assert d[1..][i] == d[i + 1] && d[1..][j] == d[j + 1];
        }
      }
      UniqueKeysOnce(d[1..]);
      forall p ensures multiset(d)[p] <= 1 {
        if p == d[0] {
          assert p !in d[1..] by {
            forall j | 0 <= j < |d[1..]| ensures d[1..][j] != p {
              assert d[1..][j] == d[j + 1];
            }
          }
        }
      }
    }
  }

  /** `dict(qs).get(k)`: the value of the last pair with key `k`. */
  function Lookup(q: seq<Pair>, k: string): Option<string>
    decreases |q|
  {
    if q == [] then None
    else if q[|q| - 1].key == k then Some(q[|q| - 1].value)
    else Lookup(q[..|q| - 1], k)
  }

  /** `d[k] = v` on an insertion-ordered dict held as a pair list. */
  function DictSet(d: seq<Pair>, k: string, v: string): seq<Pair>
    decreases |d|
  {
    if d == [] then [Pair(k, v)]
    else if d[0].key == k then [Pair(k, v)] + d[1..]
    else [d[0]] + DictSet(d[1..], k, v)
  }

  /** After `d[k] = v` the dict maps `k` to `v` and keeps every other entry. */
  lemma {:induction false} DictSetMembers(d: seq<Pair>, k: string, v: string)
    requires UniqueKeys(d)
    ensures UniqueKeys(DictSet(d, k, v))
    ensures forall p :: p in DictSet(d, k, v) <==> p == Pair(k, v) || (p.key != k && p in d)
    decreases |d|
  {
    if d != [] {
      assert d == [d[0]] + d[1..];
      if d[0].key == k {
        forall p | p in d[1..] ensures p.key != k {
          var j :| 0 <= j < |d[1..]| && d[1..][j] == p;
          assert d[j + 1] == p;
        }
      } else {
        DictSetMembers(d[1..], k, v);
        DictSetKeepsHeadUnique(d, k, v);
      }
    }
  }

  /** Setting a key other than the head's leaves the head's key unique. */
  lemma DictSetKeepsHeadUnique(d: seq<Pair>, k: string, v: string)
    requires UniqueKeys(d) && d != [] && d[0].key != k
    requires forall p :: p in DictSet(d[1..], k, v) <==> p == Pair(k, v) || (p.key != k && p in d[1..])
    ensures forall j :: 0 <= j < |DictSet(d[1..], k, v)| ==> DictSet(d[1..], k, v)[j].key != d[0].key
  {
    var t := DictSet(d[1..], k, v);
    forall j | 0 <= j < |t| ensures t[j].key != d[0].key {
      assert t[j] in t;
      if t[j] != Pair(k, v) {
        var m :| 0 <= m < |d[1..]| && d[1..][m] == t[j];
        assert d[m + 1] == t[j];
      }
    }
  }

  /** `dict(qs)`: one entry per key, in first-appearance order, holding the last value. */
  function DictOf(q: seq<Pair>): seq<Pair>
    decreases |q|
  {
    if q == [] then [] else DictSet(DictOf(q[..|q| - 1]), q[|q| - 1].key, q[|q| - 1].value)
  }

  /** `(k, v)` is an entry of `dict(qs)` exactly when `v` is the last value given for `k`. */
  lemma {:induction false} DictOfMembers(q: seq<Pair>)
    ensures UniqueKeys(DictOf(q))
    ensures forall p :: p in DictOf(q) <==> Lookup(q, p.key) == Some(p.value)
    decreases |q|
  {
    if q != [] {
      DictOfMembers(q[..|q| - 1]);
      DictSetMembers(DictOf(q[..|q| - 1]), q[|q| - 1].key, q[|q| - 1].value);
    }
  }

  /** In a list with one pair per key, the looked-up value is the one its pair holds. */
  lemma {:induction false} LookupUnique(d: seq<Pair>, p: Pair)
    requires UniqueKeys(d)
    ensures Lookup(d, p.key) == Some(p.value) <==> p in d
    decreases |d|
  {
    if d != [] {
      var init := d[..|d| - 1];
      assert d == init + [d[|d| - 1]];
      LookupUnique(init, p);
    }
  }

  /** `dict(qs).get(k)` is the last value given for `k` in `qs`. */
  lemma LookupDictOf(q: seq<Pair>, k: string)
    ensures Lookup(DictOf(q), k) == Lookup(q, k)
  {
    DictOfMembers(q);
    match Lookup(q, k)
    case Some(v) =>
      LookupUnique(DictOf(q), Pair(k, v));
    case None =>
      match Lookup(DictOf(q), k)
      case Some(w) =>
        LookupUnique(DictOf(q), Pair(k, w));
      case None =>
  }

  /** Setting a key twice leaves the second value, where the first one was put. */
  lemma {:induction false} DictSetTwice(d: seq<Pair>, k: string, v1: string, v2: string)
    ensures DictSet(DictSet(d, k, v1), k, v2) == DictSet(d, k, v2)
    decreases |d|
  {
    if d != [] && d[0].key != k {
      DictSetTwice(d[1..], k, v1, v2);
      assert ([d[0]] + DictSet(d[1..], k, v1))[1..] == DictSet(d[1..], k, v1);
    } else if d != [] {
      assert ([Pair(k, v1)] + d[1..])[1..] == d[1..];
    }
  }
}
