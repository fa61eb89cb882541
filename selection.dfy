/**
 * Array idioms the services use to pick one bid out of many: a `reduce` with no
 * initial value that keeps the running best under a strict comparison, `find`,
 * `Math.min`/`Math.max` over a list of numbers, the mean of a list, `Math.round`, and a stable
 * `sort` on a copy.
 */
module Selection {
  import opened Wrappers

  /** Index chosen by `s.reduce((best, x) => key(x) < key(best) ? x : best)`. */
  function FirstMin<T>(s: seq<T>, key: T -> real): (k: nat)
    requires |s| > 0
    ensures k < |s|
    ensures forall j :: 0 <= j < |s| ==> key(s[k]) <= key(s[j])
    ensures forall j :: 0 <= j < k ==> key(s[j]) > key(s[k])
  {
    MinFold(s, key, 0, 1)
  }

  /** One step of the fold: `best` is the running choice, `next` the element to compare. */
  function MinFold<T>(s: seq<T>, key: T -> real, best: nat, next: nat): (k: nat)
    requires best < next <= |s|
    requires forall j :: 0 <= j < next ==> key(s[best]) <= key(s[j])
    requires forall j :: 0 <= j < best ==> key(s[j]) > key(s[best])
    ensures best <= k < |s|
    ensures forall j :: 0 <= j < |s| ==> key(s[k]) <= key(s[j])
    ensures forall j :: 0 <= j < k ==> key(s[j]) > key(s[k])
    decreases |s| - next
  {
    if next == |s| then best
    else MinFold(s, key, if key(s[next]) < key(s[best]) then next else best, next + 1)
  }

  /** Index chosen by `s.reduce((best, x) => key(x) > key(best) ? x : best)`. */
  function FirstMax<T>(s: seq<T>, key: T -> real): (k: nat)
    requires |s| > 0
    ensures k < |s|
    ensures forall j :: 0 <= j < |s| ==> key(s[j]) <= key(s[k])
    ensures forall j :: 0 <= j < k ==> key(s[j]) < key(s[k])
  {
    FirstMin(s, x => -key(x))
  }

  /** Index of the element `s.find(p)` returns, if any. */
  function FirstMatch<T>(s: seq<T>, p: T -> bool): (r: Option<nat>)
    ensures r.Some? ==> r.value < |s| && p(s[r.value])
    ensures r.Some? ==> forall j :: 0 <= j < r.value ==> !p(s[j])
    ensures r.None? ==> forall j :: 0 <= j < |s| ==> !p(s[j])
  {
    if |s| == 0 then None
    else if p(s[0]) then Some(0)
    else match FirstMatch(s[1..], p)
      case None => None
      case Some(k) => Some(k + 1)
  }

  /** `s.find(p) || s[0]`: the first match, or the first element when nothing matches. */
  function FirstMatchOrFirst<T>(s: seq<T>, p: T -> bool): (k: nat)
    requires |s| > 0
    ensures k < |s|
    ensures forall j :: 0 <= j < k ==> !p(s[j])
    ensures p(s[k]) || (k == 0 && forall j :: 0 <= j < |s| ==> !p(s[j]))
  {
    match FirstMatch(s, p)
    case Some(k) => k
    case None => 0
  }

  /** `Math.round`: the nearest integer, halves rounded up. */
  function Round(x: real): (r: int)
    ensures x - 0.5 < r as real <= x + 0.5
  {
    (x + 0.5).Floor
  }

  /** Rounding keeps order. */
  lemma RoundMonotone(x: real, y: real)
    requires x <= y
    ensures Round(x) <= Round(y)
  {
  }

  function Sum(s: seq<real>): real
  {
    if |s| == 0 then 0.0 else s[0] + Sum(s[1..])
  }

  /** `Math.min(...s)` on a non-empty list. */
  function MinOf(s: seq<real>): (m: real)
    requires |s| > 0
    ensures m in s
    ensures forall j :: 0 <= j < |s| ==> m <= s[j]
  {
    if |s| == 1 then s[0]
    else
      var rest := MinOf(s[1..]);
      if s[0] <= rest then s[0] else rest
  }

  /** `Math.max(...s)` on a non-empty list. */
  function MaxOf(s: seq<real>): (m: real)
    requires |s| > 0
    ensures m in s
    ensures forall j :: 0 <= j < |s| ==> s[j] <= m
  {
    if |s| == 1 then s[0]
    else
      var rest := MaxOf(s[1..]);
      if s[0] >= rest then s[0] else rest
  }

  /**
   * Stable ascending sort by `key`, as `[...s].sort((a, b) => key(a) - key(b))`
   * behaves: an element goes in front of every later element whose key is not
   * smaller, so equal keys keep their input order.
   */
  function SortBy<T>(s: seq<T>, key: T -> real): (r: seq<T>)
    ensures |r| == |s|
  {
    if |s| == 0 then [] else Insert(s[0], SortBy(s[1..], key), key)
  }

  function Insert<T>(x: T, t: seq<T>, key: T -> real): (r: seq<T>)
    ensures |r| == |t| + 1
    ensures r[0] == if |t| == 0 || key(x) <= key(t[0]) then x else t[0]
  {
    if |t| == 0 then [x]
    else if key(x) <= key(t[0]) then [x] + t
    else [t[0]] + Insert(x, t[1..], key)
  }

  predicate Ascending<T>(s: seq<T>, key: T -> real)
  {
    forall i, j :: 0 <= i < j < |s| ==> key(s[i]) <= key(s[j])
  }

  lemma {:induction false} InsertPermutes<T>(x: T, t: seq<T>, key: T -> real)
    ensures multiset(Insert(x, t, key)) == multiset(t) + multiset{x}
  {
    if |t| > 0 && key(x) > key(t[0]) {
      InsertPermutes(x, t[1..], key);
      assert t == [t[0]] + t[1..];
    }
  }

  lemma {:induction false} InsertKeepsOrder<T>(x: T, t: seq<T>, key: T -> real)
    requires Ascending(t, key)
    ensures Ascending(Insert(x, t, key), key)
  {
    if |t| > 0 && key(x) > key(t[0]) {
      InsertKeepsOrder(x, t[1..], key);
      InsertPermutes(x, t[1..], key);
      var r := Insert(x, t[1..], key);
      forall k | 0 <= k < |r| ensures key(t[0]) <= key(r[k]) {
        assert r[k] in multiset(r);
        if r[k] != x {
          var m :| 0 <= m < |t[1..]| && t[1..][m] == r[k];
          assert t[1..][m] == t[m + 1];
        }
      }
    }
  }

  /** The copy is a permutation of the input, in ascending key order. */
  lemma {:induction false} SortBySorts<T>(s: seq<T>, key: T -> real)
    ensures Ascending(SortBy(s, key), key)
    ensures multiset(SortBy(s, key)) == multiset(s)
  {
    if |s| > 0 {
      SortBySorts(s[1..], key);
      InsertKeepsOrder(s[0], SortBy(s[1..], key), key);
      InsertPermutes(s[0], SortBy(s[1..], key), key);
      assert s == [s[0]] + s[1..];
    }
  }

  /** The head of the sorted copy is the element the strict-`<` fold picks: the first of minimum key. */
  lemma {:induction false} SortByHead<T>(s: seq<T>, key: T -> real)
    requires |s| > 0
    ensures SortBy(s, key)[0] == s[FirstMin(s, key)]
  {
    var i := FirstMinOfHead(s, key);
    FirstMinUnique(s, key, i);
  }

  lemma {:induction false} FirstMinOfHead<T>(s: seq<T>, key: T -> real) returns (i: nat)
    requires |s| > 0
    ensures i < |s| && SortBy(s, key)[0] == s[i]
    ensures forall j :: 0 <= j < |s| ==> key(s[i]) <= key(s[j])
    ensures forall j :: 0 <= j < i ==> key(s[j]) > key(s[i])
  {
    if |s| == 1 {
      i := 0;
    } else {
      var i' := FirstMinOfHead(s[1..], key);
      if key(s[0]) <= key(s[1..][i']) {
        i := 0;
        forall j | 1 <= j < |s| ensures key(s[0]) <= key(s[j]) {
          assert s[j] == s[1..][j - 1];
        }
      } else {
        i := i' + 1;
        forall j | 0 <= j < |s| ensures key(s[i]) <= key(s[j]) {
          if j > 0 { assert s[j] == s[1..][j - 1]; }
        }
        forall j | 0 <= j < i ensures key(s[j]) > key(s[i]) {
          if j > 0 { assert s[j] == s[1..][j - 1]; }
        }
      }
    }
  }

  /** The first index of minimum key is unique. */
  lemma FirstMinUnique<T>(s: seq<T>, key: T -> real, i: nat)
    requires |s| > 0 && i < |s|
    requires forall j :: 0 <= j < |s| ==> key(s[i]) <= key(s[j])
    requires forall j :: 0 <= j < i ==> key(s[j]) > key(s[i])
    ensures i == FirstMin(s, key)
  {
  }
}
