/** The list operations the handlers are built from: Array.prototype.filter, a filter-length count, a
    reduce-to-sum, removal of one index, insertion at an index, and the swap of two slots. */
module Seqs {
  import opened Wrappers

  /** s.findIndex(p), with -1 as None. */
  function FindFirst<T>(s: seq<T>, p: T -> bool): (r: Option<nat>)
    ensures r.Some? ==> r.value < |s| && p(s[r.value]) && forall j :: 0 <= j < r.value ==> !p(s[j])
    ensures r.None? ==> forall j :: 0 <= j < |s| ==> !p(s[j])
  {
    if s == [] then None
    else if p(s[0]) then Some(0)
    else match FindFirst(s[1..], p)
      case None => None
      case Some(i) => Some(i + 1)
  }

  /** The first match is the index where p holds and holds nowhere before. */
  lemma PrefixSnoc<T>(s: seq<T>, i: nat)
    requires i < |s|
    ensures s[..i + 1] == s[..i] + [s[i]]
  {
  }

  lemma FindFirstAt<T>(s: seq<T>, p: T -> bool, m: nat)
    requires m < |s| && p(s[m]) && forall j :: 0 <= j < m ==> !p(s[j])
    ensures FindFirst(s, p) == Some(m)
  {
  }

  /** s.find(p) */
  function Find<T>(s: seq<T>, p: T -> bool): (r: Option<T>)
    ensures r.Some? <==> exists j :: 0 <= j < |s| && p(s[j])
    ensures r.Some? ==> r.value in s && p(r.value)
  {
    match FindFirst(s, p)
    case None => None
    case Some(i) => Some(s[i])
  }

  /** The first index at or after k where p holds. */
  function FindFrom<T>(s: seq<T>, p: T -> bool, k: nat): (r: Option<nat>)
    ensures r.Some? ==> k <= r.value < |s| && p(s[r.value]) && forall j :: k <= j < r.value ==> !p(s[j])
    ensures r.None? ==> forall j :: k <= j < |s| ==> !p(s[j])
    decreases |s| - k
  {
    if k >= |s| then None
    else if p(s[k]) then Some(k)
    else FindFrom(s, p, k + 1)
  }

  /** The last index before k where p holds. */
  function LastBefore<T>(s: seq<T>, p: T -> bool, k: nat): (r: Option<nat>)
    requires k <= |s|
    ensures r.Some? ==> r.value < k && p(s[r.value]) && forall j :: r.value < j < k ==> !p(s[j])
    ensures r.None? ==> forall j :: 0 <= j < k ==> !p(s[j])
  {
    if k == 0 then None
    else if p(s[k - 1]) then Some(k - 1)
    else LastBefore(s, p, k - 1)
  }

  /** s.filter(p) */
  function Filter<T(!new)>(s: seq<T>, p: T -> bool): (r: seq<T>)
    ensures |r| <= |s|
    ensures forall x :: x in r <==> x in s && p(x)
  {
    if s == [] then []
    else
      assert s == [s[0]] + s[1..];
      if p(s[0]) then [s[0]] + Filter(s[1..], p) else Filter(s[1..], p)
  }

  /** Filtering keeps every p-element as many times as s has it, and no other. */
  lemma {:induction false} FilterMultiset<T(!new)>(s: seq<T>, p: T -> bool)
    ensures forall x :: multiset(Filter(s, p))[x] == if p(x) then multiset(s)[x] else 0
  {
    if s != [] {
      FilterMultiset(s[1..], p);
      assert s == [s[0]] + s[1..];
    }
  }

  /** Filtering keeps relative order: it distributes over concatenation. */
  lemma {:induction false} FilterConcat<T(!new)>(a: seq<T>, b: seq<T>, p: T -> bool)
    ensures Filter(a + b, p) == Filter(a, p) + Filter(b, p)
  {
    if a == [] {
      assert a + b == b;
    } else {
      assert (a + b)[0] == a[0];
      assert (a + b)[1..] == a[1..] + b;
      FilterConcat(a[1..], b, p);
    }
  }

  lemma FilterNone<T(!new)>(s: seq<T>, p: T -> bool)
    requires forall j :: 0 <= j < |s| ==> !p(s[j])
    ensures Filter(s, p) == []
  {
  }

  /** An element where p holds splits the filtered list into what comes before it and what comes after. */
  lemma FilterAt<T(!new)>(s: seq<T>, p: T -> bool, k: nat)
    requires k < |s| && p(s[k])
    ensures Filter(s, p) == Filter(s[..k], p) + [s[k]] + Filter(s[k + 1..], p)
  {
    var u := s[k..];
    assert s == s[..k] + u;
    FilterConcat(s[..k], u, p);
    assert u[0] == s[k] && u[1..] == s[k + 1..];
    assert Filter(u, p) == [s[k]] + Filter(s[k + 1..], p);
  }

  /** The filtered prefix s[..k] ends with s[LastBefore(s, p, k)], and is empty when there is none. */
  lemma FilterPrefixLast<T(!new)>(s: seq<T>, p: T -> bool, k: nat)
    requires k <= |s|
    ensures LastBefore(s, p, k).None? ==> Filter(s[..k], p) == []
    ensures LastBefore(s, p, k).Some? ==>
              var j := LastBefore(s, p, k).value;
              Filter(s[..k], p) == Filter(s[..j], p) + [s[j]]
  {
    match LastBefore(s, p, k)
    case None =>
      FilterNone(s[..k], p);
    case Some(j) =>
      var t := s[..k];
      FilterAt(t, p, j);
      assert t[..j] == s[..j];
      FilterNone(t[j + 1..], p);
  }

  /** The filtered suffix s[k..] is empty when p holds nowhere from k on ... */
  lemma FilterSuffixNone<T(!new)>(s: seq<T>, p: T -> bool, k: nat)
    requires k <= |s| && FindFrom(s, p, k).None?
    ensures Filter(s[k..], p) == []
  {
    var t := s[k..];
    assert forall i :: 0 <= i < |t| ==> t[i] == s[k + i];
    FilterNone(t, p);
  }

  /** ... and otherwise starts with s[FindFrom(s, p, k)]. */
  lemma {:induction false} FilterSuffixFirst<T(!new)>(s: seq<T>, p: T -> bool, k: nat, j: nat)
    requires k <= |s| && FindFrom(s, p, k) == Some(j)
    ensures Filter(s[k..], p) == [s[j]] + Filter(s[j + 1..], p)
    decreases |s| - k
  {
    var t := s[k..];
    assert t[0] == s[k] && t[1..] == s[k + 1..];
    if !p(s[k]) {
      FilterSuffixFirst(s, p, k + 1, j);
    }
  }

  /** Filtering with a predicate that holds everywhere on s is the identity. */
  lemma {:induction false} FilterAll<T(!new)>(s: seq<T>, p: T -> bool)
    requires forall x :: x in s ==> p(x)
    ensures Filter(s, p) == s
  {
    if s != [] {
      FilterAll(s[1..], p);
    }
  }

  /** s.filter(p).length */
  function Count<T(!new)>(s: seq<T>, p: T -> bool): (n: nat)
    ensures n <= |s|
    ensures n == 0 <==> forall x :: x in s ==> !p(x)
    ensures n == |s| <==> forall x :: x in s ==> p(x)
  {
    var r := Filter(s, p);
    assert |r| == 0 <==> forall x :: x in s ==> !p(x) by {
      if |r| != 0 { assert r[0] in r; }
      if |r| == 0 { forall x | x in s ensures !p(x) { assert x !in r; } }
    }
    assert |r| == |s| <==> forall x :: x in s ==> p(x) by {
      if forall x :: x in s ==> p(x) { FilterAll(s, p); }
      if |r| == |s| { FilterFull(s, p); }
    }
    |r|
  }

  lemma {:induction false} FilterFull<T(!new)>(s: seq<T>, p: T -> bool)
    requires |Filter(s, p)| == |s|
    ensures forall x :: x in s ==> p(x)
  {
    if s != [] {
      assert p(s[0]);
      FilterFull(s[1..], p);
      assert s == [s[0]] + s[1..];
    }
  }

  /** The counts of p and of its negation q add up to the length. */
  lemma {:induction false} CountSplit<T(!new)>(s: seq<T>, p: T -> bool, q: T -> bool)
    requires forall x :: x in s ==> q(x) == !p(x)
    ensures Count(s, p) + Count(s, q) == |s|
  {
    if s != [] {
      CountSplit(s[1..], p, q);
    }
  }

  /** Filtering with predicates that agree on the list gives the same list. */
  lemma {:induction false} FilterExt<T(!new)>(s: seq<T>, p: T -> bool, q: T -> bool)
    requires forall x :: x in s ==> p(x) == q(x)
    ensures Filter(s, p) == Filter(s, q)
  {
    if s != [] {
      FilterExt(s[1..], p, q);
    }
  }

  /** Filtering twice with the same predicate filters once. */
  lemma FilterIdempotent<T(!new)>(s: seq<T>, p: T -> bool)
    ensures Filter(Filter(s, p), p) == Filter(s, p)
  {
    FilterAll(Filter(s, p), p);
  }

  /** Predicates that never hold together count at most the whole list between them. */
  lemma {:induction false} CountDisjoint<T(!new)>(s: seq<T>, p: T -> bool, q: T -> bool)
    requires forall x :: x in s ==> !(p(x) && q(x))
    ensures Count(s, p) + Count(s, q) <= |s|
  {
    if s != [] {
      CountDisjoint(s[1..], p, q);
    }
  }

  /** Filtering a list with one more element in front. */
  lemma FilterCons<T(!new)>(x: T, s: seq<T>, p: T -> bool)
    ensures Filter([x] + s, p) == if p(x) then [x] + Filter(s, p) else Filter(s, p)
  {
    assert ([x] + s)[1..] == s;
  }

  /** Counting over a list with one more element in front. */
  lemma CountCons<T(!new)>(x: T, s: seq<T>, p: T -> bool)
    ensures Count([x] + s, p) == (if p(x) then 1 else 0) + Count(s, p)
  {
    FilterCons(x, s, p);
  }

  /** s.reduce((acc, x) => acc + f(x), 0) */
  function Sum<T>(s: seq<T>, f: T -> real): real
  {
    if s == [] then 0.0 else f(s[0]) + Sum(s[1..], f)
  }

  lemma {:induction false} SumConcat<T>(a: seq<T>, b: seq<T>, f: T -> real)
    ensures Sum(a + b, f) == Sum(a, f) + Sum(b, f)
  {
    if a == [] {
      assert a + b == b;
    } else {
      assert (a + b)[1..] == a[1..] + b;
      SumConcat(a[1..], b, f);
    }
  }

  /** Sum over the filtered list is the sum over the whole list of a g that agrees with f where p holds
      and is 0 elsewhere. */
  lemma {:induction false} SumFilter<T(!new)>(s: seq<T>, p: T -> bool, f: T -> real, g: T -> real)
    requires forall x :: x in s ==> g(x) == if p(x) then f(x) else 0.0
    ensures Sum(Filter(s, p), f) == Sum(s, g)
  {
    if s != [] {
      SumFilter(s[1..], p, f, g);
    }
  }

  /** Sums of functions that agree on the list are equal. */
  lemma {:induction false} SumExt<T>(s: seq<T>, f: T -> real, g: T -> real)
    requires forall x :: x in s ==> f(x) == g(x)
    ensures Sum(s, f) == Sum(s, g)
  {
    if s != [] {
      SumExt(s[1..], f, g);
    }
  }

  /** The sum of a pointwise difference is the difference of the sums. */
  lemma {:induction false} SumDifference<T>(s: seq<T>, f: T -> real, g: T -> real, h: T -> real)
    requires forall x :: x in s ==> h(x) == f(x) - g(x)
    ensures Sum(s, h) == Sum(s, f) - Sum(s, g)
  {
    if s != [] {
      SumDifference(s[1..], f, g, h);
    }
  }

  /** The sum of a pointwise sum is the sum of the sums. */
  lemma {:induction false} SumAddition<T>(s: seq<T>, f: T -> real, g: T -> real, h: T -> real)
    requires forall x :: x in s ==> h(x) == f(x) + g(x)
    ensures Sum(s, h) == Sum(s, f) + Sum(s, g)
  {
    if s != [] {
      SumAddition(s[1..], f, g, h);
    }
  }

  /** A sum of nonnegative terms is nonnegative. */
  lemma {:induction false} SumNonNegative<T>(s: seq<T>, f: T -> real)
    requires forall x :: x in s ==> f(x) >= 0.0
    ensures Sum(s, f) >= 0.0
  {
    if s != [] {
      SumNonNegative(s[1..], f);
    }
  }

  /** Summing a pointwise smaller function gives a smaller sum. */
  lemma {:induction false} SumMonotone<T>(s: seq<T>, f: T -> real, g: T -> real)
    requires forall x :: x in s ==> f(x) <= g(x)
    ensures Sum(s, f) <= Sum(s, g)
  {
    if s != [] {
      SumMonotone(s[1..], f, g);
    }
  }

  /** s.filter((_, j) => j !== i) */
  function RemoveAt<T>(s: seq<T>, i: int): (r: seq<T>)
    ensures 0 <= i < |s| ==>
              && |r| == |s| - 1
              && (forall j :: 0 <= j < i ==> r[j] == s[j])
              && (forall j :: i <= j < |r| ==> r[j] == s[j + 1])
    ensures 0 <= i < |s| ==> multiset(r) + multiset{s[i]} == multiset(s)
    ensures !(0 <= i < |s|) ==> r == s
  {
    if 0 <= i < |s| then
      assert s == s[..i] + [s[i]] + s[i + 1..];
      s[..i] + s[i + 1..]
    else s
  }

  /** s.splice(j, 0, x) for 0 <= j <= |s| */
  function InsertAt<T>(s: seq<T>, j: nat, x: T): (r: seq<T>)
    requires j <= |s|
    ensures |r| == |s| + 1 && r[j] == x
    ensures forall k :: 0 <= k < j ==> r[k] == s[k]
    ensures forall k :: j < k < |r| ==> r[k] == s[k - 1]
    ensures multiset(r) == multiset(s) + multiset{x}
  {
    assert s == s[..j] + s[j..];
    s[..j] + [x] + s[j..]
  }

  /** Removing what was just inserted gives the list back. */
  lemma RemoveInserted<T>(s: seq<T>, j: nat, x: T)
    requires j <= |s|
    ensures RemoveAt(InsertAt(s, j, x), j) == s
  {
    var r := RemoveAt(InsertAt(s, j, x), j);
    assert forall k :: 0 <= k < |s| ==> r[k] == s[k];
  }

  /** [s[i], s[j]] = [s[j], s[i]] */
  function Swap<T>(s: seq<T>, i: nat, j: nat): (r: seq<T>)
    requires i < |s| && j < |s|
    ensures |r| == |s| && r[i] == s[j] && r[j] == s[i]
    ensures forall k :: 0 <= k < |s| && k != i && k != j ==> r[k] == s[k]
    ensures multiset(r) == multiset(s)
  {
    s[i := s[j]][j := s[i]]
  }
}
