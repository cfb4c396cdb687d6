/** Vocabulary shared by every other module: optional values, sums over vectors,
    and sequences without repetition. */
module Basics {

  datatype Option<+T> = None | Some(value: T)

  function Max(a: int, b: int): int {
    if a < b then b else a
  }

  // ---------- sums ----------

  function Sum(v: seq<int>): int {
    if v == [] then 0 else Sum(v[..|v| - 1]) + v[|v| - 1]
  }

  lemma {:induction false} SumUpdate(v: seq<int>, i: nat, x: int)
    requires i < |v|
    ensures Sum(v[i := x]) == Sum(v) - v[i] + x
  {
    var n := |v| - 1;
    if i < n {
      SumUpdate(v[..n], i, x);
      assert v[i := x][..n] == v[..n][i := x];
    } else {
      assert v[i := x][..n] == v[..n];
    }
  }

  lemma {:induction false} SumMonotone(u: seq<int>, v: seq<int>)
    requires |u| == |v|
    requires forall i :: 0 <= i < |u| ==> u[i] <= v[i]
    ensures Sum(u) <= Sum(v)
  {
    if u != [] {
      SumMonotone(u[..|u| - 1], v[..|v| - 1]);
    }
  }

  lemma {:induction false} SumOfZeros(v: seq<int>)
    requires forall i :: 0 <= i < |v| ==> v[i] == 0
    ensures Sum(v) == 0
  {
    if v != [] {
      SumOfZeros(v[..|v| - 1]);
    }
  }

  lemma {:induction false} SumBounds(v: seq<int>)
    requires forall i :: 0 <= i < |v| ==> 0 <= v[i]
    ensures 0 <= Sum(v)
    ensures forall i :: 0 <= i < |v| ==> v[i] <= Sum(v)
  {
    if v != [] {
      SumBounds(v[..|v| - 1]);
    }
  }

  lemma {:induction false} SumOfSums(u: seq<int>, v: seq<int>, w: seq<int>)
    requires |u| == |v| == |w|
    requires forall i :: 0 <= i < |u| ==> w[i] == u[i] + v[i]
    ensures Sum(w) == Sum(u) + Sum(v)
  {
    if u != [] {
      SumOfSums(u[..|u| - 1], v[..|v| - 1], w[..|w| - 1]);
    }
  }

  function Lengths<T>(parts: seq<seq<T>>): (v: seq<int>)
    ensures |v| == |parts| && forall i :: 0 <= i < |v| ==> v[i] == |parts[i]|
  {
    seq(|parts|, i requires 0 <= i < |parts| => |parts[i]|)
  }

  // ---------- counting occurrences ----------

  function Count<T(==)>(s: seq<T>, x: T): nat {
    if s == [] then 0
    else Count(s[..|s| - 1], x) + if s[|s| - 1] == x then 1 else 0
  }

  lemma {:induction false} CountConcat<T>(a: seq<T>, b: seq<T>, x: T)
    ensures Count(a + b, x) == Count(a, x) + Count(b, x)
  {
    if b == [] {
      assert a + b == a;
    } else {
      assert (a + b)[..|a + b| - 1] == a + b[..|b| - 1];
      CountConcat(a, b[..|b| - 1], x);
    }
  }

  lemma {:induction false} CountNone<T>(s: seq<T>, x: T)
    requires x !in s
    ensures Count(s, x) == 0
  {
    if s != [] { CountNone(s[..|s| - 1], x); }
  }

  // ---------- sequences without repetition ----------

  ghost predicate Distinct<T>(s: seq<T>) {
    forall i, j :: 0 <= i < j < |s| ==> s[i] != s[j]
  }

  lemma DistinctConcat<T>(a: seq<T>, b: seq<T>)
    requires Distinct(a) && Distinct(b)
    requires forall x :: x in a ==> x !in b
    ensures Distinct(a + b)
  {
    forall i, j | 0 <= i < j < |a + b| ensures (a + b)[i] != (a + b)[j] {
      if i < |a| <= j { assert a[i] in a && b[j - |a|] in b; }
    }
  }

  /** The numbers lo, lo + 1, ..., hi - 1 in order. */
  function Range(lo: nat, hi: nat): (r: seq<nat>)
    requires lo <= hi
    ensures |r| == hi - lo
    ensures forall k :: 0 <= k < |r| ==> r[k] == lo + k
  {
    seq(hi - lo, k requires 0 <= k => lo + k)
  }

  function Repeated<T>(x: T, k: nat): (r: seq<T>)
    ensures |r| == k && forall i :: 0 <= i < k ==> r[i] == x
  {
    seq(k, _ => x)
  }

  lemma OneMoreRepeated<T>(x: T, k: nat)
    ensures Repeated(x, k + 1) == Repeated(x, k) + [x]
    ensures Repeated(x, 0) == []
  {
  }

  lemma HasMember(q: seq<nat>)
    requires q != []
    ensures exists i: nat :: i in q
  {
    assert q[0] in q;
  }

  lemma NoMembers(q: seq<nat>)
    requires forall i: nat :: i !in q
    ensures q == []
  {
    if q != [] { HasMember(q); }
  }

  lemma RangeMembers(lo: nat, hi: nat)
    requires lo <= hi
    ensures forall x: nat :: x in Range(lo, hi) <==> lo <= x < hi
  {
    forall x: nat | lo <= x < hi ensures x in Range(lo, hi) {
      assert Range(lo, hi)[x - lo] == x;
    }
  }

  ghost function Below(n: nat): (s: set<nat>)
    ensures forall x: nat :: x in s <==> x < n
  {
    if n == 0 then {} else Below(n - 1) + {n - 1}
  }

  lemma {:induction false} BelowSize(n: nat)
    ensures |Below(n)| == n
  {
    if n > 0 {
      BelowSize(n - 1);
    }
  }

  lemma SubsetSize<T>(a: set<T>, b: set<T>)
    requires a <= b
    ensures |a| <= |b|
    ensures |a| == |b| ==> a == b
  {
    assert |b| == |a| + |b - a| by { assert b == a + (b - a); }
    if |a| == |b| { assert b - a == {}; }
  }

  ghost function Members(s: seq<nat>): set<nat> {
    set x | x in s
  }

  lemma {:induction false} DistinctSize(s: seq<nat>)
    requires Distinct(s)
    ensures |Members(s)| == |s|
  {
    if s != [] {
      var t := s[..|s| - 1];
      DistinctSize(t);
      assert Members(s) == Members(t) + {s[|s| - 1]};
    }
  }

  /** Pigeonhole: n pairwise different indices below n leave no room for another one. */
  lemma DistinctFits(s: seq<nat>, n: nat)
    requires Distinct(s) && forall x :: x in s ==> x < n
    ensures |s| <= n
  {
    DistinctSize(s);
    BelowSize(n);
    SubsetSize(Members(s), Below(n));
  }
}
