/** Python's list operations as the controller uses them: `remove`, filtering by a test, and stable `sort`. */
module Sequences {

  ghost predicate NoDup<T>(s: seq<T>) {
    forall i, j :: 0 <= i < j < |s| ==> s[i] != s[j]
  }

  function Min(a: int, b: int): int {
    if a <= b then a else b
  }

  function Max(a: int, b: int): int {
    if a >= b then a else b
  }

  /** Induction along the passes of a loop or the steps of a run. */
  lemma {:induction false} Induct(p: nat -> bool, n: nat)
    requires p(0)
    requires forall k: nat :: k < n && p(k) ==> p(k + 1)
    ensures p(n)
  {
    if n > 0 {
      Induct(p, n - 1);
    }
  }

  /** The value after the first k steps of a loop over xs. */
  function Folded<S, T>(f: (S, T) -> S, s: S, xs: seq<T>, k: nat): S
    requires k <= |xs|
  {
    if k == 0 then s else f(Folded(f, s, xs, k - 1), xs[k - 1])
  }

  /** After the first step the loop goes on from its result. */
  lemma {:induction false} FoldedFirst<S, T>(f: (S, T) -> S, s: S, xs: seq<T>, k: nat)
    requires k < |xs|
    ensures Folded(f, f(s, xs[0]), xs[1..], k) == Folded(f, s, xs, k + 1)
  {
    if k > 0 {
      FoldedFirst(f, s, xs, k - 1);
      assert xs[1..][k - 1] == xs[k];
    }
  }

  /** Every step of the loop is smooth where it is taken. */
  ghost predicate AllSmooth<S, T>(f: (S, T) -> S, s: S, xs: seq<T>, smooth: (S, T) -> bool) {
    forall k :: 0 <= k < |xs| ==> smooth(Folded(f, s, xs, k), xs[k])
  }

  lemma SmoothTail<S, T>(f: (S, T) -> S, s: S, xs: seq<T>, smooth: (S, T) -> bool)
    requires xs != [] && AllSmooth(f, s, xs, smooth)
    ensures smooth(s, xs[0]) && AllSmooth(f, f(s, xs[0]), xs[1..], smooth)
  {
    assert Folded(f, s, xs, 0) == s;
    forall k | 0 <= k < |xs[1..]|
      ensures smooth(Folded(f, f(s, xs[0]), xs[1..], k), xs[1..][k])
    {
      FoldedFirst(f, s, xs, k);
      assert xs[1..][k] == xs[k + 1];
    }
  }

  /** A loop whose smooth steps stop or come closer to stopping has stopped after at most one step more than the
      distance was. */
  lemma {:induction false} LoopEnds<S, T>(f: (S, T) -> S, s: S, xs: seq<T>, ok: S -> bool, going: S -> bool,
                                          distance: S -> nat, smooth: (S, T) -> bool)
    returns (k: nat)
    requires ok(s) && |xs| > distance(s) && AllSmooth(f, s, xs, smooth)
    requires forall a, x :: ok(a) && going(a) && smooth(a, x) ==>
               ok(f(a, x)) && (!going(f(a, x)) || distance(f(a, x)) < distance(a))
    ensures k <= distance(s) + 1 && k <= |xs| && !going(Folded(f, s, xs, k))
    decreases |xs|
  {
    k := 0;
    if going(s) {
      SmoothTail(f, s, xs, smooth);
      if going(f(s, xs[0])) {
        k := LoopEnds(f, f(s, xs[0]), xs[1..], ok, going, distance, smooth);
      }
      FoldedFirst(f, s, xs, k);
      k := k + 1;
    }
  }

  /** The sum of the first k values. */
  function SumTo(f: nat -> int, k: nat): int {
    if k == 0 then 0 else SumTo(f, k - 1) + f(k - 1)
  }

  /** What changes by f at each step has changed by the sum. */
  lemma {:induction false} Telescope(g: nat -> int, f: nat -> int, k: nat)
    requires forall i: nat :: i < k ==> g(i + 1) == g(i) + f(i)
    ensures g(k) == g(0) + SumTo(f, k)
  {
    if k > 0 {
      Telescope(g, f, k - 1);
    }
  }

  lemma {:induction false} SumNotPositive(f: nat -> int, k: nat)
    requires forall i: nat :: i < k ==> f(i) <= 0
    ensures SumTo(f, k) <= 0
  {
    if k > 0 {
      SumNotPositive(f, k - 1);
    }
  }

  // ----- list.remove -----

  /** The list without the first occurrence of x; the list itself when x does not occur. */
  function RemoveFirst<T(==)>(s: seq<T>, x: T): seq<T> {
    if s == [] then []
    else if s[0] == x then s[1..]
    else [s[0]] + RemoveFirst(s[1..], x)
  }

  /** `s.remove(x)`, which raises ValueError when x is missing: callers must show that it is there. */
  function Remove<T(==)>(s: seq<T>, x: T): seq<T>
    requires x in s
  {
    RemoveFirst(s, x)
  }

  /** `for x in xs: s.remove(x)`. */
  function RemoveEach<T(==)>(s: seq<T>, xs: seq<T>): seq<T> {
    if xs == [] then s
    else RemoveFirst(RemoveEach(s, xs[..|xs| - 1]), xs[|xs| - 1])
  }

  lemma {:induction false} RemoveFirstBag<T>(s: seq<T>, x: T)
    ensures multiset(RemoveFirst(s, x)) == multiset(s) - multiset{x}
  {
    if s != [] {
      assert s == [s[0]] + s[1..];
      if s[0] != x {
        RemoveFirstBag(s[1..], x);
      }
    }
  }

  lemma {:induction false} RemoveEachBag<T>(s: seq<T>, xs: seq<T>)
    ensures multiset(RemoveEach(s, xs)) == multiset(s) - multiset(xs)
  {
    if xs != [] {
      var n := |xs| - 1;
      assert xs == xs[..n] + [xs[n]];
      RemoveEachBag(s, xs[..n]);
      RemoveFirstBag(RemoveEach(s, xs[..n]), xs[n]);
    }
  }

  lemma Associate<T>(a: seq<T>, b: seq<T>, c: seq<T>)
    ensures (a + b) + c == a + (b + c)
  {
  }

  lemma {:induction false} RemoveFirstMembers<T>(s: seq<T>, x: T)
    ensures forall y | y in RemoveFirst(s, x) :: y in s
  {
    if s != [] && s[0] != x {
      RemoveFirstMembers(s[1..], x);
    }
  }

  lemma {:induction false} RemoveEachMembers<T>(s: seq<T>, xs: seq<T>)
    ensures forall y | y in RemoveEach(s, xs) :: y in s
  {
    if xs != [] {
      RemoveEachMembers(s, xs[..|xs| - 1]);
      RemoveFirstMembers(RemoveEach(s, xs[..|xs| - 1]), xs[|xs| - 1]);
    }
  }

  lemma {:induction false} RemoveFirstAppend<T>(s: seq<T>, t: seq<T>, x: T)
    ensures RemoveFirst(s + t, x) == if x in s then RemoveFirst(s, x) + t else s + RemoveFirst(t, x)
  {
    if s == [] {
      assert s + t == t;
    } else {
      assert (s + t)[1..] == s[1..] + t && (s + t)[0] == s[0];
      if s[0] != x {
        assert x in s <==> x in s[1..];
        RemoveFirstAppend(s[1..], t, x);
        Associate([s[0]], RemoveFirst(s[1..], x), t);
        Associate([s[0]], s[1..], RemoveFirst(t, x));
        assert s == [s[0]] + s[1..];
      }
    }
  }

  lemma {:induction false} RemoveEachAppend<T>(s: seq<T>, t: seq<T>, xs: seq<T>)
    requires multiset(xs) <= multiset(s)
    ensures RemoveEach(s + t, xs) == RemoveEach(s, xs) + t
  {
    if xs != [] {
      var n := |xs| - 1;
      assert xs == xs[..n] + [xs[n]];
      assert multiset(xs)[xs[n]] == multiset(xs[..n])[xs[n]] + 1;
      RemoveEachAppend(s, t, xs[..n]);
      var r := RemoveEach(s, xs[..n]);
      RemoveEachBag(s, xs[..n]);
      assert multiset(r)[xs[n]] > 0;
      assert xs[n] in r;
      RemoveFirstAppend(r, t, xs[n]);
    }
  }

  lemma {:induction false} RemoveEachTwice<T>(s: seq<T>, xs: seq<T>, ys: seq<T>)
    ensures RemoveEach(s, xs + ys) == RemoveEach(RemoveEach(s, xs), ys)
  {
    if ys == [] {
      assert xs + ys == xs;
    } else {
      var n := |ys| - 1;
      var zs := xs + ys;
      assert zs[..|zs| - 1] == xs + ys[..n];
      assert zs[|zs| - 1] == ys[n];
      RemoveEachTwice(s, xs, ys[..n]);
    }
  }

  lemma {:induction false} RemovePrefix<T>(s: seq<T>, k: nat)
    requires k <= |s|
    ensures RemoveEach(s, s[..k]) == s[k..]
  {
    if k > 0 {
      assert s[..k][..k - 1] == s[..k - 1];
      RemovePrefix(s, k - 1);
      assert s[k - 1..][0] == s[k - 1];
      assert s[k - 1..][1..] == s[k..];
    }
  }

  // ----- filtering -----

  /** The elements of s that belong to k, in order. */
  function Keep<T(==)>(s: seq<T>, k: set<T>): seq<T> {
    if s == [] then []
    else Keep(s[..|s| - 1], k) + if s[|s| - 1] in k then [s[|s| - 1]] else []
  }

  /** The elements of s that do not belong to k, in order. */
  function Drop<T(==)>(s: seq<T>, k: set<T>): seq<T> {
    if s == [] then []
    else Drop(s[..|s| - 1], k) + if s[|s| - 1] in k then [] else [s[|s| - 1]]
  }

  lemma {:induction false} KeepMembers<T>(s: seq<T>, k: set<T>, x: T)
    ensures x in Keep(s, k) <==> x in s && x in k
    ensures x in Drop(s, k) <==> x in s && x !in k
  {
    if s != [] {
      assert s == s[..|s| - 1] + [s[|s| - 1]];
      KeepMembers(s[..|s| - 1], k, x);
    }
  }

  lemma {:induction false} KeepCounts<T>(s: seq<T>, k: set<T>, x: T)
    ensures multiset(Keep(s, k))[x] == if x in k then multiset(s)[x] else 0
  {
    if s != [] {
      assert s == s[..|s| - 1] + [s[|s| - 1]];
      KeepCounts(s[..|s| - 1], k, x);
    }
  }

  lemma {:induction false} KeepSplits<T>(s: seq<T>, k: set<T>)
    ensures multiset(Keep(s, k)) + multiset(Drop(s, k)) == multiset(s)
  {
    if s != [] {
      assert s == s[..|s| - 1] + [s[|s| - 1]];
      KeepSplits(s[..|s| - 1], k);
    }
  }

  lemma {:induction false} KeepIsShort<T>(s: seq<T>, k: set<T>)
    ensures |Keep(s, k)| <= |s|
  {
    if s != [] {
      KeepIsShort(s[..|s| - 1], k);
    }
  }

  lemma KeepPrefix<T>(s: seq<T>, k: set<T>, i: nat)
    requires i < |s|
    ensures Keep(s[..i + 1], k) == Keep(s[..i], k) + if s[i] in k then [s[i]] else []
    ensures Drop(s[..i + 1], k) == Drop(s[..i], k) + if s[i] in k then [] else [s[i]]
  {
    assert s[..i + 1][..i] == s[..i];
  }

  /** Collecting the elements to drop and then calling `remove` for each leaves exactly the others, in order,
      also when one element occurs many times. It holds for any equality on T, so for object identity too. */
  lemma {:induction false} RemoveCollected<T>(s: seq<T>, k: set<T>)
    ensures RemoveEach(s, Keep(s, k)) == Drop(s, k)
  {
    if s != [] {
      var t, z := s[..|s| - 1], s[|s| - 1];
      assert s == t + [z];
      RemoveCollected(t, k);
      RemoveCollectedFront(t, z, k);
      if z in k {
        RemoveCollectedLast(t, z, k);
      } else {
        assert Keep(s, k) == Keep(t, k);
      }
    }
  }

  lemma RemoveCollectedFront<T>(t: seq<T>, z: T, k: set<T>)
    ensures RemoveEach(t + [z], Keep(t, k)) == RemoveEach(t, Keep(t, k)) + [z]
  {
    KeepSplits(t, k);
    RemoveEachAppend(t, [z], Keep(t, k));
  }

  lemma RemoveCollectedLast<T>(t: seq<T>, z: T, k: set<T>)
    requires z in k
    requires RemoveEach(t + [z], Keep(t, k)) == Drop(t, k) + [z]
    ensures RemoveEach(t + [z], Keep(t, k) + [z]) == Drop(t, k)
  {
    RemoveEachTwice(t + [z], Keep(t, k), [z]);
    RemoveOne(Drop(t, k) + [z], z);
    KeepMembers(t, k, z);
    RemoveFirstAppend(Drop(t, k), [z], z);
    assert RemoveFirst([z], z) == [];
  }

  lemma RemoveOne<T>(s: seq<T>, x: T)
    ensures RemoveEach(s, [x]) == RemoveFirst(s, x)
  {
    assert [x][..0] == [];
  }

  // ----- counting -----

  /** How many elements of s pass the test. */
  function CountIf<T>(s: seq<T>, p: T -> bool): nat {
    if s == [] then 0 else CountIf(s[..|s| - 1], p) + if p(s[|s| - 1]) then 1 else 0
  }

  lemma CountLast<T>(s: seq<T>, x: T, p: T -> bool)
    ensures CountIf(s + [x], p) == CountIf(s, p) + if p(x) then 1 else 0
  {
    assert (s + [x])[..|s|] == s;
  }

  lemma {:induction false} CountIfAppend<T>(s: seq<T>, t: seq<T>, p: T -> bool)
    ensures CountIf(s + t, p) == CountIf(s, p) + CountIf(t, p)
  {
    if t == [] {
      assert s + t == s;
    } else {
      assert (s + t)[..|s + t| - 1] == s + t[..|t| - 1];
      CountIfAppend(s, t[..|t| - 1], p);
    }
  }

  lemma {:induction false} CountIfNone<T>(s: seq<T>, p: T -> bool)
    requires forall x | x in s :: !p(x)
    ensures CountIf(s, p) == 0
  {
    if s != [] {
      CountIfNone(s[..|s| - 1], p);
    }
  }

  /** Elements that do not pass the test may be filtered out. */
  lemma {:induction false} CountIfKeep<T>(s: seq<T>, k: set<T>, p: T -> bool)
    requires forall x | x in s && p(x) :: x in k
    ensures CountIf(Keep(s, k), p) == CountIf(s, p)
  {
    if s != [] {
      var n := |s| - 1;
      CountIfKeep(s[..n], k, p);
      assert s[n] in s;
      if s[n] in k {
        CountLast(Keep(s[..n], k), s[n], p);
      } else {
        assert Keep(s, k) == Keep(s[..n], k);
      }
    }
  }

  // ----- stable sort -----

  /** Puts x before the first element whose key is not smaller. */
  function Insert<T>(x: T, s: seq<T>, key: T -> int): seq<T> {
    if s == [] || key(x) <= key(s[0]) then [x] + s else [s[0]] + Insert(x, s[1..], key)
  }

  /** `sorted(s, key=key)`. Python's reverse=True keeps equal elements in their order, so it is a sort by the
      negated key. */
  function Sort<T>(s: seq<T>, key: T -> int): seq<T> {
    if s == [] then [] else Insert(s[0], Sort(s[1..], key), key)
  }

  ghost predicate Sorted<T>(s: seq<T>, key: T -> int) {
    forall i, j :: 0 <= i < j < |s| ==> key(s[i]) <= key(s[j])
  }

  /** The elements of s with the given key, in order. */
  function WithKey<T>(s: seq<T>, key: T -> int, k: int): seq<T> {
    if s == [] then [] else (if key(s[0]) == k then [s[0]] else []) + WithKey(s[1..], key, k)
  }

  lemma {:induction false} InsertSplits<T>(x: T, s: seq<T>, key: T -> int) returns (i: nat)
    ensures i <= |s|
    ensures Insert(x, s, key) == s[..i] + [x] + s[i..]
    ensures forall j :: 0 <= j < i ==> key(s[j]) < key(x)
    ensures i < |s| ==> key(x) <= key(s[i])
  {
    if s == [] || key(x) <= key(s[0]) {
      i := 0;
    } else {
      var t := s[1..];
      var k := InsertSplits(x, t, key);
      i := k + 1;
      assert s[..i] == [s[0]] + t[..k];
      assert s[i..] == t[k..];
      assert forall j :: 0 < j < i ==> s[j] == t[j - 1];
    }
  }

  lemma {:induction false} SortLength<T>(s: seq<T>, key: T -> int)
    ensures |Sort(s, key)| == |s|
  {
    if s != [] {
      SortLength(s[1..], key);
      var i := InsertSplits(s[0], Sort(s[1..], key), key);
    }
  }

  lemma {:induction false} SortPermutes<T>(s: seq<T>, key: T -> int)
    ensures multiset(Sort(s, key)) == multiset(s)
    ensures |Sort(s, key)| == |s|
  {
    if s != [] {
      assert s == [s[0]] + s[1..];
      var t := Sort(s[1..], key);
      SortPermutes(s[1..], key);
      var i := InsertSplits(s[0], t, key);
      assert t == t[..i] + t[i..];
    }
  }

  lemma {:induction false} SortSorts<T>(s: seq<T>, key: T -> int)
    ensures Sorted(Sort(s, key), key)
  {
    if s != [] {
      SortSorts(s[1..], key);
      var i := InsertSplits(s[0], Sort(s[1..], key), key);
    }
  }

  /** Sorting what is sorted changes nothing. */
  lemma {:induction false} SortedIsFixed<T>(s: seq<T>, key: T -> int)
    requires Sorted(s, key)
    ensures Sort(s, key) == s
  {
    if s != [] {
      assert s == [s[0]] + s[1..];
      assert s[1..] != [] ==> s[1..][0] == s[1];
      SortedIsFixed(s[1..], key);
    }
  }

  lemma {:induction false} WithKeyAppend<T>(s: seq<T>, t: seq<T>, key: T -> int, k: int)
    ensures WithKey(s + t, key, k) == WithKey(s, key, k) + WithKey(t, key, k)
  {
    if s == [] {
      assert s + t == t;
    } else {
      var h := if key(s[0]) == k then [s[0]] else [];
      assert (s + t)[1..] == s[1..] + t && (s + t)[0] == s[0];
      WithKeyAppend(s[1..], t, key, k);
      Associate(h, WithKey(s[1..], key, k), WithKey(t, key, k));
    }
  }

  lemma {:induction false} InsertIsStable<T>(x: T, s: seq<T>, key: T -> int, k: int)
    ensures WithKey(Insert(x, s, key), key, k) == WithKey([x], key, k) + WithKey(s, key, k)
  {
    if s == [] || key(x) <= key(s[0]) {
      WithKeyAppend([x], s, key, k);
    } else {
      var t := Insert(x, s[1..], key);
      WithKeyAppend([s[0]], t, key, k);
      InsertIsStable(x, s[1..], key, k);
      assert s == [s[0]] + s[1..];
      WithKeyAppend([s[0]], s[1..], key, k);
      WithKeySingle(x, key, k);
      WithKeySingle(s[0], key, k);
    }
  }

  lemma WithKeySingle<T>(x: T, key: T -> int, k: int)
    ensures WithKey([x], key, k) == if key(x) == k then [x] else []
  {
    assert [x][1..] == [];
  }

  /** Stability: elements with equal keys keep their order. */
  lemma {:induction false} SortIsStable<T>(s: seq<T>, key: T -> int, k: int)
    ensures WithKey(Sort(s, key), key, k) == WithKey(s, key, k)
  {
    if s != [] {
      SortIsStable(s[1..], key, k);
      InsertIsStable(s[0], Sort(s[1..], key), key, k);
      WithKeySingle(s[0], key, k);
    }
  }
}
