/** Table operations the route pipeline borrows from its data-frame library,
 *  stated over finite sequences of rows: boolean-mask selection, group-by on a
 *  key, one reduction per group, and the inner join that merges the reductions
 *  back together. */
module Frames {

  datatype Option<+T> = None | Some(value: T)

  predicate NoDup<T(==,!new)>(s: seq<T>) {
    forall i, j :: 0 <= i < j < |s| ==> s[i] != s[j]
  }

  /** Column computed row by row. */
  function MapSeq<A, B>(xs: seq<A>, f: A --> B): (r: seq<B>)
    requires forall i :: 0 <= i < |xs| ==> f.requires(xs[i])
    ensures |r| == |xs|
    ensures forall i :: 0 <= i < |xs| ==> r[i] == f(xs[i])
  {
    seq(|xs|, i requires 0 <= i < |xs| => f(xs[i]))
  }

  /** Boolean-mask selection `df.loc[mask]`: the rows satisfying `p`, each as
   *  often as it occurs, in their original order. */
  function Where<T(==,!new)>(xs: seq<T>, p: T -> bool): (r: seq<T>)
    ensures |r| <= |xs|
    ensures forall x :: x in r <==> x in xs && p(x)
  {
    if xs == [] then []
    else
      assert xs == [xs[0]] + xs[1..];
      (if p(xs[0]) then [xs[0]] else []) + Where(xs[1..], p)
  }

  /** Selection keeps every selected row as often as it occurs, and no other. */
  lemma {:induction false} WhereCount<T(!new)>(xs: seq<T>, p: T -> bool, x: T)
    ensures multiset(Where(xs, p))[x] == if p(x) then multiset(xs)[x] else 0
  {
    if xs != [] {
      assert xs == [xs[0]] + xs[1..];
      WhereCount(xs[1..], p, x);
    }
  }

  /** Selection distributes over concatenation, so it keeps the input order. */
  lemma {:induction false} WhereAppend<T(!new)>(a: seq<T>, b: seq<T>, p: T -> bool)
    ensures Where(a + b, p) == Where(a, p) + Where(b, p)
  {
    if a == [] {
      assert a + b == b;
    } else {
      assert (a + b)[1..] == a[1..] + b;
      WhereAppend(a[1..], b, p);
    }
  }

  /** A mask that every row already satisfies selects everything. */
  lemma {:induction false} WhereAll<T(!new)>(xs: seq<T>, p: T -> bool)
    requires forall x :: x in xs ==> p(x)
    ensures Where(xs, p) == xs
  {
    if xs != [] {
      WhereAll(xs[1..], p);
    }
  }

  /** Applying the same mask twice is applying it once. */
  lemma WhereIdempotent<T(!new)>(xs: seq<T>, p: T -> bool)
    ensures Where(Where(xs, p), p) == Where(xs, p)
  {
    WhereAll(Where(xs, p), p);
  }

  /** The distinct values of `key` over `xs`, in order of first appearance:
   *  the group keys of a group-by. */
  function DistinctKeys<T(==,!new), K(==,!new)>(xs: seq<T>, key: T -> K): (r: seq<K>)
    ensures NoDup(r)
    ensures forall k :: k in r <==> exists x :: x in xs && key(x) == k
    ensures |r| <= |xs|
  {
    if xs == [] then []
    else
      var prefix := xs[..|xs| - 1];
      var last := xs[|xs| - 1];
      assert xs == prefix + [last];
      var ks := DistinctKeys(prefix, key);
      if key(last) in ks then ks else ks + [key(last)]
  }

  /** The rows of one group. */
  function Group<T(==,!new), K(==,!new)>(xs: seq<T>, key: T -> K, k: K): (g: seq<T>)
    ensures forall x :: x in g <==> x in xs && key(x) == k
  {
    Where(xs, x => key(x) == k)
  }

  lemma GroupNonEmpty<T(!new), K(!new)>(xs: seq<T>, key: T -> K, k: K)
    requires k in DistinctKeys(xs, key)
    ensures |Group(xs, key, k)| > 0
  {
    var x :| x in xs && key(x) == k;
    assert x in Group(xs, key, k);
  }

  lemma AllGroupsNonEmpty<T(!new), K(!new)>(xs: seq<T>, key: T -> K)
    ensures forall k :: k in DistinctKeys(xs, key) ==> |Group(xs, key, k)| > 0
  {
    forall k | k in DistinctKeys(xs, key)
      ensures |Group(xs, key, k)| > 0
    {
      GroupNonEmpty(xs, key, k);
    }
  }

  /** `groupby(key).agg(f)`: one (key, f(group)) entry per distinct key. */
  function Reduce<T(==,!new), K(==,!new), V>(xs: seq<T>, key: T -> K, f: seq<T> --> V): (r: seq<(K, V)>)
    requires forall k :: k in DistinctKeys(xs, key) ==> f.requires(Group(xs, key, k))
    ensures |r| == |DistinctKeys(xs, key)|
    ensures forall i :: 0 <= i < |r| ==> r[i].0 == DistinctKeys(xs, key)[i]
    ensures forall i :: 0 <= i < |r| ==> r[i].1 == f(Group(xs, key, r[i].0))
  {
    var ks := DistinctKeys(xs, key);
    seq(|ks|, i requires 0 <= i < |ks| => (ks[i], f(Group(xs, key, ks[i]))))
  }

  function Fst<K, V>(p: (K, V)): K { p.0 }

  /** The right rows whose key is `k`, each paired with `a`. */
  function Matching<A(==,!new), B(==,!new), K(==,!new)>(a: A, k: K, right: seq<B>, kr: B -> K): (r: seq<(A, B)>)
    ensures forall x, b :: (x, b) in r <==> x == a && b in right && kr(b) == k
  {
    if right == [] then []
    else
      assert right == [right[0]] + right[1..];
      (if kr(right[0]) == k then [(a, right[0])] else []) + Matching(a, k, right[1..], kr)
  }

  lemma {:induction false} MatchingCount<A(!new), B(!new), K(!new)>(a: A, k: K, right: seq<B>, kr: B -> K, x: A, b: B)
    ensures multiset(Matching(a, k, right, kr))[(x, b)] == if x == a && kr(b) == k then multiset(right)[b] else 0
  {
    if right != [] {
      assert right == [right[0]] + right[1..];
      MatchingCount(a, k, right[1..], kr, x, b);
    }
  }

  lemma {:induction false} MatchingNone<A(!new), B(!new), K(!new)>(a: A, k: K, right: seq<B>, kr: B -> K)
    requires forall b :: b in right ==> kr(b) != k
    ensures Matching(a, k, right, kr) == []
  {
    if right != [] {
      MatchingNone(a, k, right[1..], kr);
    }
  }

  /** Inner join `pd.merge(left, right, on=key, how='inner')`: one output row
   *  for each pair of a left row and a right row with equal keys, in the order
   *  of the left rows; duplicate keys fan out. */
  function Join<A(==,!new), B(==,!new), K(==,!new)>(left: seq<A>, kl: A -> K, right: seq<B>, kr: B -> K): (r: seq<(A, B)>)
    ensures forall a, b :: (a, b) in r <==> a in left && b in right && kl(a) == kr(b)
  {
    if left == [] then []
    else
      assert left == [left[0]] + left[1..];
      Matching(left[0], kl(left[0]), right, kr) + Join(left[1..], kl, right, kr)
  }

  lemma JoinStep<A(!new), B(!new), K(!new)>(left: seq<A>, kl: A -> K, right: seq<B>, kr: B -> K)
    requires left != []
    ensures multiset(Join(left, kl, right, kr))
         == multiset(Matching(left[0], kl(left[0]), right, kr)) + multiset(Join(left[1..], kl, right, kr))
  {
  }

  lemma CountStep(total: int, here: int, later: int, whole: int, rest: int, n: int, same: bool, first: bool)
    requires total == here + later
    requires whole == rest + (if first then 1 else 0)
    requires here == (if same && first then n else 0)
    requires later == (if same then rest * n else 0)
    ensures total == if same then whole * n else 0
  {
    if same && first {
      assert whole * n == rest * n + n;
    }
  }

  /** Each pair of rows with equal keys occurs in the join exactly
   *  (occurrences on the left) * (occurrences on the right) times. */
  lemma {:induction false} JoinMultiplicity<A(!new), B(!new), K(!new)>(left: seq<A>, kl: A -> K, right: seq<B>, kr: B -> K, a: A, b: B)
    ensures multiset(Join(left, kl, right, kr))[(a, b)]
         == if kl(a) == kr(b) then multiset(left)[a] * multiset(right)[b] else 0
  {
    if left != [] {
      var total := multiset(Join(left, kl, right, kr))[(a, b)];
      var here := multiset(Matching(left[0], kl(left[0]), right, kr))[(a, b)];
      var later := multiset(Join(left[1..], kl, right, kr))[(a, b)];
      assert total == here + later by {
        JoinStep(left, kl, right, kr);
      }
      assert multiset(left)[a] == multiset(left[1..])[a] + (if left[0] == a then 1 else 0) by {
        assert left == [left[0]] + left[1..];
      }
      JoinMultiplicity(left[1..], kl, right, kr, a, b);
      MatchingCount(left[0], kl(left[0]), right, kr, a, b);
      CountStep(total, here, later, multiset(left)[a], multiset(left[1..])[a], multiset(right)[b],
        kl(a) == kr(b), left[0] == a);
    }
  }

  predicate DistinctKeysOf<K(==,!new), V>(t: seq<(K, V)>) {
    forall i, j :: 0 <= i < j < |t| ==> t[i].0 != t[j].0
  }

  /** The value stored under key `k` (the first one, if there are several). */
  function Lookup<K(==,!new), V>(t: seq<(K, V)>, k: K): V
    requires exists i :: 0 <= i < |t| && t[i].0 == k
  {
    if t[0].0 == k then t[0].1
    else
      var i :| 0 <= i < |t| && t[i].0 == k;
      assert t[1..][i - 1].0 == k;
      Lookup(t[1..], k)
  }

  lemma {:induction false} LookupAt<K(!new), V>(t: seq<(K, V)>, i: nat)
    requires i < |t| && DistinctKeysOf(t)
    ensures Lookup(t, t[i].0) == t[i].1
  {
    if i > 0 {
      assert t[0].0 != t[i].0;
      assert t[1..][i - 1] == t[i];
      LookupAt(t[1..], i - 1);
    }
  }

  lemma {:induction false} MatchingUnique<A(!new), K(!new), V(!new)>(a: A, k: K, right: seq<(K, V)>)
    requires DistinctKeysOf(right)
    requires exists i :: 0 <= i < |right| && right[i].0 == k
    ensures Matching(a, k, right, Fst) == [(a, (k, Lookup(right, k)))]
  {
    if right[0].0 == k {
      forall b | b in right[1..]
        ensures Fst(b) != k
      {
        var j :| 0 <= j < |right[1..]| && right[1..][j] == b;
        assert right[j + 1] == b;
      }
      MatchingNone(a, k, right[1..], Fst);
    } else {
      var i :| 0 <= i < |right| && right[i].0 == k;
      assert right[1..][i - 1].0 == k;
      MatchingUnique(a, k, right[1..]);
    }
  }

  /** Joining against a table with distinct keys that holds every left key
   *  gives exactly one output row per left row, in the same order. */
  lemma {:induction false} JoinUnique<A(!new), K(!new), V(!new)>(left: seq<A>, kl: A -> K, right: seq<(K, V)>)
    requires DistinctKeysOf(right)
    requires forall a :: a in left ==> exists i :: 0 <= i < |right| && right[i].0 == kl(a)
    ensures |Join(left, kl, right, Fst)| == |left|
    ensures forall i :: 0 <= i < |left| ==>
      Join(left, kl, right, Fst)[i] == (left[i], (kl(left[i]), Lookup(right, kl(left[i]))))
  {
    if left != [] {
      MatchingUnique(left[0], kl(left[0]), right);
      JoinUnique(left[1..], kl, right);
      var j := Join(left, kl, right, Fst);
      forall i | 0 <= i < |left|
        ensures j[i] == (left[i], (kl(left[i]), Lookup(right, kl(left[i]))))
      {
        if i > 0 {
          assert left[1..][i - 1] == left[i];
        }
      }
    }
  }

  lemma ReduceHasKeys<T(!new), K(!new), V>(xs: seq<T>, key: T -> K, f: seq<T> --> V)
    requires forall k :: k in DistinctKeys(xs, key) ==> f.requires(Group(xs, key, k))
    ensures DistinctKeysOf(Reduce(xs, key, f))
    ensures forall k :: k in DistinctKeys(xs, key) ==>
      exists i :: 0 <= i < |Reduce(xs, key, f)| && Reduce(xs, key, f)[i].0 == k
  {
    var ks := DistinctKeys(xs, key);
    var r := Reduce(xs, key, f);
    forall k | k in ks
      ensures exists i :: 0 <= i < |r| && r[i].0 == k
    {
      var i :| 0 <= i < |ks| && ks[i] == k;
      assert r[i].0 == k;
    }
  }

  lemma ReduceLookup<T(!new), K(!new), V>(xs: seq<T>, key: T -> K, f: seq<T> --> V, i: nat)
    requires forall k :: k in DistinctKeys(xs, key) ==> f.requires(Group(xs, key, k))
    requires i < |DistinctKeys(xs, key)|
    ensures Lookup(Reduce(xs, key, f), DistinctKeys(xs, key)[i]) == f(Group(xs, key, DistinctKeys(xs, key)[i]))
  {
    ReduceHasKeys(xs, key, f);
    LookupAt(Reduce(xs, key, f), i);
  }

  function Fst3<K, A, B>(p: ((K, A), B)): K { p.0.0 }

  /** Two reductions of the same rows, merged on the group key by an inner
   *  join, line up: entry i holds both reductions of group i. */
  lemma MergeTwo<T(!new), K(!new), A(!new), B(!new)>(xs: seq<T>, key: T -> K, f: seq<T> --> A, g: seq<T> --> B)
    requires forall k :: k in DistinctKeys(xs, key) ==> f.requires(Group(xs, key, k))
    requires forall k :: k in DistinctKeys(xs, key) ==> g.requires(Group(xs, key, k))
    ensures var ks := DistinctKeys(xs, key);
      var m := Join(Reduce(xs, key, f), Fst, Reduce(xs, key, g), Fst);
      |m| == |ks| &&
      forall i :: 0 <= i < |ks| ==> m[i] == ((ks[i], f(Group(xs, key, ks[i]))), (ks[i], g(Group(xs, key, ks[i]))))
  {
    var ks := DistinctKeys(xs, key);
    var rf, rg := Reduce(xs, key, f), Reduce(xs, key, g);
    ReduceHasKeys(xs, key, g);
    forall a | a in rf
      ensures exists i :: 0 <= i < |rg| && rg[i].0 == Fst(a)
    {
      var i :| 0 <= i < |rf| && rf[i] == a;
      assert rg[i].0 == Fst(a);
    }
    JoinUnique(rf, Fst, rg);
    forall i | 0 <= i < |ks|
      ensures Join(rf, Fst, rg, Fst)[i] == ((ks[i], f(Group(xs, key, ks[i]))), (ks[i], g(Group(xs, key, ks[i]))))
    {
      ReduceLookup(xs, key, g, i);
    }
  }

  /** The same for three reductions merged by two successive inner joins. */
  lemma MergeThree<T(!new), K(!new), A(!new), B(!new), C(!new)>(xs: seq<T>, key: T -> K, f: seq<T> --> A, g: seq<T> --> B, h: seq<T> --> C)
    requires forall k :: k in DistinctKeys(xs, key) ==> f.requires(Group(xs, key, k))
    requires forall k :: k in DistinctKeys(xs, key) ==> g.requires(Group(xs, key, k))
    requires forall k :: k in DistinctKeys(xs, key) ==> h.requires(Group(xs, key, k))
    ensures var ks := DistinctKeys(xs, key);
      var m := Join(Join(Reduce(xs, key, f), Fst, Reduce(xs, key, g), Fst), Fst3, Reduce(xs, key, h), Fst);
      |m| == |ks| &&
      forall i :: 0 <= i < |ks| ==>
        m[i] == (((ks[i], f(Group(xs, key, ks[i]))), (ks[i], g(Group(xs, key, ks[i])))), (ks[i], h(Group(xs, key, ks[i]))))
  {
    var m1 := Join(Reduce(xs, key, f), Fst, Reduce(xs, key, g), Fst);
    MergeTwo(xs, key, f, g);
    MergeThird(xs, key, h, m1);
  }

  /** Joining a table whose i-th row has key i of the groups against a
   *  third reduction appends that reduction to each row. */
  lemma MergeThird<T(!new), K(!new), A(!new), B(!new), C(!new)>(xs: seq<T>, key: T -> K, h: seq<T> --> C, m1: seq<((K, A), B)>)
    requires forall k :: k in DistinctKeys(xs, key) ==> h.requires(Group(xs, key, k))
    requires |m1| == |DistinctKeys(xs, key)|
    requires forall i :: 0 <= i < |m1| ==> m1[i].0.0 == DistinctKeys(xs, key)[i]
    ensures var ks := DistinctKeys(xs, key);
      var m := Join(m1, Fst3, Reduce(xs, key, h), Fst);
      |m| == |ks| &&
      forall i :: 0 <= i < |ks| ==> m[i] == (m1[i], (ks[i], h(Group(xs, key, ks[i]))))
  {
    var ks := DistinctKeys(xs, key);
    var rh := Reduce(xs, key, h);
    ReduceHasKeys(xs, key, h);
    forall a | a in m1
      ensures exists i :: 0 <= i < |rh| && rh[i].0 == Fst3(a)
    {
      var i :| 0 <= i < |m1| && m1[i] == a;
      assert rh[i].0 == Fst3(a);
    }
    JoinUnique(m1, Fst3, rh);
    forall i | 0 <= i < |ks|
      ensures Join(m1, Fst3, rh, Fst)[i] == (m1[i], (ks[i], h(Group(xs, key, ks[i]))))
    {
      ReduceLookup(xs, key, h, i);
    }
  }
}
