/** The bounded store of module SecretSink is a least-recently-used cache: what it holds
    depends only on which secrets were added last. */
module SecretSinkTheorems {
  import opened Sequences
  import opened SecretSink

  /** The store after a sequence of Add calls on an empty sink; each call brings the random
      value it would bind if its secret were new. */
  function Run(adds: seq<Entry>, maxCount: nat): seq<Entry> {
    if adds == [] then []
    else
      var a := adds[|adds| - 1];
      Touch(Run(adds[..|adds| - 1], maxCount), a.secret, maxCount, Some(a.random))
  }

  function SecretsOf(l: seq<Entry>): set<string> {
    set e | e in l :: e.secret
  }

  predicate Holds(l: seq<Entry>, x: string) {
    IndexOf(l, x) < |l|
  }

  /** The distinct secrets added after the last Add of `x` (all, when there is none). */
  function Since(adds: seq<Entry>, x: string): set<string> {
    if adds == [] || adds[|adds| - 1].secret == x then {}
    else Since(adds[..|adds| - 1], x) + {adds[|adds| - 1].secret}
  }

  ghost predicate Distinct(l: seq<Entry>) {
    forall i, j :: 0 <= i < j < |l| ==> l[i].secret != l[j].secret
  }

  lemma HoldsIs(l: seq<Entry>, x: string)
    ensures Holds(l, x) <==> x in SecretsOf(l)
  {
    if Holds(l, x) { assert l[IndexOf(l, x)] in l; }
  }

  lemma {:induction false} DistinctSize(l: seq<Entry>)
    requires Distinct(l)
    ensures |SecretsOf(l)| == |l|
  {
    if l != [] {
      var r := l[..|l| - 1];
      DistinctSize(r);
      assert l == r + [l[|l| - 1]];
      assert SecretsOf(l) == SecretsOf(r) + {l[|l| - 1].secret};
    }
  }

  lemma SecretsOfAppend(l: seq<Entry>, e: Entry)
    ensures SecretsOf(l + [e]) == SecretsOf(l) + {e.secret}
  {
  }

  /** For a listed secret, the entries behind it are what was added since. */
  ghost predicate Recent(adds: seq<Entry>, l: seq<Entry>) {
    forall i :: 0 <= i < |l| ==>
      l[i].secret in SecretsOf(adds) && Since(adds, l[i].secret) == SecretsOf(l[i + 1..])
  }

  /** A secret that was added and is not listed any more was pushed out by `k` others. */
  ghost predicate Forgotten(adds: seq<Entry>, l: seq<Entry>, k: nat) {
    forall x :: x in SecretsOf(adds) && !Holds(l, x) ==> |Since(adds, x)| >= k
  }

  ghost predicate Lru(adds: seq<Entry>, l: seq<Entry>, k: nat) {
    && Distinct(l) && |l| <= k
    && Recent(adds, l)
    && Forgotten(adds, l, k)
    && (|l| < k ==> SecretsOf(l) == SecretsOf(adds))
  }

  lemma SinceAppend(adds: seq<Entry>, a: Entry, x: string)
    ensures Since(adds + [a], x) == if a.secret == x then {} else Since(adds, x) + {a.secret}
  {
    assert (adds + [a])[..|adds|] == adds;
  }

  /** Where position `j` of a list comes from when the entry at `i` has moved to the end. */
  lemma MovedAt(l: seq<Entry>, i: nat, j: nat)
    requires i < |l| && j < |l|
    ensures (Without(l, i) + [l[i]])[j] == if j == |l| - 1 then l[i] else l[Skip(i, j)]
  {
  }

  lemma MovedSecrets(l: seq<Entry>, i: nat)
    requires i < |l|
    ensures SecretsOf(Without(l, i) + [l[i]]) == SecretsOf(l)
  {
    assert l == l[..i] + [l[i]] + l[i + 1..];
  }

  lemma MovedDistinct(l: seq<Entry>, i: nat)
    requires i < |l| && Distinct(l)
    ensures Distinct(Without(l, i) + [l[i]])
  {
    forall a, b | 0 <= a < b < |l|
      ensures (Without(l, i) + [l[i]])[a].secret != (Without(l, i) + [l[i]])[b].secret
    {
      MovedAt(l, i, a);
      MovedAt(l, i, b);
    }
  }

  lemma MovedRecent(adds: seq<Entry>, l: seq<Entry>, i: nat, a: Entry)
    requires i < |l| && Distinct(l) && Recent(adds, l) && l[i].secret == a.secret
    ensures Recent(adds + [a], Without(l, i) + [l[i]])
  {
    var r := Without(l, i) + [l[i]];
    SecretsOfAppend(adds, a);
    forall j | 0 <= j < |r|
      ensures r[j].secret in SecretsOf(adds + [a]) && Since(adds + [a], r[j].secret) == SecretsOf(r[j + 1..])
    {
      SinceAppend(adds, a, r[j].secret);
      MovedAt(l, i, j);
      if j < |r| - 1 { TailAfterTouch(l, i, j); }
    }
  }

  /** A secret that is not listed gets further and further back. */
  lemma StaysForgotten(adds: seq<Entry>, a: Entry, k: nat, x: string)
    requires x in SecretsOf(adds + [a]) && x != a.secret
    requires x in SecretsOf(adds) ==> |Since(adds, x)| >= k
    ensures |Since(adds + [a], x)| >= k
  {
    SecretsOfAppend(adds, a);
    SinceAppend(adds, a, x);
    Grows(Since(adds, x), a.secret);
  }

  lemma TouchHeld(adds: seq<Entry>, l: seq<Entry>, k: nat, a: Entry)
    requires Lru(adds, l, k) && Holds(l, a.secret)
    ensures Lru(adds + [a], Touch(l, a.secret, k, Some(a.random)), k)
  {
    var i := IndexOf(l, a.secret);
    var r := Without(l, i) + [l[i]];
    MovedDistinct(l, i);
    MovedRecent(adds, l, i, a);
    MovedSecrets(l, i);
    SecretsOfAppend(adds, a);
    HoldsIs(l, a.secret);
    forall x | x in SecretsOf(adds + [a]) && !Holds(r, x) ensures |Since(adds + [a], x)| >= k {
      HoldsIs(r, x);
      HoldsIs(l, x);
      StaysForgotten(adds, a, k, x);
    }
  }

  lemma Grows(s: set<string>, x: string)
    ensures |s + {x}| >= |s|
  {
    assert s + {x} == s + ({x} - s);
  }

  /** What stands behind position `j` once the entry at `i` has moved to the end. */
  lemma TailAfterTouch(l: seq<Entry>, i: nat, j: nat)
    requires i < |l| && j < |l| - 1
    ensures SecretsOf((Without(l, i) + [l[i]])[j + 1..]) == SecretsOf(l[Skip(i, j) + 1..]) + {l[i].secret}
  {
    var r := Without(l, i) + [l[i]];
    if j < i {
      assert r[j + 1..] == l[j + 1..i] + l[i + 1..] + [l[i]];
      assert l[j + 1..] == l[j + 1..i] + [l[i]] + l[i + 1..];
    } else {
      assert r[j + 1..] == l[j + 2..] + [l[i]];
    }
  }

  lemma PushedRecent(adds: seq<Entry>, l: seq<Entry>, d: nat, a: Entry)
    requires d <= |l| && Recent(adds, l) && a.secret !in SecretsOf(l)
    ensures Recent(adds + [a], l[d..] + [a])
  {
    var r := l[d..] + [a];
    forall j | 0 <= j < |r|
      ensures r[j].secret in SecretsOf(adds + [a]) && Since(adds + [a], r[j].secret) == SecretsOf(r[j + 1..])
    {
      SecretsOfAppend(adds, a);
      SinceAppend(adds, a, r[j].secret);
      if j < |r| - 1 { PushedAt(adds, l, d, a, j); }
    }
  }

  lemma PushedAt(adds: seq<Entry>, l: seq<Entry>, d: nat, a: Entry, j: nat)
    requires d + j < |l| && Recent(adds, l) && a.secret !in SecretsOf(l)
    ensures var r := l[d..] + [a];
            && r[j].secret in SecretsOf(adds) && r[j].secret != a.secret
            && Since(adds, r[j].secret) + {a.secret} == SecretsOf(r[j + 1..])
  {
    var r := l[d..] + [a];
    assert r[j] == l[j + d] && r[j] in l;
    assert r[j + 1..] == l[j + d + 1..] + [a];
    SecretsOfAppend(l[j + d + 1..], a);
  }

  lemma PushedDistinct(l: seq<Entry>, d: nat, a: Entry)
    requires d <= |l| && Distinct(l) && a.secret !in SecretsOf(l)
    ensures Distinct(l[d..] + [a])
  {
    forall j | 0 <= j < |l| ensures l[j].secret != a.secret { assert l[j] in l; }
  }

  lemma OnlyFirst(l: seq<Entry>, x: string)
    requires x in SecretsOf(l) && x !in SecretsOf(l[1..])
    ensures x == l[0].secret
  {
    assert l == [l[0]] + l[1..];
  }

  lemma PushedForgotten(adds: seq<Entry>, l: seq<Entry>, k: nat, a: Entry, x: string)
    requires Lru(adds, l, k) && !Holds(l, a.secret) && k > 0
    requires x in SecretsOf(adds + [a]) && x != a.secret
    requires x !in SecretsOf(if |l| >= k then l[1..] else l)
    ensures |Since(adds + [a], x)| >= k
  {
    HoldsIs(l, x);
    if Holds(l, x) {
      OnlyFirst(l, x);
      PushedOut(adds, l, k, a);
    } else {
      StaysForgotten(adds, a, k, x);
    }
  }

  lemma TouchNew(l: seq<Entry>, k: nat, a: Entry)
    requires !Holds(l, a.secret) && |l| <= k && k > 0
    ensures Touch(l, a.secret, k, Some(a.random)) == l[if |l| >= k then 1 else 0..] + [a]
  {
    if l != [] { assert Without(l, 0) == l[1..]; }
  }

  lemma TouchAbsent(adds: seq<Entry>, l: seq<Entry>, k: nat, a: Entry)
    requires Lru(adds, l, k) && !Holds(l, a.secret) && k > 0
    ensures Lru(adds + [a], Touch(l, a.secret, k, Some(a.random)), k)
  {
    var d := if |l| >= k then 1 else 0;
    var r := l[d..] + [a];
    TouchNew(l, k, a);
    HoldsIs(l, a.secret);
    PushedDistinct(l, d, a);
    PushedRecent(adds, l, d, a);
    SecretsOfAppend(adds, a);
    SecretsOfAppend(l[d..], a);
    forall x | x in SecretsOf(adds + [a]) && !Holds(r, x) ensures |Since(adds + [a], x)| >= k {
      HoldsIs(r, x);
      PushedForgotten(adds, l, k, a, x);
    }
  }

  /** The evicted entry has exactly `k` distinct successors. */
  lemma PushedOut(adds: seq<Entry>, l: seq<Entry>, k: nat, a: Entry)
    requires Lru(adds, l, k) && !Holds(l, a.secret) && |l| == k > 0
    ensures |Since(adds + [a], l[0].secret)| == k
  {
    SinceAppend(adds, a, l[0].secret);
    HoldsIs(l, a.secret);
    DistinctSize(l[1..]);
    assert SecretsOf(l[1..]) <= SecretsOf(l);
  }

  lemma {:induction false} RunIsLru(adds: seq<Entry>, k: nat)
    requires k > 0
    ensures Lru(adds, Run(adds, k), k)
  {
    if adds != [] {
      var before, a := adds[..|adds| - 1], adds[|adds| - 1];
      RunIsLru(before, k);
      assert adds == before + [a];
      if Holds(Run(before, k), a.secret) {
        TouchHeld(before, Run(before, k), k, a);
      } else {
        TouchAbsent(before, Run(before, k), k, a);
      }
    }
  }

  /** The store holds a secret if and only if it was added and fewer than `k` other distinct
      secrets were added after its last Add. */
  lemma LruRefinement(adds: seq<Entry>, k: nat, x: string)
    requires k > 0
    ensures Holds(Run(adds, k), x) <==> x in SecretsOf(adds) && |Since(adds, x)| < k
  {
    RunIsLru(adds, k);
    var l := Run(adds, k);
    if Holds(l, x) {
      DistinctSize(l[IndexOf(l, x) + 1..]);
    }
  }

  /** The store is as full as it can be. */
  lemma LruSize(adds: seq<Entry>, k: nat)
    requires k > 0
    ensures |Run(adds, k)| == if |SecretsOf(adds)| < k then |SecretsOf(adds)| else k
  {
    RunIsLru(adds, k);
    var l := Run(adds, k);
    DistinctSize(l);
    if |l| == k {
      assert SecretsOf(l) <= SecretsOf(adds);
      SubsetSize(SecretsOf(l), SecretsOf(adds));
    }
  }

  lemma SubsetSize(s: set<string>, t: set<string>)
    requires s <= t
    ensures |s| <= |t|
  {
    assert t == s + (t - s);
  }

  /** The stack property: a larger sink always holds everything a smaller one holds. */
  lemma StackProperty(adds: seq<Entry>, m: nat, n: nat)
    requires 0 < m <= n
    ensures SecretsOf(Run(adds, m)) <= SecretsOf(Run(adds, n))
  {
    forall x | x in SecretsOf(Run(adds, m)) ensures x in SecretsOf(Run(adds, n)) {
      HoldsIs(Run(adds, m), x);
      HoldsIs(Run(adds, n), x);
      LruRefinement(adds, m, x);
      LruRefinement(adds, n, x);
    }
  }

  lemma SinceAfter(pre: seq<Entry>, a: Entry, mid: seq<Entry>)
    requires a.secret !in SecretsOf(mid)
    ensures Since(pre + [a] + mid, a.secret) == SecretsOf(mid)
    decreases |mid|
  {
    if mid == [] {
      SinceAppend(pre, a, a.secret);
      assert pre + [a] + mid == pre + [a];
    } else {
      var m, e := mid[..|mid| - 1], mid[|mid| - 1];
      assert mid == m + [e] && pre + [a] + mid == pre + [a] + m + [e];
      SecretsOfAppend(m, e);
      SinceAfter(pre, a, m);
      SinceAppend(pre + [a] + m, e, a.secret);
    }
  }

  /** The random value the store binds to `x`. */
  function Bound(l: seq<Entry>, x: string): Option<string> {
    var i := IndexOf(l, x);
    if i < |l| then Some(l[i].random) else None
  }

  lemma TouchBinds(l: seq<Entry>, x: string, k: nat, random: string, y: string)
    requires Distinct(l)
    ensures Bound(Touch(l, x, k, Some(random)), x) == Some(if Holds(l, x) then Bound(l, x).value else random)
    ensures var r := Touch(l, x, k, Some(random)); y != x && Holds(r, y) ==> Bound(r, y) == Bound(l, y)
  {
    var r := Touch(l, x, k, Some(random));
    assert r[|r| - 1].secret == x;
    if Holds(l, x) {
      var i := IndexOf(l, x);
      forall j | 0 <= j < |r| ensures r[j] == if j == |r| - 1 then l[i] else l[Skip(i, j)] { MovedAt(l, i, j); }
    }
    BoundIs(l, y);
  }

  lemma BoundIs(l: seq<Entry>, x: string)
    requires Distinct(l)
    ensures forall e :: e in l && e.secret == x ==> Bound(l, x) == Some(e.random)
  {
  }

  /** Adding a secret again returns its earlier random value if and only if fewer than `k`
      distinct other secrets were added in between; otherwise it is bound afresh. */
  lemma RebindingIsExact(pre: seq<Entry>, a: Entry, mid: seq<Entry>, b: Entry, k: nat)
    requires k > 0 && a.secret == b.secret && a.secret !in SecretsOf(mid)
    ensures Bound(Run(pre + [a] + mid + [b], k), a.secret)
         == if |SecretsOf(mid)| < k then Bound(Run(pre + [a], k), a.secret) else Some(b.random)
  {
    var all := pre + [a] + mid;
    assert (all + [b])[..|all|] == all;
    RunIsLru(all, k);
    TouchBinds(Run(all, k), b.secret, k, b.random, b.secret);
    SinceAfter(pre, a, mid);
    LruRefinement(all, k, a.secret);
    assert a in all;
    if |SecretsOf(mid)| < k { Keeps(pre, a, mid, k); }
  }

  lemma {:induction false} Keeps(pre: seq<Entry>, a: Entry, mid: seq<Entry>, k: nat)
    requires k > 0 && a.secret !in SecretsOf(mid) && |SecretsOf(mid)| < k
    ensures Bound(Run(pre + [a] + mid, k), a.secret) == Bound(Run(pre + [a], k), a.secret)
    decreases |mid|
  {
    if mid == [] {
      assert pre + [a] + mid == pre + [a];
    } else {
      var m, e := mid[..|mid| - 1], mid[|mid| - 1];
      var before := pre + [a] + m;
      assert mid == m + [e] && pre + [a] + mid == before + [e] && (before + [e])[..|before|] == before;
      SecretsOfAppend(m, e);
      Grows(SecretsOf(m), e.secret);
      Keeps(pre, a, m, k);
      RunIsLru(before, k);
      TouchBinds(Run(before, k), e.secret, k, e.random, a.secret);
      SinceAfter(pre, a, mid);
      LruRefinement(before + [e], k, a.secret);
      assert a in before + [e];
    }
  }
}
