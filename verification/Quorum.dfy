/** Counting: the thresholds of a peer-set and how large sets of peers overlap. */
module Quorum {

  /** Number of peers that forms a strong majority (+2/3) of n peers. */
  function SuperMajority(n: nat): (s: nat)
    ensures 3 * (s - 1) <= 2 * n < 3 * s
  {
    2 * n / 3 + 1
  }

  /** Number of signatures that a block must exceed, for a set of n peers. */
  function TrustCount(n: nat): (t: nat)
    ensures n > 1 ==> n <= 3 * t < n + 3
    ensures n <= 1 ==> t == 0
  {
    if n > 1 then (n + 2) / 3 else 0
  }

  function Least(a: nat, b: nat): (m: nat)
    ensures m <= a && m <= b && (m == a || m == b)
  {
    if a < b then a else b
  }

  lemma SubsetSize<T>(a: set<T>, b: set<T>)
    requires a <= b
    ensures |a| <= |b|
  {
    assert |b| == |a| + |b - a| by { assert b == a + (b - a); }
  }

  lemma Pick<T>(s: set<T>) returns (t: T)
    requires |s| > 0
    ensures t in s
  {
    t :| t in s;
  }

  lemma SubsetEquality<T>(a: set<T>, b: set<T>)
    requires a <= b
    ensures |a| == |b| <==> a == b
  {
    assert b == a + (b - a);
  }

  /** Two parts of a whole overlap in at least |a| + |b| - |whole| elements. */
  lemma Overlap<T>(a: set<T>, b: set<T>, whole: set<T>)
    requires a <= whole && b <= whole
    ensures |a * b| >= |a| + |b| - |whole|
  {
    SubsetSize(a + b, whole);
  }

  /** A set of candidates with distinct owners is no larger than the set of owners. */
  lemma InjectiveSize<A, B>(s: set<A>, owner: A --> B, owners: set<B>)
    requires forall a :: a in s ==> owner.requires(a) && owner(a) in owners
    requires forall a, b :: a in s && b in s && owner(a) == owner(b) ==> a == b
    ensures |s| <= |owners|
    decreases |s|
  {
    if s != {} {
      var a :| a in s;
      InjectiveSize(s - {a}, owner, owners - {owner(a)});
    }
  }

  lemma {:induction false} SubsetOfSize<T>(w: set<T>, k: nat) returns (a: set<T>)
    requires k <= |w|
    ensures a <= w && |a| == k
  {
    if k == 0 {
      a := {};
    } else {
      var x :| x in w;
      a := SubsetOfSize(w - {x}, k - 1);
      a := a + {x};
    }
  }

  /** Whenever k of the voters w agree, that is the majority among any m of them. */
  ghost predicate Carries<T(!new)>(w: set<T>, k: nat, m: nat) {
    forall a, b :: a <= w && b <= w && |a| == k && |b| == m ==> |a * b| > |b - a|
  }

  /** Exactly when a decision by k votes binds everybody who counts m votes. */
  lemma CarriesExactly<T(!new)>(w: set<T>, k: nat, m: nat)
    requires k <= |w| && m <= |w|
    ensures Carries(w, k, m) <==> 2 * k + m > 2 * |w|
  {
    if 2 * k + m > 2 * |w| {
      forall a, b | a <= w && b <= w && |a| == k && |b| == m
        ensures |a * b| > |b - a|
      {
        Overlap(a, b, w);
        assert b == (a * b) + (b - a);
      }
    } else {
      var a, b := Outvoted(w, k, m);
      assert !(|a * b| > |b - a|);
    }
  }

  lemma Outvoted<T(!new)>(w: set<T>, k: nat, m: nat) returns (a: set<T>, b: set<T>)
    requires k <= |w| && m <= |w| && 2 * k + m <= 2 * |w|
    ensures a <= w && b <= w && |a| == k && |b| == m && |a * b| <= |b - a|
  {
    a := SubsetOfSize(w, k);
    var rest := w - a;
    if m <= |rest| {
      b := SubsetOfSize(rest, m);
      assert a * b == {};
    } else {
      var c := SubsetOfSize(a, m - |rest|);
      b := rest + c;
      assert a * b == c && b - a == rest;
    }
  }

  /** However many of the voters are counted, but at least m, the yes votes are not outnumbered. */
  ghost predicate AlwaysYes<T(!new)>(w: set<T>, yes: set<T>, m: nat) {
    forall b :: b <= w && |b| >= m ==> |b * yes| >= |b - yes|
  }

  /** Or always are. */
  ghost predicate AlwaysNo<T(!new)>(w: set<T>, yes: set<T>, m: nat) {
    forall b :: b <= w && |b| >= m ==> |b * yes| < |b - yes|
  }

  lemma SplitSize<T>(w: set<T>, yes: set<T>, b: set<T>)
    requires yes <= w && b <= w
    ensures |b * yes| + |b - yes| == |b| && |b * yes| <= |yes| && |b - yes| <= |w - yes| && |yes| + |w - yes| == |w|
  {
    SubsetSize(b * yes, yes);
    SubsetSize(b - yes, w - yes);
    assert b == (b * yes) + (b - yes);
    assert w == yes + (w - yes);
  }

  /** Exactly when all counts of at least m votes come out alike, ties being a yes. */
  lemma AlwaysYesExactly<T(!new)>(w: set<T>, yes: set<T>, m: nat)
    requires yes <= w && 0 < m <= |w|
    ensures AlwaysYes(w, yes, m) <==> 2 * |yes| + m >= 2 * |w|
  {
    SplitSize(w, yes, w);
    if 2 * |yes| + m >= 2 * |w| {
      forall b | b <= w && |b| >= m
        ensures |b * yes| >= |b - yes|
      {
        SplitSize(w, yes, b);
      }
    } else {
      var b := Filled(w - yes, yes, m);
      SplitSize(w, yes, b);
      assert b * (w - yes) == b - yes;
      assert |b * yes| < |b - yes|;
    }
  }

  lemma AlwaysNoExactly<T(!new)>(w: set<T>, yes: set<T>, m: nat)
    requires yes <= w && 0 < m <= |w|
    ensures AlwaysNo(w, yes, m) <==> 2 * |w - yes| + m > 2 * |w|
  {
    SplitSize(w, yes, w);
    if 2 * |w - yes| + m > 2 * |w| {
      forall b | b <= w && |b| >= m
        ensures |b * yes| < |b - yes|
      {
        SplitSize(w, yes, b);
      }
    } else {
      var b := Filled(yes, w - yes, m);
      SplitSize(w, yes, b);
      assert |b * yes| >= |b - yes|;
    }
  }

  /** All of a, or m of it, filled up from c to m. */
  lemma Filled<T(!new)>(a: set<T>, c: set<T>, m: nat) returns (b: set<T>)
    requires a !! c && m <= |a| + |c|
    ensures b <= a + c && |b| == m && (|a| <= m ==> |b * a| == |a| && |b - a| == m - |a|) && (|a| > m ==> b <= a)
  {
    if |a| > m {
      b := SubsetOfSize(a, m);
    } else {
      var d := SubsetOfSize(c, m - |a|);
      b := a + d;
      assert b * a == a && b - a == d;
    }
  }
}
