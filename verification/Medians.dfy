/** The median that stamps a block (src/common/median.go). */
module Medians {

  predicate Sorted(s: seq<int>) {
    forall i, j :: 0 <= i < j < |s| ==> s[i] <= s[j]
  }

  /** int64 arithmetic wraps around. */
  function Wrap64(n: int): (r: int)
    ensures -0x8000_0000_0000_0000 <= n < 0x8000_0000_0000_0000 ==> r == n
  {
    (n + 0x8000_0000_0000_0000) % 0x1_0000_0000_0000_0000 - 0x8000_0000_0000_0000
  }

  /** Integer division truncates towards zero. */
  function Half(n: int): (r: int)
    ensures n - 1 <= 2 * r <= n + 1
    ensures n % 2 == 0 ==> 2 * r == n
  {
    if n >= 0 then n / 2 else -(-n / 2)
  }

  /** The middle of a sorted sequence, as an int64 computation. */
  function Middle(s: seq<int>): int {
    if |s| == 0 then 0
    else if |s| % 2 == 0 then Half(Wrap64(s[|s| / 2 - 1] + s[|s| / 2]))
    else s[|s| / 2]
  }

  /** The median depends only on which numbers there are, not on their order. */
  ghost predicate IsMedian(ms: multiset<int>, m: int) {
    exists s :: Sorted(s) && multiset(s) == ms && Middle(s) == m
  }

  lemma TailMultiset(s: seq<int>)
    requires s != []
    ensures multiset(s[1..]) == multiset(s) - multiset{s[0]}
  {
    assert s == [s[0]] + s[1..];
  }

  lemma HeadIsLeast(s: seq<int>, t: seq<int>)
    requires Sorted(t) && multiset(s) == multiset(t) && s != []
    ensures t != [] && t[0] <= s[0]
  {
    assert s[0] in multiset(t);
    var k :| 0 <= k < |t| && t[k] == s[0];
  }

  lemma {:induction false} SortedUnique(s: seq<int>, t: seq<int>)
    requires Sorted(s) && Sorted(t) && multiset(s) == multiset(t)
    ensures s == t
    decreases |s|
  {
    if s == [] {
      assert |multiset(t)| == 0;
    } else {
      HeadIsLeast(s, t);
      HeadIsLeast(t, s);
      TailMultiset(s);
      TailMultiset(t);
      SortedUnique(s[1..], t[1..]);
      assert s == [s[0]] + s[1..] && t == [t[0]] + t[1..];
    }
  }

  lemma MedianUnique(ms: multiset<int>, m: int, m': int)
    requires IsMedian(ms, m) && IsMedian(ms, m')
    ensures m == m'
  {
    var s :| Sorted(s) && multiset(s) == ms && Middle(s) == m;
    var t :| Sorted(t) && multiset(t) == ms && Middle(t) == m';
    SortedUnique(s, t);
  }

  /** Puts one number in its place. */
  method InsertSorted(s: seq<int>, n: int) returns (t: seq<int>)
    requires Sorted(s)
    ensures Sorted(t) && multiset(t) == multiset(s) + multiset{n}
  {
    var k := 0;
    while k < |s| && s[k] < n
      invariant 0 <= k <= |s|
      invariant forall j :: 0 <= j < k ==> s[j] < n
    {
      k := k + 1;
    }
    t := Splice(s, k, n);
    Spliced(s, k, n);
    SortedSplice(s, k, n);
  }

  function Splice<T>(s: seq<T>, k: nat, n: T): seq<T>
    requires k <= |s|
  {
    s[..k] + [n] + s[k..]
  }

  lemma Spliced<T>(s: seq<T>, k: nat, n: T)
    requires k <= |s|
    ensures multiset(Splice(s, k, n)) == multiset(s) + multiset{n}
  {
    assert s == s[..k] + s[k..];
  }

  lemma SplicedAt<T>(s: seq<T>, k: nat, n: T, i: nat)
    requires k <= |s| && i <= |s|
    ensures |Splice(s, k, n)| == |s| + 1
    ensures Splice(s, k, n)[i] == if i < k then s[i] else if i == k then n else s[i - 1]
  {
  }

  lemma SortedSplice(s: seq<int>, k: nat, n: int)
    requires Sorted(s) && k <= |s| && (forall j :: 0 <= j < k ==> s[j] < n) && (k < |s| ==> n <= s[k])
    ensures Sorted(Splice(s, k, n))
  {
    hide Splice;
    SplicedAt(s, k, n, 0);
    forall i, j | 0 <= i < j < |Splice(s, k, n)|
      ensures Splice(s, k, n)[i] <= Splice(s, k, n)[j]
    {
      SplicedAt(s, k, n, i);
      SplicedAt(s, k, n, j);
    }
  }

  /** Sorts a copy of the input and picks the middle. */
  method Median(input: seq<int>) returns (median: int)
    ensures IsMedian(multiset(input), median)
  {
    var s: seq<int> := [];
    for i := 0 to |input|
      invariant Sorted(s) && multiset(s) == multiset(input[..i])
    {
      assert input[..i + 1] == input[..i] + [input[i]];
      s := InsertSorted(s, input[i]);
    }
    assert input[..|input|] == input;
    median := Middle(s);
  }

  // ----- Faulty timestamps cannot move the median out of the honest range

  ghost function CountAtMost(s: seq<int>, m: int): nat {
    if s == [] then 0 else (if s[0] <= m then 1 else 0) + CountAtMost(s[1..], m)
  }

  lemma {:induction false} CountAppend(s: seq<int>, t: seq<int>, m: int)
    ensures CountAtMost(s + t, m) == CountAtMost(s, m) + CountAtMost(t, m)
  {
    if s == [] {
      assert s + t == t;
    } else {
      assert (s + t)[1..] == s[1..] + t;
      CountAppend(s[1..], t, m);
    }
  }

  lemma {:induction false} CountPermuted(s: seq<int>, t: seq<int>, m: int)
    requires multiset(s) == multiset(t)
    ensures CountAtMost(s, m) == CountAtMost(t, m)
    decreases |s|
  {
    if s == [] {
      assert |multiset(t)| == 0;
    } else {
      assert s[0] in multiset(t);
      var k :| 0 <= k < |t| && t[k] == s[0];
      var rest := t[..k] + t[k + 1..];
      TailMultiset(s);
      assert t == t[..k] + ([t[k]] + t[k + 1..]);
      assert multiset(rest) == multiset(t) - multiset{s[0]};
      CountPermuted(s[1..], rest, m);
      CountAppend(t[..k], [t[k]] + t[k + 1..], m);
      CountAppend(t[..k], t[k + 1..], m);
      assert ([t[k]] + t[k + 1..])[1..] == t[k + 1..];
    }
  }

  lemma {:induction false} CountPrefix(s: seq<int>, k: nat, m: int)
    requires k <= |s| && forall i :: 0 <= i < k ==> s[i] <= m
    ensures CountAtMost(s, m) >= k
  {
    if k > 0 { CountPrefix(s[1..], k - 1, m); }
  }

  lemma {:induction false} CountSuffix(s: seq<int>, k: nat, m: int)
    requires k <= |s| && forall i :: k <= i < |s| ==> s[i] > m
    ensures CountAtMost(s, m) <= k
  {
    if s != [] { CountSuffix(s[1..], if k > 0 then k - 1 else 0, m); }
  }

  /** At least half of the numbers are at most the lower middle one, and at least half
      are at least the upper middle one. */
  lemma MiddleSplits(s: seq<int>)
    requires Sorted(s) && s != []
    ensures CountAtMost(s, s[(|s| - 1) / 2]) >= (|s| + 1) / 2
    ensures CountAtMost(s, s[|s| / 2] - 1) <= |s| / 2
  {
    CountPrefix(s, (|s| + 1) / 2, s[(|s| - 1) / 2]);
    CountSuffix(s, |s| / 2, s[|s| / 2] - 1);
  }

  ghost function Faulty(honest: seq<bool>): nat {
    if honest == [] then 0 else (if honest[0] then 0 else 1) + Faulty(honest[1..])
  }

  lemma {:induction false} CountHonest(input: seq<int>, honest: seq<bool>, m: int)
    requires |input| == |honest|
    ensures (forall i :: 0 <= i < |input| && honest[i] ==> input[i] > m) ==> CountAtMost(input, m) <= Faulty(honest)
    ensures (forall i :: 0 <= i < |input| && honest[i] ==> input[i] <= m) ==>
              CountAtMost(input, m) >= |input| - Faulty(honest)
  {
    if input != [] {
      CountHonest(input[1..], honest[1..], m);
      assert forall i :: 0 <= i < |input[1..]| ==> honest[1..][i] == honest[i + 1] && input[1..][i] == input[i + 1];
    }
  }

  /** When fewer than half of the numbers are faulty, the median lies between two honest
      ones; only the honest ones need to be far from the int64 limits. */
  lemma HonestMedian(input: seq<int>, honest: seq<bool>, m: int)
    requires |input| == |honest| && 2 * Faulty(honest) < |input|
    requires forall i :: 0 <= i < |input| && honest[i] ==> -0x4000_0000_0000_0000 <= input[i] < 0x4000_0000_0000_0000
    requires IsMedian(multiset(input), m)
    ensures exists i :: 0 <= i < |input| && honest[i] && input[i] <= m
    ensures exists j :: 0 <= j < |input| && honest[j] && m <= input[j]
  {
    var s :| Sorted(s) && multiset(s) == multiset(input) && Middle(s) == m;
    assert |s| == |multiset(s)| == |multiset(input)| == |input|;
    var lo, hi := s[(|s| - 1) / 2], s[|s| / 2];
    var i, j := HonestAround(input, honest, s);
    assert lo <= m <= hi;
  }

  lemma HonestAround(input: seq<int>, honest: seq<bool>, s: seq<int>) returns (i: nat, j: nat)
    requires |input| == |honest| == |s| && 2 * Faulty(honest) < |input|
    requires Sorted(s) && multiset(s) == multiset(input)
    ensures i < |input| && honest[i] && input[i] <= s[(|s| - 1) / 2]
    ensures j < |input| && honest[j] && s[|s| / 2] <= input[j]
  {
    var lo, hi := s[(|s| - 1) / 2], s[|s| / 2];
    MiddleSplits(s);
    CountPermuted(s, input, lo);
    CountPermuted(s, input, hi - 1);
    CountHonest(input, honest, lo);
    CountHonest(input, honest, hi - 1);
    i :| i < |input| && honest[i] && input[i] <= lo;
    j :| j < |input| && honest[j] && hi <= input[j];
  }
}
