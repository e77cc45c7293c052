/** The cache behind every memo (src/common/lru.go). */
module Lru {
  import opened Events

  /** A cache's entries, the most recently used first, under distinct keys. */
  datatype Cache<K(==, !new), V(!new)> = Cache(size: int, entries: seq<(K, V)>) {
    function Lookup(key: K): (v: Option<V>)
      ensures v.Some? ==> (key, v.value) in entries
      ensures v.None? ==> forall e :: e in entries ==> e.0 != key
      decreases |entries|
    {
      if entries == [] then None
      else if entries[0].0 == key then Some(entries[0].1)
      else Cache(size, entries[1..]).Lookup(key)
    }

    function Without(key: K): seq<(K, V)>
      decreases |entries|
    {
      if entries == [] then []
      else
        var rest := Cache(size, entries[1..]).Without(key);
        if entries[0].0 == key then rest else [entries[0]] + rest
    }

    lemma {:induction false} WithoutMember(key: K)
      ensures forall e :: e in Without(key) <==> e in entries && e.0 != key
      decreases |entries|
    {
      if entries != [] {
        Cache(size, entries[1..]).WithoutMember(key);
        assert entries == [entries[0]] + entries[1..];
      }
    }

    /** A hit moves the entry to the front. */
    function Touch(key: K): (c: Cache<K, V>)
      ensures forall e :: e in c.entries ==> e in entries
    {
      WithoutMember(key);
      match Lookup(key)
      case None => this
      case Some(v) => Cache(size, [(key, v)] + Without(key))
    }

    /** A new entry goes to the front, and evicts the oldest when there are too many. */
    function Insert(key: K, value: V): (c: Cache<K, V>)
      ensures forall e :: e in c.entries ==> e in entries || e == (key, value)
    {
      WithoutMember(key);
      if Lookup(key).Some? then
        Cache(size, [(key, value)] + Without(key))
      else
        var es := [(key, value)] + entries;
        Cache(size, if |es| > size then es[..|es| - 1] else es)
    }
  }

  function Empty<K(==, !new), V(!new)>(size: int): Cache<K, V> {
    Cache(size, [])
  }

  // ----- What a memo holds

  /** Asking a memo for the value of f at a key: a hit, or else the value is computed and added. */
  function Access<K(==, !new), V(!new)>(c: Cache<K, V>, f: K -> V, key: K): Cache<K, V> {
    if c.Lookup(key).Some? then c.Touch(key) else c.Insert(key, f(key))
  }

  function Accesses<K(==, !new), V(!new)>(size: nat, f: K -> V, keys: seq<K>): Cache<K, V> {
    if keys == [] then Empty(size) else Access(Accesses(size, f, keys[..|keys| - 1]), f, keys[|keys| - 1])
  }

  function Drop<K(==)>(s: seq<K>, key: K): seq<K> {
    if s == [] then [] else (if s[0] == key then [] else [s[0]]) + Drop(s[1..], key)
  }

  /** The keys asked for, each once, the last one first. */
  function Recent<K(==)>(keys: seq<K>): seq<K> {
    if keys == [] then [] else [keys[|keys| - 1]] + Drop(Recent(keys[..|keys| - 1]), keys[|keys| - 1])
  }

  function Take<K>(s: seq<K>, n: nat): seq<K> {
    if n < |s| then s[..n] else s
  }

  function Pairs<K(==, !new), V(!new)>(f: K -> V, s: seq<K>): (ps: seq<(K, V)>)
    ensures |ps| == |s| && forall i :: 0 <= i < |s| ==> ps[i] == (s[i], f(s[i]))
  {
    seq(|s|, i requires 0 <= i < |s| => (s[i], f(s[i])))
  }

  lemma {:induction false} DropNone<K>(s: seq<K>, key: K)
    requires key !in s
    ensures Drop(s, key) == s
  {
    if s != [] { DropNone(s[1..], key); }
  }

  lemma {:induction false} DropAt<K>(s: seq<K>, i: nat)
    requires NoDuplicates(s) && i < |s|
    ensures Drop(s, s[i]) == s[..i] + s[i + 1..]
  {
    if i == 0 {
      DropNone(s[1..], s[0]);
    } else {
      DropAt(s[1..], i - 1);
      assert s[..i] == [s[0]] + s[1..][..i - 1] && s[1..][i..] == s[i + 1..];
    }
  }

  lemma {:induction false} RecentDifferent<K>(keys: seq<K>)
    ensures NoDuplicates(Recent(keys))
  {
    if keys != [] {
      var n := |keys| - 1;
      RecentDifferent(keys[..n]);
      FrontDifferent(Recent(keys[..n]), keys[n]);
    }
  }

  /** A key's last place among those asked for. */
  ghost predicate LastAt<K>(keys: seq<K>, key: K, i: int) {
    0 <= i < |keys| && keys[i] == key && key !in keys[i + 1..]
  }

  /** The keys asked for, and no others. */
  lemma {:induction false} RecentMember<K>(keys: seq<K>, key: K)
    ensures key in Recent(keys) <==> key in keys
  {
    if keys != [] {
      var n := |keys| - 1;
      RecentMember(keys[..n], key);
      DropMember(Recent(keys[..n]), keys[n], key);
      assert keys == keys[..n] + [keys[n]];
    }
  }

  lemma {:induction false} DropMember<K>(s: seq<K>, key: K, k: K)
    ensures k in Drop(s, key) <==> k in s && k != key
  {
    if s != [] {
      DropMember(s[1..], key, k);
      assert s == [s[0]] + s[1..];
    }
  }

  /** What comes first was asked for last. */
  lemma {:induction false} RecentFirst<K>(keys: seq<K>, i: nat, j: nat, a: int, b: int)
    requires i < j < |Recent(keys)| && LastAt(keys, Recent(keys)[i], a) && LastAt(keys, Recent(keys)[j], b)
    ensures a > b
    decreases |keys|
  {
    hide LastAt, Drop;
    var n := |keys| - 1;
    RecentDifferent(keys);
    assert Recent(keys)[0] == keys[n] && Recent(keys)[j] != keys[n];
    LastEarlier(keys, Recent(keys)[j], b);
    LastEarlier(keys, Recent(keys)[i], a);
    if i > 0 {
      assert Recent(keys)[i] != keys[n];
      var i', j' := DropOrder(Recent(keys[..n]), keys[n], i - 1, j - 1);
      RecentFirst(keys[..n], i', j', a, b);
    }
  }

  lemma LastEarlier<K>(keys: seq<K>, key: K, a: int)
    requires keys != [] && LastAt(keys, key, a)
    ensures if key == keys[|keys| - 1] then a == |keys| - 1
            else a < |keys| - 1 && LastAt(keys[..|keys| - 1], key, a)
  {
    var n := |keys| - 1;
    if a < n { assert keys[a + 1..] == keys[..n][a + 1..] + [keys[n]]; }
  }

  lemma {:induction false} DropOrder<K>(s: seq<K>, key: K, i: nat, j: nat) returns (i': nat, j': nat)
    requires i < j < |Drop(s, key)|
    ensures i' < j' < |s| && s[i'] == Drop(s, key)[i] && s[j'] == Drop(s, key)[j]
  {
    var rest := Drop(s[1..], key);
    var d := if s[0] == key then 0 else 1;
    if i >= d {
      i', j' := DropOrder(s[1..], key, i - d, j - d);
      i', j' := i' + 1, j' + 1;
    } else {
      DropMember(s[1..], key, rest[j - 1]);
      var k :| 0 <= k < |s[1..]| && s[1..][k] == rest[j - 1];
      i', j' := 0, k + 1;
    }
  }

  lemma FrontDifferent<K>(s: seq<K>, key: K)
    requires NoDuplicates(s)
    ensures NoDuplicates([key] + Drop(s, key))
  {
    if key in s {
      var i :| 0 <= i < |s| && s[i] == key;
      DropAt(s, i);
    } else {
      DropNone(s, key);
    }
  }

  /** A key that is held moves to the front of those held. */
  lemma TakeHit<K>(s: seq<K>, i: nat, n: nat)
    requires NoDuplicates(s) && i < |Take(s, n)|
    ensures Take([s[i]] + Drop(s, s[i]), n) == [s[i]] + Drop(Take(s, n), s[i])
  {
    DropAt(s, i);
    DropAt(Take(s, n), i);
    SliceHit(s, i, n);
  }

  lemma SliceHit<K>(s: seq<K>, i: nat, n: nat)
    requires i < |Take(s, n)|
    ensures Take([s[i]] + (s[..i] + s[i + 1..]), n) == [s[i]] + (Take(s, n)[..i] + Take(s, n)[i + 1..])
  {
    if n < |s| {
      assert s[..n][..i] == s[..i] && s[..n][i + 1..] == s[i + 1..n];
      assert (s[..i] + s[i + 1..])[..n - 1] == s[..i] + s[i + 1..n];
    }
  }

  /** A key that is not held pushes out the last one held, if there is no room. */
  lemma TakeMiss<K>(s: seq<K>, key: K, n: nat)
    requires NoDuplicates(s) && key !in Take(s, n)
    ensures Take([key] + Drop(s, key), n) == Take([key] + Take(s, n), n)
  {
    if key in s {
      var i :| 0 <= i < |s| && s[i] == key;
      DropAt(s, i);
      assert forall j :: 0 <= j < |Take(s, n)| ==> Take(s, n)[j] == s[j] && s[j] != key;
    } else {
      DropNone(s, key);
    }
  }

  lemma {:induction false} WithoutPairs<K(!new), V(!new)>(size: nat, f: K -> V, s: seq<K>, key: K)
    ensures Cache(size, Pairs(f, s)).Without(key) == Pairs(f, Drop(s, key))
  {
    if s != [] {
      var rest := s[1..];
      WithoutPairs(size, f, rest, key);
      assert s == [s[0]] + rest;
      PairsFront(f, s[0], rest);
      assert Pairs(f, s)[1..] == Pairs(f, rest);
      if s[0] != key { PairsFront(f, s[0], Drop(rest, key)); }
    }
  }

  lemma LookupPairs<K(!new), V(!new)>(size: nat, f: K -> V, s: seq<K>, key: K)
    ensures Cache(size, Pairs(f, s)).Lookup(key) == if key in s then Some(f(key)) else None
  {
    if key in s {
      var i :| 0 <= i < |s| && s[i] == key;
      assert Pairs(f, s)[i] in Pairs(f, s);
    }
  }

  lemma AccessRecent<K(!new), V(!new)>(size: nat, f: K -> V, recent: seq<K>, key: K)
    requires NoDuplicates(recent)
    ensures Access(Cache(size, Pairs(f, Take(recent, size))), f, key) ==
            Cache(size, Pairs(f, Take([key] + Drop(recent, key), size)))
  {
    hide NoDuplicates, Take;
    var held := Take(recent, size);
    if key in held {
      var i :| 0 <= i < |held| && held[i] == key;
      TakePrefix(recent, size);
      TakeHit(recent, i, size);
      AccessHit(size, f, held, key);
    } else {
      TakePrefix(recent, size);
      TakeMiss(recent, key, size);
      AccessMiss(size, f, held, key);
    }
  }

  lemma TakePrefix<K>(s: seq<K>, n: nat)
    ensures |Take(s, n)| <= n && Take(s, n) <= s
  {
  }

  lemma AccessHit<K(!new), V(!new)>(size: nat, f: K -> V, held: seq<K>, key: K)
    requires key in held
    ensures Access(Cache(size, Pairs(f, held)), f, key) == Cache(size, Pairs(f, [key] + Drop(held, key)))
  {
    LookupPairs(size, f, held, key);
    WithoutPairs(size, f, held, key);
    PairsFront(f, key, Drop(held, key));
  }

  lemma AccessMiss<K(!new), V(!new)>(size: nat, f: K -> V, held: seq<K>, key: K)
    requires key !in held && |held| <= size
    ensures Access(Cache(size, Pairs(f, held)), f, key) == Cache(size, Pairs(f, Take([key] + held, size)))
  {
    LookupPairs(size, f, held, key);
    PairsFront(f, key, held);
    assert Pairs(f, Take([key] + held, size)) == Take(Pairs(f, [key] + held), size);
  }

  lemma PairsFront<K(!new), V(!new)>(f: K -> V, key: K, s: seq<K>)
    ensures Pairs(f, [key] + s) == [(key, f(key))] + Pairs(f, s)
  {
  }

  /** A memo holds, whatever was asked, the values of f at the most recent keys: eviction never
      makes it answer anything else. */
  lemma {:induction false} MemoHoldsRecent<K(!new), V(!new)>(size: nat, f: K -> V, keys: seq<K>)
    ensures Accesses(size, f, keys) == Cache(size, Pairs(f, Take(Recent(keys), size)))
  {
    if keys != [] {
      var n := |keys| - 1;
      MemoHoldsRecent(size, f, keys[..n]);
      RecentDifferent(keys[..n]);
      AccessRecent(size, f, Recent(keys[..n]), keys[n]);
    }
  }
}
