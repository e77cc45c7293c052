/** Events and the DAG they form (src/hashgraph/event.go). */
module Events {

  /** A public key, in hexadecimal. */
  type Peer = string

  type Bytes = seq<bv8>

  datatype Option<+T> = None | Some(value: T)

  ghost predicate NoDuplicates<T>(s: seq<T>) {
    forall i, j :: 0 <= i < j < |s| ==> s[i] != s[j]
  }

  datatype TransactionType = PeerAdd | PeerRemove

  datatype InternalTransaction = InternalTransaction(kind: TransactionType, peer: Peer)

  datatype BlockSignature = BlockSignature(validator: Peer, index: int, signature: string)

  /** What an event carries besides its place in the DAG. `hash` is the digest of
      the body and `signatureR` the first component of the creator's signature. */
  datatype Payload = Payload(
    transactions: seq<Bytes>,
    internalTransactions: seq<InternalTransaction>,
    blockSignatures: seq<BlockSignature>,
    timestamp: int,
    hash: Bytes,
    signatureR: int)

  /** Hashes are injective, so an event is identified with its contents and a
      parent hash with the parent itself. */
  datatype Event = Event(
    creator: Peer,
    index: int,
    selfParent: Option<Event>,
    otherParent: Option<Event>,
    payload: Payload)

  ghost function Parents(x: Event): set<Event> {
    (if x.selfParent.Some? then {x.selfParent.value} else {}) +
    (if x.otherParent.Some? then {x.otherParent.value} else {})
  }

  /** Length of the longest path below x; the Lamport timestamp of x. */
  function Lamport(x: Event): nat {
    var s := if x.selfParent.Some? then Lamport(x.selfParent.value) else -1;
    var o := if x.otherParent.Some? then Lamport(x.otherParent.value) else -1;
    1 + if o > s then o else s
  }

  /** Everything reachable from x by parent links, x included. */
  ghost function Ancestors(x: Event): set<Event> {
    {x} +
    (if x.selfParent.Some? then Ancestors(x.selfParent.value) else {}) +
    (if x.otherParent.Some? then Ancestors(x.otherParent.value) else {})
  }

  /** Lamport timestamps strictly increase along ancestry. */
  lemma {:induction false} LamportGrows(x: Event)
    ensures forall y :: y in Ancestors(x) && y != x ==> Lamport(y) < Lamport(x)
  {
    if x.selfParent.Some? { LamportGrows(x.selfParent.value); }
    if x.otherParent.Some? { LamportGrows(x.otherParent.value); }
  }

  ghost function ProperAncestors(x: Event): set<Event> {
    Ancestors(x) - {x}
  }

  lemma {:induction false} AncestorsTransitive(x: Event, y: Event)
    requires y in Ancestors(x)
    ensures Ancestors(y) <= Ancestors(x)
  {
    if y != x {
      if x.selfParent.Some? && y in Ancestors(x.selfParent.value) {
        AncestorsTransitive(x.selfParent.value, y);
      } else {
        AncestorsTransitive(x.otherParent.value, y);
      }
    }
  }

  /** A proper ancestor is an ancestor of some parent. */
  lemma {:induction false} ThroughParent(x: Event, y: Event) returns (p: Event)
    requires y in ProperAncestors(x)
    ensures p in Parents(x) && y in Ancestors(p)
    ensures p in ProperAncestors(x) && Ancestors(p) <= ProperAncestors(x)
  {
    if x.selfParent.Some? && y in Ancestors(x.selfParent.value) {
      p := x.selfParent.value;
    } else {
      p := x.otherParent.value;
    }
    ParentBelow(x, p);
  }

  lemma {:induction false} ParentBelow(x: Event, p: Event)
    requires p in Parents(x)
    ensures p in ProperAncestors(x) && Ancestors(p) <= ProperAncestors(x)
  {
    assert p in Ancestors(p);
    LamportGrows(p);
  }

  lemma NotOwnParent(x: Event)
    ensures x !in Parents(x)
  {
    if x in Parents(x) { ParentBelow(x, x); }
  }

  /** The index that a creator gives its events: 0, then one more than the self-parent's. */
  ghost predicate WellIndexed(x: Event) {
    match x.selfParent
    case None => x.index == 0
    case Some(s) => s.creator == x.creator && x.index == s.index + 1
  }

  ghost predicate Closed(V: set<Event>) {
    forall x, p :: x in V && p in Parents(x) ==> p in V
  }

  predicate SameSlot(x: Event, y: Event) {
    x.creator == y.creator && x.index == y.index
  }

  /** No creator has two events at one index. */
  ghost predicate ForkFree(V: set<Event>) {
    forall x, y :: x in V && y in V && SameSlot(x, y) ==> x == y
  }

  /** What a node may hold: an ancestor-closed, fork-free set of well indexed events. */
  ghost predicate View(V: set<Event>) {
    Closed(V) && ForkFree(V) && forall x :: x in V ==> WellIndexed(x)
  }

  lemma {:induction false} AncestorsInside(V: set<Event>, x: Event)
    requires Closed(V) && x in V
    ensures Ancestors(x) <= V
  {
    if x.selfParent.Some? {
      assert x.selfParent.value in Parents(x);
      AncestorsInside(V, x.selfParent.value);
    }
    if x.otherParent.Some? {
      assert x.otherParent.value in Parents(x);
      AncestorsInside(V, x.otherParent.value);
    }
  }

  lemma {:induction false} IndexNonNegative(V: set<Event>, x: Event)
    requires View(V) && x in V
    ensures x.index >= 0
  {
    if x.selfParent.Some? {
      assert x.selfParent.value in Parents(x);
      IndexNonNegative(V, x.selfParent.value);
    }
  }

  /** Each creator's events form one unforked chain: a lower index is an ancestor. */
  lemma {:induction false} Chain(V: set<Event>, x: Event, y: Event)
    requires View(V) && x in V && y in V
    requires x.creator == y.creator && y.index <= x.index
    ensures y in Ancestors(x)
    decreases x.index - y.index
  {
    if y.index == x.index {
      assert SameSlot(x, y);
    } else {
      IndexNonNegative(V, y);
      assert x.selfParent.value in Parents(x);
      Chain(V, x.selfParent.value, y);
    }
  }

  /** Along one creator, being an ancestor is having a smaller index. */
  lemma {:induction false} ChainIndex(V: set<Event>, x: Event, y: Event)
    requires View(V) && x in V && y in Ancestors(x) && x.creator == y.creator
    ensures y.index <= x.index
    ensures y != x ==> x.selfParent.Some? && y in Ancestors(x.selfParent.value)
  {
    AncestorsInside(V, x);
    if x.index < y.index {
      Chain(V, y, x);
      LamportGrows(x);
      LamportGrows(y);
    }
    if y != x {
      assert !SameSlot(x, y);
      IndexNonNegative(V, y);
      assert x.selfParent.value in Parents(x);
      Chain(V, x.selfParent.value, y);
    }
  }

  // ----- Lamport timestamps as lengths of paths

  /** A path down the parent links from x. */
  ghost predicate IsPath(x: Event, path: seq<Event>) {
    && path != [] && path[0] == x
    && forall i :: 0 <= i < |path| - 1 ==> path[i + 1] in Parents(path[i])
  }

  /** The Lamport timestamp of an event is the number of links on the longest path below it. */
  lemma {:induction false} LamportIsLongest(x: Event, n: nat)
    ensures n <= Lamport(x) <==> exists path :: IsPath(x, path) && |path| == n + 1
  {
    if n <= Lamport(x) {
      var path := PathBelow(x, n);
    } else if path :| IsPath(x, path) && |path| == n + 1 {
      PathBounded(x, path);
    }
  }

  lemma {:induction false} PathBelow(x: Event, n: nat) returns (path: seq<Event>)
    requires n <= Lamport(x)
    ensures IsPath(x, path) && |path| == n + 1
    decreases n
  {
    path := [x];
    if n > 0 {
      var s := x.selfParent.Some? && Lamport(x.selfParent.value) >= n - 1;
      var p := if s then x.selfParent.value else x.otherParent.value;
      var rest := PathBelow(p, n - 1);
      path := [x] + rest;
    }
  }

  lemma {:induction false} PathBounded(x: Event, path: seq<Event>)
    requires IsPath(x, path)
    ensures |path| <= Lamport(x) + 1
    decreases |path|
  {
    if |path| > 1 {
      assert path[1] in Parents(path[0]);
      PathBounded(path[1], path[1..]);
    }
  }
}
