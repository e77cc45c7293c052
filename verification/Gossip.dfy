/** One step of gossip: what a node sends to another, and what the other makes of it
    (eventDiff, sync and addSelfEvent in src/node/core.go, processSyncRequest in src/node/node_rpc.go). */
module Gossip {
  import opened Events
  import opened Quorum
  import opened Memo
  import opened Coordinates
  import opened Books
  import opened Frames
  import opened Hashgraphs
  import opened Medians
  import opened RollingIndexes
  import opened Wire

  // ----- What is sent

  /** The index of p's last event that the other knows. */
  function KnownOf(ids: Peer -> nat, known: map<nat, int>, p: Peer): int {
    if ids(p) in known then known[ids(p)] else -1
  }

  predicate Unknown(ids: Peer -> nat, known: map<nat, int>, e: Event) {
    e.index > KnownOf(ids, known, e.creator)
  }

  /** The events of an insertion order that the other does not know. */
  ghost function Diff(ids: Peer -> nat, known: map<nat, int>, order: seq<Event>): seq<Event> {
    if order == [] then []
    else
      var e := order[|order| - 1];
      Diff(ids, known, order[..|order| - 1]) + if Unknown(ids, known, e) then [e] else []
  }

  lemma {:induction false} DiffMember(ids: Peer -> nat, known: map<nat, int>, order: seq<Event>)
    ensures forall e :: e in Diff(ids, known, order) <==> e in order && Unknown(ids, known, e)
  {
    if order != [] {
      DiffMember(ids, known, order[..|order| - 1]);
      assert order == order[..|order| - 1] + [order[|order| - 1]];
    }
  }

  ghost predicate ParentsEarlier(order: seq<Event>) {
    forall k, p :: 0 <= k < |order| && p in Parents(order[k]) ==> p in order[..k]
  }

  /** The parents of an event that is sent are sent before it, unless the other knows them. */
  lemma {:induction false} DiffParents(ids: Peer -> nat, known: map<nat, int>, order: seq<Event>, k: nat, p: Event)
    requires ParentsEarlier(order) && k < |Diff(ids, known, order)|
    requires p in Parents(Diff(ids, known, order)[k]) && Unknown(ids, known, p)
    ensures p in Diff(ids, known, order)[..k]
  {
    if order != [] {
      var n := |order| - 1;
      var rest := order[..n];
      assert ParentsEarlier(rest) by { EarlierPrefix(order, n); }
      if k < |Diff(ids, known, rest)| {
        DiffParents(ids, known, rest, k, p);
        assert Diff(ids, known, order)[..k] == Diff(ids, known, rest)[..k];
      } else {
        DiffMember(ids, known, rest);
      }
    }
  }

  lemma EarlierPrefix(order: seq<Event>, n: nat)
    requires ParentsEarlier(order) && n <= |order|
    ensures ParentsEarlier(order[..n])
  {
    forall k, p | 0 <= k < n && p in Parents(order[..n][k])
      ensures p in order[..n][..k]
    {
      assert order[..n][..k] == order[..k] && order[..n][k] == order[k];
    }
  }

  // ----- Sorting by topological index

  /** Where an event comes in an insertion order; the order's length if nowhere. */
  function Position(order: seq<Event>, e: Event): nat {
    if order == [] then 0 else if order[0] == e then 0 else 1 + Position(order[1..], e)
  }

  lemma {:induction false} PositionIs(order: seq<Event>, e: Event)
    ensures Position(order, e) <= |order|
    ensures e in order <==> Position(order, e) < |order|
    ensures e in order ==> order[Position(order, e)] == e
  {
    if order != [] && order[0] != e { PositionIs(order[1..], e); }
  }

  lemma PositionAt(order: seq<Event>, k: nat)
    requires NoDuplicates(order) && k < |order|
    ensures Position(order, order[k]) == k
  {
    PositionIs(order, order[k]);
  }

  ghost predicate InPlace(order: seq<Event>, s: seq<Event>) {
    forall i, j :: 0 <= i < j < |s| ==> Position(order, s[i]) < Position(order, s[j])
  }

  lemma {:induction false} InPlaceUnique(order: seq<Event>, s: seq<Event>, t: seq<Event>)
    requires InPlace(order, s) && InPlace(order, t) && forall e :: e in s <==> e in t
    ensures s == t
  {
    assert s != [] ==> s[0] in t;
    assert t != [] ==> t[0] in s;
    if s != [] && t != [] {
      var m, n := |s| - 1, |t| - 1;
      assert s[m] in t && t[n] in s;
      assert s[m] == t[n];
      forall e
        ensures e in s[..m] <==> e in t[..n]
      {
        ButLast(order, s, e);
        ButLast(order, t, e);
      }
      InPlaceUnique(order, s[..m], t[..n]);
      assert s == s[..m] + [s[m]] && t == t[..n] + [t[n]];
    }
  }

  lemma ButLast(order: seq<Event>, s: seq<Event>, e: Event)
    requires InPlace(order, s) && s != []
    ensures e in s[..|s| - 1] <==> e in s && e != s[|s| - 1]
  {
    assert s == s[..|s| - 1] + [s[|s| - 1]];
  }

  lemma {:induction false} DiffInPlace(ids: Peer -> nat, known: map<nat, int>, order: seq<Event>, n: nat)
    requires NoDuplicates(order) && n <= |order|
    ensures InPlace(order, Diff(ids, known, order[..n]))
    decreases n
  {
    if n > 0 {
      DiffInPlace(ids, known, order, n - 1);
      assert order[..n][..n - 1] == order[..n - 1];
      DiffMember(ids, known, order[..n - 1]);
      var s := Diff(ids, known, order[..n - 1]);
      PositionAt(order, n - 1);
      forall i | 0 <= i < |s|
        ensures Position(order, s[i]) < n - 1
      {
        assert s[i] in s;
        var k :| 0 <= k < n - 1 && order[k] == s[i];
        PositionAt(order, k);
      }
    }
  }

  /** Puts one event in its place. */
  method Place(order: seq<Event>, s: seq<Event>, e: Event) returns (t: seq<Event>)
    requires InPlace(order, s) && e in order && e !in s && forall x :: x in s ==> x in order
    ensures InPlace(order, t) && forall x :: x in t <==> x in s || x == e
  {
    hide Splice;
    var k := 0;
    while k < |s| && Position(order, s[k]) < Position(order, e)
      invariant 0 <= k <= |s|
      invariant forall j :: 0 <= j < k ==> Position(order, s[j]) < Position(order, e)
    {
      k := k + 1;
    }
    t := Splice(s, k, e);
    Spliced(s, k, e);
    assert forall x :: x in t <==> x in multiset(t);
    InPlaceSplice(order, s, k, e);
  }

  lemma InPlaceSplice(order: seq<Event>, s: seq<Event>, k: nat, e: Event)
    requires InPlace(order, s) && e in order && e !in s && (forall x :: x in s ==> x in order) && k <= |s|
    requires forall j :: 0 <= j < k ==> Position(order, s[j]) < Position(order, e)
    requires k < |s| ==> Position(order, e) <= Position(order, s[k])
    ensures InPlace(order, Splice(s, k, e))
  {
    hide Splice;
    SplicedAt(s, k, e, 0);
    if k < |s| {
      assert s[k] in s && s[k] != e;
      PositionIs(order, e);
      PositionIs(order, s[k]);
      assert Position(order, e) < Position(order, s[k]);
    }
    forall i, j | 0 <= i < j < |Splice(s, k, e)|
      ensures Position(order, Splice(s, k, e)[i]) < Position(order, Splice(s, k, e)[j])
    {
      SplicedAt(s, k, e, i);
      SplicedAt(s, k, e, j);
      if i == k && j > k + 1 {
        assert Position(order, s[k]) < Position(order, s[j - 1]);
      }
    }
  }

  method SortByTopology(order: seq<Event>, unknown: seq<Event>) returns (sorted: seq<Event>)
    requires NoDuplicates(unknown) && forall x :: x in unknown ==> x in order
    ensures InPlace(order, sorted) && forall x :: x in sorted <==> x in unknown
  {
    hide InPlace;
    sorted := [];
    assert InPlace(order, sorted) by { NoneInPlace(order); }
    for i := 0 to |unknown|
      invariant InPlace(order, sorted) && forall x :: x in sorted <==> x in unknown[..i]
    {
      assert unknown[..i + 1] == unknown[..i] + [unknown[i]];
      sorted := Place(order, sorted, unknown[i]);
    }
    assert unknown[..|unknown|] == unknown;
  }

  lemma NoneInPlace(order: seq<Event>)
    ensures InPlace(order, [])
  {
  }

  // ----- What is received

  function Elements(s: seq<Event>): set<Event> {
    set e | e in s
  }

  /** Every event comes after its parents, if these are not in V. */
  ghost predicate Batch(V: set<Event>, s: seq<Event>) {
    forall k, p :: 0 <= k < |s| && p in Parents(s[k]) ==> p in V || p in s[..k]
  }

  /** `known` does not exceed what the other holds. */
  ghost predicate LowerBound(ids: Peer -> nat, known: map<nat, int>, pe: map<Peer, seq<Event>>) {
    forall p :: KnownOf(ids, known, p) < if p in pe then |pe[p]| else 0
  }

  /** What the other is said to know, it holds. */
  lemma KnownIsHeld(ids: Peer -> nat, known: map<nat, int>, V: set<Event>, W: set<Event>, pe: map<Peer, seq<Event>>,
                    e: Event)
    requires View(V) && View(V + W) && Indexed(W, pe) && LowerBound(ids, known, pe)
    requires e in V && !Unknown(ids, known, e)
    ensures e in W
  {
    hide Closed, WellIndexed;
    IndexNonNegative(V, e);
    assert KnownOf(ids, known, e.creator) < |pe[e.creator]|;
    assert SameSlot(e, pe[e.creator][e.index]);
  }

  /** Any first part of what a node sends can be inserted in order by the other. */
  lemma DiffIsBatch(ids: Peer -> nat, known: map<nat, int>, V: set<Event>, order: seq<Event>,
                    W: set<Event>, pe: map<Peer, seq<Event>>, n: nat)
    requires View(V) && View(V + W) && Topological(V, order) && Indexed(W, pe) && LowerBound(ids, known, pe)
    requires n <= |Diff(ids, known, order)|
    ensures Batch(W, Diff(ids, known, order)[..n])
    ensures Elements(Diff(ids, known, order)[..n]) <= V
    ensures W + Elements(Diff(ids, known, order)) == W + V
  {
    hide View, Indexed, LowerBound;
    var s := Diff(ids, known, order);
    DiffMember(ids, known, order);
    forall k, p | 0 <= k < n && p in Parents(s[..n][k])
      ensures p in W || p in s[..n][..k]
    {
      assert s[k] in s && s[..n][k] == s[k] && s[..n][..k] == s[..k];
      ParentKnown(V, s[k], p);
      if Unknown(ids, known, p) {
        DiffParents(ids, known, order, k, p);
      } else {
        KnownIsHeld(ids, known, V, W, pe, p);
      }
    }
    forall e | e in V && e !in s
      ensures e in W
    {
      KnownIsHeld(ids, known, V, W, pe, e);
    }
  }

  lemma ParentKnown(V: set<Event>, e: Event, p: Event)
    requires View(V) && e in V && p in Parents(e)
    ensures p in V
  {
  }

  lemma NewerInChain(V: set<Event>, pe: map<Peer, seq<Event>>, e: Event)
    requires View(V) && Indexed(V, pe) && View(V + {e}) && e !in V && e.creator in pe
    ensures forall x :: x in V && x.creator == e.creator ==> x.index < e.index
  {
    hide Closed, WellIndexed;
    IndexNonNegative(V + {e}, e);
    assert e.index < |pe[e.creator]| ==> !SameSlot(e, pe[e.creator][e.index]);
  }

  /** An event with known parents, that forks no known chain, is inserted unless it is known already;
      then it meets a self-parent error of the kind that is expected in normal operation. */
  lemma OutcomeOfKnown(h: Hashgraph, e: Event)
    requires View(h.events) && Indexed(h.events, h.participantEvents) && View(h.events + {e}) && Parents(e) <= h.events
    requires h.verify(e) && e.creator in h.participantEvents
    ensures h.Outcome(e) == if e in h.events then SelfParentError(true) else Inserted
  {
    var pe := h.participantEvents[e.creator];
    assert WellIndexed(e);
    if e.selfParent.Some? { assert e.selfParent.value in Parents(e); }
    if e.otherParent.Some? { assert e.otherParent.value in Parents(e); }
    if e !in h.events && e.index < |pe| {
      IndexNonNegative(h.events + {e}, e);
      assert SameSlot(e, pe[e.index]);
      assert false;
    }
  }

  /** A well indexed event is inserted exactly when it is signed, its creator is known, and it is new and leaves the
      node's view closed and unforked; its signature is what is looked at first. */
  lemma InsertedExactly(h: Hashgraph, e: Event)
    requires View(h.events) && Indexed(h.events, h.participantEvents) && WellIndexed(e)
    ensures h.Outcome(e) == Inserted <==>
            h.verify(e) && e.creator in h.participantEvents && e !in h.events && View(h.events + {e})
    ensures h.Outcome(e) == InvalidSignature <==> !h.verify(e)
  {
    hide View, Indexed, WellIndexed;
    if h.Outcome(e) == Inserted { h.AcceptedFits(e); }
    if h.verify(e) && e.creator in h.participantEvents && e !in h.events && View(h.events + {e}) {
      ParentsKnown(h.events, e);
      OutcomeOfKnown(h, e);
    }
  }

  lemma ParentsKnown(V: set<Event>, e: Event)
    requires View(V + {e})
    ensures Parents(e) <= V
  {
    NotOwnParent(e);
    forall p | p in Parents(e)
      ensures p in V
    {
      assert e in V + {e} && p in V + {e};
    }
  }

  /** Events that a node may receive: after their parents, unforked, signed, and read from the wire
      as they were sent. */
  ghost predicate Deliverable(h: Hashgraph, digest: Digest, batch: seq<Event>)
    reads h`events
  {
    && Batch(h.events, batch)
    && View(h.events + Elements(batch)) && DistinctKeys(h.events + Elements(batch))
    && forall e :: e in batch ==> Authentic(h, digest, e)
  }

  ghost predicate Authentic(h: Hashgraph, digest: Digest, e: Event) {
    h.verify(e) && !SelfCounts(h.peerSets, e) && WellHashed(digest, e) && OwnSignatures(e)
  }

  /** No two peers share an ID. */
  ghost predicate Injective(ids: Peer -> nat) {
    forall p, q :: ids(p) == ids(q) ==> p == q
  }

  datatype Step = Unread | Known | Refused | Accepted(event: Event)

  class Core {
    const hg: Hashgraph
    const ids: Peer -> nat
    const digest: Digest
    const repertoire: map<nat, Peer>

    /** This node's own key, its last event and the index of that. */
    const validator: Peer
    var head: Option<Event>
    var sequence: int

    // What its next event will carry
    var transactionPool: seq<Bytes>
    var internalTransactionPool: seq<InternalTransaction>
    var selfBlockSignatures: seq<BlockSignature>

    /** The last event received directly from each node, to become an other-parent. */
    var heads: map<nat, Option<Event>>

    ghost predicate Valid()
      reads this, hg
    {
      && hg.Valid()
      && Injective(ids) && Names(repertoire, ids, hg.participantEvents.Keys)
      && HeadsKnown() && OwnHead() && OwnPool()
    }

    /** The head and sequence number are those of the node's own chain. */
    ghost predicate OwnHead()
      reads this`head, this`sequence, hg`participantEvents
    {
      var own := if validator in hg.participantEvents then hg.participantEvents[validator] else [];
      sequence == |own| - 1 && head == if own == [] then None else Some(own[|own| - 1])
    }

    ghost predicate OwnPool()
      reads this`selfBlockSignatures
    {
      forall i :: 0 <= i < |selfBlockSignatures| ==> selfBlockSignatures[i].validator == validator
    }

    ghost predicate HeadsKnown()
      reads this`heads, hg`events
    {
      forall id :: id in heads && heads[id].Some? ==> heads[id].value in hg.events && ids(heads[id].value.creator) == id
    }

    /** No head is older than the new events of its creator. */
    ghost predicate Fresh(news: set<Event>)
      reads this`heads
    {
      forall e :: e in news && ids(e.creator) in heads && heads[ids(e.creator)].Some? ==>
        e.index <= heads[ids(e.creator)].value.index
    }

    /** h is the newest of the new events that were created by the node with a given ID. */
    ghost predicate Newest(h: Option<Event>, id: nat, news: set<Event>) {
      forall e :: e in news && ids(e.creator) == id ==> h.Some? && e.index <= h.value.index
    }

    constructor (hg: Hashgraph, ids: Peer -> nat, digest: Digest, validator: Peer)
      requires hg.Valid() && Injective(ids)
      ensures Valid() && this.hg == hg && this.ids == ids && this.digest == digest && this.validator == validator
      ensures heads == map[] && transactionPool == [] && internalTransactionPool == [] && selfBlockSignatures == []
    {
      hide Hashgraph.Sound;
      this.hg, this.ids, this.digest, this.validator := hg, ids, digest, validator;
      heads, transactionPool, internalTransactionPool, selfBlockSignatures := map[], [], [], [];
      var own := if validator in hg.participantEvents then hg.participantEvents[validator] else [];
      sequence, head := |own| - 1, if own == [] then None else Some(own[|own| - 1]);
      repertoire := map p | p in hg.participantEvents :: ids(p) := p;
    }

    lemma UnknownExactly(known: map<nat, int>)
      requires Indexed(hg.events, hg.participantEvents)
      ensures forall e :: e in hg.events ==>
                (Unknown(ids, known, e) <==> (ids(e.creator) in known ==> e.index > known[ids(e.creator)]))
    {
    }

    /** The events that another node does not know, in topological order. */
    method EventDiff(known: map<nat, int>) returns (result: Result<seq<Event>>)
      requires Valid()
      ensures result.Err? <==> exists p :: p in hg.participantEvents && KnownOf(ids, known, p) < -1
      ensures result.Ok? ==> result.value == Diff(ids, known, hg.topologicalOrder)
      ensures result.Ok? ==> InPlace(hg.topologicalOrder, result.value) && forall e :: e in result.value <==>
                e in hg.events && (ids(e.creator) in known ==> e.index > known[ids(e.creator)])
    {
      hide Hashgraph.Sound, InPlace, NoDuplicates, Unknown;
      OrderOf();
      var unknown: seq<Event> := [];
      var todo := hg.participantEvents.Keys;
      assert NoDuplicates(unknown) by { NoneTwice(); }
      while todo != {}
        invariant todo <= hg.participantEvents.Keys && NoDuplicates(unknown)
        invariant forall p :: p in hg.participantEvents && p !in todo ==> KnownOf(ids, known, p) >= -1
        invariant forall x :: x in unknown <==> x in hg.events && x.creator !in todo && Unknown(ids, known, x)
        decreases todo
      {
        var p :| p in todo;
        var ct := KnownOf(ids, known, p);
        if ct < -1 {
          return Err(TooLate);
        }
        var participantEvents := if ct >= |hg.participantEvents[p]| then [] else hg.participantEvents[p][ct + 1..];
        MoreUnknown(known, p, todo, unknown, participantEvents);
        todo := todo - {p};
        unknown := unknown + participantEvents;
      }
      var sorted := SortByTopology(hg.topologicalOrder, unknown);
      DiffMember(ids, known, hg.topologicalOrder);
      DiffInPlace(ids, known, hg.topologicalOrder, |hg.topologicalOrder|);
      assert hg.topologicalOrder[..|hg.topologicalOrder|] == hg.topologicalOrder;
      InPlaceUnique(hg.topologicalOrder, sorted, Diff(ids, known, hg.topologicalOrder));
      UnknownExactly(known);
      return Ok(sorted);
    }

    /** Answers a request with as many unknown events as both nodes' limits allow. */
    method ProcessSyncRequest(known: map<nat, int>, requestLimit: nat, ownLimit: nat)
      returns (result: Result<seq<WireEvent>>, ghost batch: seq<Event>)
      requires Valid()
      ensures result.Err? <==> exists p :: p in hg.participantEvents && KnownOf(ids, known, p) < -1
      ensures result.Ok? ==> batch <= Diff(ids, known, hg.topologicalOrder)
      ensures result.Ok? ==> |batch| == Least(Least(requestLimit, ownLimit), |Diff(ids, known, hg.topologicalOrder)|)
      ensures result.Ok? ==> |result.value| == |batch|
      ensures result.Ok? ==> forall k :: 0 <= k < |batch| ==> result.value[k] == ToWire(ids, batch[k])
    {
      hide Hashgraph.Sound, ToWire;
      var diff := EventDiff(known);
      if diff.Err? {
        return Err(diff.error), [];
      }
      var limit := Least(requestLimit, ownLimit);
      var chosen := if limit < |diff.value| then diff.value[..limit] else diff.value;
      batch := chosen;
      result := Ok(seq(|chosen|, k requires 0 <= k < |chosen| => ToWire(ids, chosen[k])));
    }

    /** Decodes and inserts the events sent by another node. */
    method Sync(fromID: nat, unknownEvents: seq<WireEvent>, ghost batch: seq<Event>) returns (ok: bool, ghost n: nat)
      requires Valid() && Deliverable(hg, digest, batch)
      requires |unknownEvents| == |batch| && forall k :: 0 <= k < |batch| ==> unknownEvents[k] == ToWire(ids, batch[k])
      modifies this`heads, this`head, this`sequence, hg
      ensures Valid()
      ensures n <= |batch| && hg.events == old(hg.events) + Elements(batch[..n]) && View(hg.events)
      ensures forall k :: 0 <= k < n ==> batch[k].creator in old(hg.participantEvents)
      ensures ok <==> n == |batch|
      ensures !ok ==> batch[n].creator !in old(hg.participantEvents)
      ensures old(hg.blocks) <= hg.blocks
      ensures Fresh(Elements(batch[..n]) - old(hg.events))
      ensures ok ==> fromID in heads && Newest(heads[fromID], fromID, Elements(batch) - old(hg.events))
    {
      hide Valid, View, DistinctKeys, Authentic, Batch, ToWire, Elements, Fresh, Newest;
      n := 0;
      var otherHead: Option<Event> := None;
      NoElements(batch);
      ghost var news: set<Event> := {};
      assert Fresh(news) && Newest(otherHead, fromID, news) by { NoNews(fromID); }
      for k := 0 to |unknownEvents|
        invariant n == k && Valid() && hg.events == old(hg.events) + Elements(batch[..k])
        invariant hg.participantEvents.Keys == old(hg.participantEvents.Keys) && old(hg.blocks) <= hg.blocks
        invariant forall j :: 0 <= j < k ==> batch[j].creator in old(hg.participantEvents)
        invariant otherHead.Some? ==> otherHead.value in hg.events && ids(otherHead.value.creator) == fromID
        invariant news == Elements(batch[..k]) - old(hg.events) && Fresh(news) && Newest(otherHead, fromID, news)
      {
        NextDelivered(old(hg.events), batch, k);
        ElementsSnoc(batch, k);
        var known;
        ghost var isNew := batch[k] !in hg.events;
        known, otherHead := SyncEvent(fromID, unknownEvents[k], otherHead, batch[k], news);
        if !known {
          CoreView();
          return false, n;
        }
        n, news := n + 1, if isNew then news + {batch[k]} else news;
      }
      assert batch[..|batch|] == batch;
      RecordHead(fromID, otherHead, news);
      CoreView();
      ok := true;
    }

    /** Decodes and inserts one event, and keeps track of heads. */
    method SyncEvent(fromID: nat, w: WireEvent, otherHead: Option<Event>, ghost e: Event, ghost news: set<Event>)
      returns (ok: bool, otherHead': Option<Event>)
      requires Valid() && w == ToWire(ids, e) && Authentic(hg, digest, e)
      requires Parents(e) <= hg.events && View(hg.events + {e}) && DistinctKeys(hg.events + {e})
      requires otherHead.Some? ==> otherHead.value in hg.events && ids(otherHead.value.creator) == fromID
      requires news <= hg.events && Fresh(news) && Newest(otherHead, fromID, news)
      modifies hg, this`head, this`sequence, this`heads
      ensures Valid() && hg.participantEvents.Keys == old(hg.participantEvents.Keys) && old(hg.blocks) <= hg.blocks
      ensures ok <==> e.creator in old(hg.participantEvents)
      ensures hg.events == if ok then old(hg.events) + {e} else old(hg.events)
      ensures otherHead'.Some? ==> otherHead'.value in hg.events && ids(otherHead'.value.creator) == fromID
      ensures Fresh(if ok && e !in old(hg.events) then news + {e} else news)
      ensures Newest(otherHead', fromID, if ok && e !in old(hg.events) then news + {e} else news)
    {
      hide Hashgraph.Sound, View, DistinctKeys, Authentic, ToWire, Names, Hashgraph.Outcome;
      otherHead' := otherHead;
      NewerThanKnown(e);
      var step := ReadAndInsert(w, e);
      ok := step != Unread && step != Refused;
      if step.Accepted? {
        if ids(step.event.creator) == fromID {
          otherHead' := Some(step.event);
        }
        ForgetHead(ids(step.event.creator), step.event.index);
      }
    }

    /** A head from a node replaces an older one, or none. */
    method RecordHead(fromID: nat, otherHead: Option<Event>, ghost news: set<Event>)
      requires Valid() && (otherHead.Some? ==> otherHead.value in hg.events && ids(otherHead.value.creator) == fromID)
      requires Fresh(news) && Newest(otherHead, fromID, news)
      modifies this`heads
      ensures Valid() && Fresh(news) && fromID in heads && Newest(heads[fromID], fromID, news)
      ensures heads == if fromID in old(heads) && old(heads)[fromID].Some? &&
                          (otherHead.Some? ==> otherHead.value.index <= old(heads)[fromID].value.index)
                       then old(heads) else old(heads)[fromID := otherHead]
    {
      hide Hashgraph.Sound, Names, Injective;
      if fromID !in heads || heads[fromID].None?
         || (otherHead.Some? && otherHead.value.index > heads[fromID].value.index) {
        heads := heads[fromID := otherHead];
      }
    }

    /** A newer event replaces a head. */
    method ForgetHead(id: nat, index: int)
      requires HeadsKnown()
      modifies this`heads
      ensures HeadsKnown() && heads == if id in old(heads) && old(heads)[id].Some? && index > old(heads)[id].value.index
                                       then old(heads) - {id} else old(heads)
    {
      if id in heads && heads[id].Some? && index > heads[id].value.index {
        heads := heads - {id};
      }
    }

    lemma NoNews(fromID: nat)
      ensures Fresh({}) && Newest(None, fromID, {})
    {
    }

    /** An event that can be inserted is newer than the known ones by its creator. */
    lemma NewerThanKnown(e: Event)
      requires hg.Valid() && Parents(e) <= hg.events && View(hg.events + {e})
      ensures e !in hg.events && e.creator in hg.participantEvents ==>
                forall x :: x in hg.events && x.creator == e.creator ==> x.index < e.index
    {
      hide Hashgraph.Sound, View;
      if e !in hg.events && e.creator in hg.participantEvents {
        NodeChains();
        NewerInChain(hg.events, hg.participantEvents, e);
      }
    }

    lemma NodeChains()
      requires hg.Valid()
      ensures View(hg.events) && Indexed(hg.events, hg.participantEvents)
    {
    }

    lemma NodeView()
      requires hg.Valid()
      ensures View(hg.events)
    {
    }

    lemma CoreView()
      requires Valid()
      ensures View(hg.events)
    {
      NodeView();
    }

    lemma NextDelivered(E: set<Event>, batch: seq<Event>, k: nat)
      requires Batch(E, batch) && View(E + Elements(batch)) && DistinctKeys(E + Elements(batch)) && k < |batch|
      requires Valid() && hg.events == E + Elements(batch[..k])
      ensures Parents(batch[k]) <= hg.events && View(hg.events + {batch[k]}) && DistinctKeys(hg.events + {batch[k]})
    {
      hide Hashgraph.Sound;
      var e := batch[k];
      NodeView();
      ElementsSnoc(batch, k);
      forall p | p in Parents(e)
        ensures p in hg.events
      {
        assert p in E || p in batch[..k];
      }
      assert hg.events + {e} <= E + Elements(batch);
    }

    /** Decodes and inserts one event. */
    method ReadAndInsert(w: WireEvent, ghost e: Event) returns (step: Step)
      requires Valid() && w == ToWire(ids, e) && Authentic(hg, digest, e)
      requires Parents(e) <= hg.events && View(hg.events + {e}) && DistinctKeys(hg.events + {e})
      modifies hg, this`head, this`sequence
      ensures Valid() && hg.participantEvents.Keys == old(hg.participantEvents.Keys) && old(hg.blocks) <= hg.blocks
      ensures e.creator !in old(hg.participantEvents) ==> step == Unread && hg.events == old(hg.events)
      ensures e.creator in old(hg.participantEvents) ==>
                hg.events == old(hg.events) + {e} && step == if e in old(hg.events) then Known else Accepted(e)
    {
      hide Hashgraph.Sound, View, DistinctKeys, SelfCounts, WellHashed, OwnSignatures, ToWire, ReadWireInfo;
      ReadBack(w, e);
      var read := ReadWireInfo(repertoire, hg.participantEvents, digest, w);
      if read.Failed? {
        return Unread;
      }
      var result := InsertEventAndRunConsensus(read.event);
      match result {
        case Inserted => step := Accepted(read.event);
        case SelfParentError(normal) => step := if normal then Known else Refused;
        case _ => step := Refused;
      }
    }

    /** Inserts an event, which may be the node's own. */
    method InsertEventAndRunConsensus(e: Event) returns (result: InsertResult)
      requires Valid() && (hg.Outcome(e) == Inserted ==> hg.WellMade(e))
      modifies hg, this`head, this`sequence
      ensures Valid() && result == old(hg.Outcome(e))
      ensures hg.participantEvents.Keys == old(hg.participantEvents.Keys) && old(hg.blocks) <= hg.blocks
      ensures hg.events == if result == Inserted then old(hg.events) + {e} else old(hg.events)
      ensures result == Inserted && e.creator == validator ==> head == Some(e) && sequence == e.index
      ensures result != Inserted ==> unchanged(this)
    {
      hide Hashgraph.Sound, Hashgraph.WellMade, Names, Injective, Hashgraph.UpToDate;
      if hg.Outcome(e) == Inserted {
        NextOwn(e);
      }
      result := hg.InsertEventAndRunConsensus(e);
      assert hg.participantEvents.Keys == old(hg.participantEvents.Keys);
      if result == Inserted && e.creator == validator {
        head, sequence := Some(e), e.index;
      }
    }

    lemma NextOwn(e: Event)
      requires hg.Valid() && hg.Outcome(e) == Inserted && hg.WellMade(e)
      ensures e.creator in hg.participantEvents && e.index == |hg.participantEvents[e.creator]|
    {
      NodeView();
      hg.AcceptedFits(e);
      hg.FittingView(e);
    }

    /** Creates and inserts the node's next event, with what is in the pools, unless it is too early
        for a node that has just joined. */
    method AddSelfEvent(otherHead: Option<Event>, timestamp: int, signatureR: int, acceptedRound: int)
      returns (result: Option<InsertResult>)
      requires Valid()
      requires !SelfCounts(hg.peerSets, SelfEvent(otherHead, timestamp, signatureR))
      requires DistinctKeys(hg.events + {SelfEvent(otherHead, timestamp, signatureR)})
      modifies hg, this
      ensures Valid() && heads == old(heads) && old(hg.blocks) <= hg.blocks
      ensures result == old(if hg.lastRound < acceptedRound then None
                            else if !hg.verify(SelfEvent(otherHead, timestamp, signatureR)) then Some(InvalidSignature)
                            else if validator !in hg.participantEvents then Some(SelfParentError(false))
                            else if otherHead.Some? && otherHead.value !in hg.events then Some(OtherParentUnknown)
                            else Some(Inserted))
      ensures result != Some(Inserted) ==> unchanged(this) && hg.events == old(hg.events)
      ensures result == Some(Inserted) ==>
                && head.Some? && head.value == old(SelfEvent(otherHead, timestamp, signatureR))
                && head.value !in old(hg.events) && hg.events == old(hg.events) + {head.value}
                && WellIndexed(head.value) && WellHashed(digest, head.value) && OwnSignatures(head.value)
                && head.value.payload.transactions == old(transactionPool) && transactionPool == []
                && head.value.payload.internalTransactions == old(internalTransactionPool)
                && internalTransactionPool == []
                && head.value.payload.blockSignatures == old(selfBlockSignatures) && selfBlockSignatures == []
    {
      hide Hashgraph.Sound, Names, Injective, DistinctKeys, SelfCounts, Hashgraph.Outcome;
      if hg.lastRound < acceptedRound {
        return None;
      }
      var e := SelfEvent(otherHead, timestamp, signatureR);
      SelfEventFits(e, otherHead, timestamp, signatureR);
      var inserted := InsertEventAndRunConsensus(e);
      if inserted == Inserted {
        transactionPool, internalTransactionPool, selfBlockSignatures := [], [], [];
      }
      return Some(inserted);
    }

    /** The next event on the node's own chain. */
    function SelfEvent(otherHead: Option<Event>, timestamp: int, signatureR: int): Event
      reads this
    {
      Hashed(digest, Event(validator, sequence + 1, head, otherHead,
                           Payload(transactionPool, internalTransactionPool, selfBlockSignatures, timestamp, [],
                                   signatureR)))
    }

    lemma SelfEventFits(e: Event, otherHead: Option<Event>, timestamp: int, signatureR: int)
      requires Valid() && e == SelfEvent(otherHead, timestamp, signatureR)
      ensures hg.Outcome(e) == if !hg.verify(e) then InvalidSignature
                               else if validator !in hg.participantEvents then SelfParentError(false)
                               else if otherHead.Some? && otherHead.value !in hg.events then OtherParentUnknown
                               else Inserted
      ensures e !in hg.events && WellIndexed(e) && WellHashed(digest, e) && OwnSignatures(e)
    {
      hide Hashgraph.Sound, Names, Injective;
      OrderOf();
      if validator in hg.participantEvents {
        var own := hg.participantEvents[validator];
        if own != [] {
          assert own[|own| - 1] in hg.events && own[|own| - 1].index == |own| - 1;
        }
      }
    }

    lemma ReadBack(w: WireEvent, e: Event)
      requires Valid() && w == ToWire(ids, e) && Authentic(hg, digest, e)
      requires Parents(e) <= hg.events && View(hg.events + {e}) && DistinctKeys(hg.events + {e})
      ensures ReadWireInfo(repertoire, hg.participantEvents, digest, w) ==
              if e.creator in hg.participantEvents then Read(e) else Failed(CreatorNotFound)
      ensures e.creator in hg.participantEvents ==>
                && hg.Outcome(e) == (if e in hg.events then SelfParentError(true) else Inserted)
                && (hg.Outcome(e) == Inserted ==> hg.WellMade(e))
    {
      hide Hashgraph.Sound, SelfCounts, WellHashed, OwnSignatures, ReadWireInfo, Indexed, DistinctKeys, Closed,
           ForkFree, Hashgraph.Outcome;
      OrderOf();
      NodeView();
      if e.creator in hg.participantEvents {
        assert e in hg.events + {e};
        WireRoundTrip(ids, repertoire, hg.events, hg.participantEvents, digest, e);
        OutcomeOfKnown(hg, e);
      } else {
        NotNamed(w, e);
      }
    }

    lemma NotNamed(w: WireEvent, e: Event)
      requires Names(repertoire, ids, hg.participantEvents.Keys) && Injective(ids) && w == ToWire(ids, e)
      requires e.creator !in hg.participantEvents
      ensures ReadWireInfo(repertoire, hg.participantEvents, digest, w) == Failed(CreatorNotFound)
    {
    }

    lemma OrderOf()
      requires Valid()
      ensures NoDuplicates(hg.topologicalOrder) && (forall x :: x in hg.topologicalOrder <==> x in hg.events)
      ensures forall x :: x in hg.events ==> x.creator in hg.participantEvents
      ensures Indexed(hg.events, hg.participantEvents)
    {
    }

    lemma NoneTwice()
      ensures NoDuplicates<Event>([])
    {
    }

    lemma MoreUnknown(known: map<nat, int>, p: Peer, todo: set<Peer>, unknown: seq<Event>, more: seq<Event>)
      requires Indexed(hg.events, hg.participantEvents) && p in todo && p in hg.participantEvents
               && NoDuplicates(unknown)
      requires KnownOf(ids, known, p) >= -1
      requires more == if KnownOf(ids, known, p) >= |hg.participantEvents[p]| then []
                       else hg.participantEvents[p][KnownOf(ids, known, p) + 1..]
      requires forall x :: x in unknown <==> x in hg.events && x.creator !in todo && Unknown(ids, known, x)
      ensures NoDuplicates(unknown + more)
      ensures forall x :: x in unknown + more <==> x in hg.events && x.creator !in todo - {p} && Unknown(ids, known, x)
    {
      hide Unknown, NoDuplicates, Indexed;
      EventsAfter(hg.events, hg.participantEvents, p, KnownOf(ids, known, p), more);
      assert forall x :: x in hg.events && x.creator == p ==>
             (Unknown(ids, known, x) <==> x.index > KnownOf(ids, known, p)) by {
        ByIndex(known, p);
      }
      JoinApart(unknown, more);
    }

    lemma ByIndex(known: map<nat, int>, p: Peer)
      ensures forall x: Event :: x.creator == p ==> (Unknown(ids, known, x) <==> x.index > KnownOf(ids, known, p))
    {
    }
  }

  lemma NoElements(s: seq<Event>)
    ensures Elements(s[..0]) == {}
  {
  }

  lemma ElementsSnoc(s: seq<Event>, k: nat)
    requires k < |s|
    ensures Elements(s[..k + 1]) == Elements(s[..k]) + {s[k]} && Elements(s[..k + 1]) <= Elements(s)
  {
    assert s[..k + 1] == s[..k] + [s[k]];
  }

  lemma EventsAfter(V: set<Event>, pe: map<Peer, seq<Event>>, p: Peer, ct: int, more: seq<Event>)
    requires Indexed(V, pe) && p in pe && ct >= -1 && more == if ct >= |pe[p]| then [] else pe[p][ct + 1..]
    ensures forall x :: x in more <==> x in V && x.creator == p && x.index > ct
    ensures NoDuplicates(more)
  {
    forall k | 0 <= k < |more|
      ensures more[k] in V && more[k].creator == p && more[k].index == ct + 1 + k
    {
      assert more[k] == pe[p][ct + 1 + k];
    }
    forall x | x in V && x.creator == p && x.index > ct
      ensures x in more
    {
      assert more[x.index - ct - 1] == x;
    }
  }

  lemma JoinApart<T>(s: seq<T>, t: seq<T>)
    requires NoDuplicates(s) && NoDuplicates(t) && forall x :: x in s ==> x !in t
    ensures NoDuplicates(s + t)
  {
    forall i, j | 0 <= i < j < |s + t|
      ensures (s + t)[i] != (s + t)[j]
    {
      if i < |s| <= j { assert s[i] in s && t[j - |s|] in t; }
    }
  }

  /** Whatever part of its answer a node sends, the node that asked can insert it; and the whole of
      it brings the asking node's view to the union of both. */
  lemma GossipDelivers(a: Core, b: Core, known: map<nat, int>, n: nat)
    requires a.Valid() && b.Valid() && a.hg.peerSets == b.hg.peerSets && a.hg.verify == b.hg.verify
    requires a.ids == b.ids && a.digest == b.digest && LowerBound(a.ids, known, b.hg.participantEvents)
    requires View(a.hg.events + b.hg.events) && DistinctKeys(a.hg.events + b.hg.events)
    requires forall e :: e in a.hg.events ==> WellHashed(a.digest, e) && OwnSignatures(e)
    requires n <= |Diff(a.ids, known, a.hg.topologicalOrder)|
    ensures Deliverable(b.hg, b.digest, Diff(a.ids, known, a.hg.topologicalOrder)[..n])
    ensures b.hg.events + Elements(Diff(a.ids, known, a.hg.topologicalOrder)) == b.hg.events + a.hg.events
  {
    hide *;
    var batch := Diff(a.ids, known, a.hg.topologicalOrder)[..n];
    SenderFacts(a);
    ReceiverFacts(b);
    DiffIsBatch(a.ids, known, a.hg.events, a.hg.topologicalOrder, b.hg.events, b.hg.participantEvents, n);
    PartDelivered(b.hg, b.digest, a.hg.events, batch);
  }

  lemma SenderFacts(a: Core)
    requires a.Valid()
    ensures View(a.hg.events) && Topological(a.hg.events, a.hg.topologicalOrder)
    ensures forall e :: e in a.hg.events ==> a.hg.verify(e) && !SelfCounts(a.hg.peerSets, e)
  {
  }

  lemma ReceiverFacts(b: Core)
    requires b.Valid()
    ensures View(b.hg.events) && Indexed(b.hg.events, b.hg.participantEvents)
  {
  }

  lemma PartDelivered(h: Hashgraph, digest: Digest, V: set<Event>, batch: seq<Event>)
    requires View(h.events) && View(V + h.events) && DistinctKeys(V + h.events) && Batch(h.events, batch)
             && Elements(batch) <= V
    requires forall e :: e in V ==>
             h.verify(e) && !SelfCounts(h.peerSets, e) && WellHashed(digest, e) && OwnSignatures(e)
    ensures Deliverable(h, digest, batch)
  {
    hide SelfCounts, WellHashed, OwnSignatures;
    forall e | e in batch
      ensures Authentic(h, digest, e)
    {
      assert e in Elements(batch);
    }
    var W := h.events + Elements(batch);
    assert W <= V + h.events;
    forall x, p | x in W && p in Parents(x)
      ensures p in W
    {
      if x !in h.events {
        var k :| 0 <= k < |batch| && batch[k] == x;
        assert p in h.events || p in batch[..k];
      }
    }
  }
}
