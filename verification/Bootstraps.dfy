/** Rebuilding a node from its events (Bootstrap in src/hashgraph/hashgraph.go). */
module Bootstraps {
  import opened Events
  import opened Rounds
  import opened Coordinates
  import opened Frames
  import opened Memo
  import opened Books
  import opened Hashgraphs
  import opened Gossip
  import opened Voting
  import opened Received
  import Fronts
  import Stalemate

  /** Events that a node has stored: each once, after its parents. */
  ghost predicate Storable(ps: PeerSets, participants: set<Peer>, order: seq<Event>) {
    && Topological(Elements(order), order) && View(Elements(order)) && DistinctKeys(Elements(order))
    && forall e :: e in order ==> !SelfCounts(ps, e) && e.creator in participants
  }

  /** Inserts the stored events, in topological order, into a node that knows none. */
  method Bootstrap(h: Hashgraph, order: seq<Event>)
    requires h.Valid() && h.events == {} && Storable(h.peerSets, h.participantEvents.Keys, order)
    requires forall e :: e in order ==> h.verify(e)
    modifies h
    ensures h.Valid() && h.events == Elements(order) && h.topologicalOrder == order
    ensures order != [] ==> h.UpToDate()
  {
    hide Hashgraph.Sound, SelfCounts, View, DistinctKeys, Hashgraph.UpToDate;
    NoneYet(h);
    assert order[..0] == [];
    for k := 0 to |order|
      invariant h.Valid() && h.events == Elements(order[..k]) && h.topologicalOrder == order[..k]
      invariant h.participantEvents.Keys == old(h.participantEvents.Keys)
      invariant k > 0 ==> h.UpToDate()
    {
      NextInserted(h, order, k);
      var result := h.InsertEventAndRunConsensus(order[k]);
      assert order[..k + 1] == order[..k] + [order[k]];
    }
    assert order[..|order|] == order;
  }

  lemma NoneYet(h: Hashgraph)
    requires h.Valid() && h.events == {}
    ensures h.topologicalOrder == []
  {
    hide Topological;
    NodeTopological(h);
    FirstListed(h.events, h.topologicalOrder);
  }

  lemma NodeTopological(h: Hashgraph)
    requires h.Valid()
    ensures Topological(h.events, h.topologicalOrder)
  {
    hide Topological;
  }

  lemma FirstListed(V: set<Event>, order: seq<Event>)
    requires Topological(V, order)
    ensures order != [] ==> order[0] in V
  {
    if order != [] { assert order[0] in order; }
  }

  /** Each of them is accepted. */
  lemma NextInserted(h: Hashgraph, order: seq<Event>, k: nat)
    requires h.Valid() && Storable(h.peerSets, h.participantEvents.Keys, order)
    requires k < |order| && h.verify(order[k]) && h.events == Elements(order[..k])
    ensures h.Outcome(order[k]) == Inserted && h.WellMade(order[k])
  {
    hide Hashgraph.Valid, Hashgraph.Outcome, SelfCounts, View, DistinctKeys, WellIndexed, Topological;
    NodeIndexed(h);
    NextFits(order, k);
    OutcomeOfKnown(h, order[k]);
  }

  lemma NodeIndexed(h: Hashgraph)
    requires h.Valid()
    ensures View(h.events) && Indexed(h.events, h.participantEvents)
  {
  }

  lemma NextFits(order: seq<Event>, k: nat)
    requires Topological(Elements(order), order) && View(Elements(order)) && DistinctKeys(Elements(order))
    requires k < |order| && View(Elements(order[..k]))
    ensures var e, E := order[k], Elements(order[..k]);
            e !in E && Parents(e) <= E && View(E + {e}) && DistinctKeys(E + {e}) && WellIndexed(e)
  {
    hide View, DistinctKeys, WellIndexed;
    var e, E := order[k], Elements(order[..k]);
    assert e in Elements(order);
    PartOfView(Elements(order), E, e);
    PartDistinct(Elements(order), E + {e});
  }

  lemma PartDistinct(V: set<Event>, E: set<Event>)
    requires DistinctKeys(V) && E <= V
    ensures DistinctKeys(E)
  {
  }

  lemma PartOfView(V: set<Event>, E: set<Event>, e: Event)
    requires View(V) && View(E) && E <= V && e in V && Parents(e) <= E
    ensures View(E + {e}) && WellIndexed(e)
  {
    forall x, p | x in E + {e} && p in Parents(x)
      ensures p in E + {e}
    {
    }
  }

  // ----- Every view is the view of a node

  lemma Latest(V: set<Event>) returns (x: Event)
    requires V != {}
    ensures x in V && forall y :: y in V ==> Lamport(y) <= Lamport(x)
    decreases |V|
  {
    x :| x in V;
    if V != {x} {
      var y := Latest(V - {x});
      if Lamport(x) < Lamport(y) { x := y; }
    }
  }

  /** The events of a view can be listed so that each comes after its parents. */
  lemma {:induction false} Listing(V: set<Event>) returns (order: seq<Event>)
    requires View(V)
    ensures Topological(V, order)
    decreases |V|
  {
    order := [];
    if V != {} {
      var x := Latest(V);
      WithoutLatest(V, x);
      var before := Listing(V - {x});
      TopologicalAppend(V - {x}, before, x);
      assert V - {x} + {x} == V;
      order := before + [x];
    }
  }

  lemma WithoutLatest(V: set<Event>, x: Event)
    requires View(V) && x in V && forall y :: y in V ==> Lamport(y) <= Lamport(x)
    ensures View(V - {x}) && Parents(x) <= V - {x}
  {
    forall y, p | y in V && p in Parents(y)
      ensures p in V - {x}
    {
      ParentBelow(y, p);
      LamportGrows(y);
    }
  }

  /** So a node that accepts the signatures can be brought to hold a late round. */
  lemma LateRoundStorable(ps: PeerSets, peers: set<Peer>, n: Stalemate.Names, k: nat) returns (order: seq<Event>)
    requires Fronts.FourPeers(ps, peers) && Stalemate.Named(peers, n)
    ensures var W := Elements(order);
            && SafeHistory(ps) && Storable(ps, set e | e in order :: e.creator, order)
            && RoundDecided(ps, W, 1) && ReceivedEvents(ps, W, {0, 1}, 1) != {} && !Frozen(ps, Part(ps, W, k + 3), 1)
  {
    hide View, DistinctKeys, SelfCounts, Topological, RoundDecided, ReceivedEvents, Frozen, Part, Stalemate.Named,
         SafeElection;
    forall r: nat
      ensures SafeElection(ps, r)
    {
      Voting.FixedPeersAreSafe(ps, peers, r);
    }
    var W := Stalemate.LateRound(ps, peers, n, k);
    order := Listing(W);
    ListsAll(W, order);
  }

  lemma ListsAll(V: set<Event>, order: seq<Event>)
    requires Topological(V, order)
    ensures Elements(order) == V
  {
  }
}
