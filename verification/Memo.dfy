/** Recomputing a round later, when more witnesses are known (src/hashgraph/hashgraph.go). */
module Memo {
  import opened Events
  import opened Quorum
  import opened Rounds
  import opened Lru
  import Voting

  /** The witnesses that the round computation counts when the events of E are filed. */
  ghost function Recount(ps: PeerSets, E: set<Event>, x: Event): set<Event>
    requires ParentRound(ps, x) >= 0
  {
    set w | w in WitnessesIn(ps, E, ParentRound(ps, x)) && FastSees(ps, x, w, ps(ParentRound(ps, x)))
  }

  /** Told from the parents of x: its creator is the only peer of the parents' round, and has no event of
      that round yet. */
  ghost predicate SelfCounts(ps: PeerSets, x: Event) {
    var r := ParentRound(ps, x);
    && r >= 0 && Threshold(ps(r)) <= 1 && x.creator in ps(r)
    && (x.selfParent.Some? ==> Round(ps, x.selfParent.value) < r)
  }

  /** Exactly then x is a witness of the round it inherits, under a threshold of one: once filed it
      would count itself. */
  lemma SelfCountsExactly(ps: PeerSets, V: set<Event>, x: Event)
    requires View(V) && x in V && ParentRound(ps, x) >= 0
    ensures SelfCounts(ps, x) <==>
              Round(ps, x) == ParentRound(ps, x) && Witness(ps, x) && Threshold(ps(ParentRound(ps, x))) <= 1
  {
    hide Round, ParentRound, StronglySees;
    var r := ParentRound(ps, x);
    RoundUnfolded(ps, x);
    if SelfCounts(ps, x) {
      forall w | w in StronglySeen(ps, x, r)
        ensures false
      {
        SoleWitness(ps, V, x, w);
      }
      assert StronglySeen(ps, x, r) == {};
    }
  }

  /** The only peer of a round has no witness of it below its first event there. */
  lemma SoleWitness(ps: PeerSets, V: set<Event>, x: Event, w: Event)
    requires View(V) && x in V && SelfCounts(ps, x) && w in ProperAncestors(x) && Round(ps, w) == ParentRound(ps, x)
    ensures !Witness(ps, w)
  {
    hide Round, ParentRound;
    var r := ParentRound(ps, x);
    if w.creator in ps(r) {
      SubsetSize({x.creator, w.creator}, ps(r));
      assert w.creator == x.creator;
      ChainIndex(V, x, w);
      RoundMonotone(ps, x.selfParent.value, w);
    }
  }

  lemma RecountSeen(ps: PeerSets, V: set<Event>, E: set<Event>, x: Event)
    requires View(V) && x in V && E <= V && ProperAncestors(x) <= E && ParentRound(ps, x) >= 0
    ensures Recount(ps, E, x) - {x} == StronglySeen(ps, x, ParentRound(ps, x))
  {
    hide Round, Witness, ParentRound, FastSees, StronglySees, ProperAncestors;
    var r := ParentRound(ps, x);
    forall w
      ensures w in Recount(ps, E, x) && w != x <==> w in StronglySeen(ps, x, r)
    {
      RecountMember(ps, V, E, x, w);
    }
  }

  lemma RecountMember(ps: PeerSets, V: set<Event>, E: set<Event>, x: Event, w: Event)
    requires View(V) && x in V && E <= V && ProperAncestors(x) <= E && ParentRound(ps, x) >= 0
    ensures w in Recount(ps, E, x) && w != x <==> w in StronglySeen(ps, x, ParentRound(ps, x))
  {
    hide Round, Witness, ParentRound, FastSees, StronglySees;
    var r := ParentRound(ps, x);
    if w in E && w != x && Round(ps, w) == r && Witness(ps, w) {
      FastSeesExact(ps, V, x, w, ps(r));
      FastSeesSound(ps, x, w, ps(r));
    }
  }

  /** The round recomputed when E is filed is the round of x, except exactly when x is itself
      filed and counts itself. */
  lemma RecountExact(ps: PeerSets, V: set<Event>, E: set<Event>, x: Event)
    requires View(V) && x in V && E <= V && ProperAncestors(x) <= E && ParentRound(ps, x) >= 0
    ensures (Round(ps, x) == ParentRound(ps, x) + 1 <==> |Recount(ps, E, x)| >= Threshold(ps(ParentRound(ps, x))))
       <==> !(x in E && SelfCounts(ps, x))
  {
    hide Round, Witness, ParentRound, Recount, StronglySeen, SelfCounts;
    RecountSeen(ps, V, E, x);
    RoundUnfolded(ps, x);
    var r := ParentRound(ps, x);
    var seen, all := StronglySeen(ps, x, r), Recount(ps, E, x);
    CountsItself(ps, V, E, x);
    if x in all {
      assert all == seen + {x};
      assert |all| > 0;
    } else {
      assert all == seen;
    }
  }

  lemma CountsItself(ps: PeerSets, V: set<Event>, E: set<Event>, x: Event)
    requires View(V) && x in V && E <= V && ParentRound(ps, x) >= 0
    ensures x in Recount(ps, E, x) <==> x in E && SelfCounts(ps, x)
    ensures SelfCounts(ps, x) ==> Round(ps, x) == ParentRound(ps, x) && Threshold(ps(ParentRound(ps, x))) == 1
  {
    hide Round, ParentRound, FastSees;
    var r := ParentRound(ps, x);
    SelfCountsExactly(ps, V, x);
    if Round(ps, x) == r && Witness(ps, x) {
      SelfThreshold(ps, V, x, ps(r));
    }
  }

  /** An event strongly sees itself only under a threshold of one. */
  lemma SelfThreshold(ps: PeerSets, V: set<Event>, x: Event, peers: set<Peer>)
    requires View(V) && x in V && x.creator in peers
    ensures FastSees(ps, x, x, peers) <==> Threshold(peers) <= 1
  {
    hide Witness;
    ReachesItself(ps, V, x);
    assert x in Ancestors(x);
    forall p | p in Linked(ps, x, x)
      ensures p == x.creator
    {
      var e :| e in Ancestors(x) && Reaches(ps, e, x) && e.creator == p;
      LamportGrows(x);
      LamportGrows(e);
    }
    assert Linked(ps, x, x) * peers == {x.creator};
  }

  /** The exception occurs: the first event of the only peer, on top of an event by someone who is no peer.
      Its round is zero when it is inserted, and would be one if computed again after it is filed. */
  lemma RecountFails() returns (ps: PeerSets, V: set<Event>, x: Event)
    ensures View(V) && x in V && ProperAncestors(x) <= V && SelfCounts(ps, x)
    ensures ParentRound(ps, x) == 0 == Round(ps, x) && |Recount(ps, V, x)| >= Threshold(ps(0))
    ensures forall r: nat :: Voting.SafeElection(ps, r)
  {
    var nothing := Payload([], [], [], 0, [], 0);
    var e := Event("0X02", 0, None, None, nothing);
    x := Event("0X01", 0, None, Some(e), nothing);
    ps := (r: nat) => {"0X01"};
    V := {e, x};
    RoundUnfolded(ps, e);
    AncestorsInside(V, x);
    SelfCountsExactly(ps, V, x);
    RecountExact(ps, V, V, x);
  }

  /** With two peers or more in every round nobody counts herself. */
  lemma CrowdIsSafe(ps: PeerSets, x: Event)
    requires forall r: nat :: |ps(r)| >= 2
    ensures !SelfCounts(ps, x)
  {
    hide Round, Witness, ParentRound;
    assert |ps(Round(ps, x))| >= 2;
  }

  /** The witness that a creator has in the round of any of its events. */
  lemma {:induction false} FirstOfRound(ps: PeerSets, V: set<Event>, p: Event) returns (w: Event)
    requires View(V) && p in V && p.creator in ps(Round(ps, p))
    ensures w in Ancestors(p) && w.creator == p.creator && Witness(ps, w) && Round(ps, w) == Round(ps, p)
    decreases p
  {
    w := p;
    if p.selfParent.Some? && Round(ps, p.selfParent.value) >= Round(ps, p) {
      var s := p.selfParent.value;
      assert s in Parents(p);
      ParentBelow(p, s);
      RoundMonotone(ps, p, s);
      w := FirstOfRound(ps, V, s);
    } else {
      assert p in Ancestors(p);
    }
  }

  /** Nor does anybody under a fixed peer-set to which all creators belong. */
  lemma FixedPeersAreSafe(ps: PeerSets, peers: set<Peer>, V: set<Event>, x: Event)
    requires forall r: nat :: ps(r) == peers
    requires View(V) && x in V && forall e :: e in V ==> e.creator in peers
    ensures !SelfCounts(ps, x)
  {
    hide Round, Witness, ParentRound, StronglySees;
    if ParentRound(ps, x) >= 0 && Threshold(peers) <= 1 {
      var p := HighestParent(ps, x);
      ParentBelow(x, p);
      var w := FirstOfRound(ps, V, p);
      SoleSees(x, p, w, peers);
      RoundUnfolded(ps, x);
      assert w in StronglySeen(ps, x, ParentRound(ps, x));
      assert Round(ps, x) == ParentRound(ps, x) + 1;
      SelfCountsExactly(ps, V, x);
    }
  }

  lemma SoleSees(x: Event, p: Event, w: Event, peers: set<Peer>)
    requires p in Ancestors(x) && w in Ancestors(p) && p.creator in peers && Threshold(peers) <= 1
    ensures StronglySees(x, w, peers)
  {
    assert p.creator in Between(x, w) * peers;
    assert |Between(x, w) * peers| > 0;
  }

  // ----- Cached answers

  ghost predicate AncestorMemo(c: Cache<(Event, Event), bool>) {
    forall e :: e in c.entries ==> (e.1 <==> e.0.1 in Ancestors(e.0.0))
  }

  ghost predicate StronglySeeMemo(ps: PeerSets, c: Cache<(Event, Event, set<Peer>), bool>) {
    forall e :: e in c.entries ==> (e.1 <==> FastSees(ps, e.0.0, e.0.1, e.0.2))
  }

  ghost predicate RoundMemo(ps: PeerSets, c: Cache<Event, nat>) {
    forall e :: e in c.entries ==> e.1 == Round(ps, e.0)
  }

  ghost predicate WitnessMemo(ps: PeerSets, c: Cache<Event, bool>) {
    forall e :: e in c.entries ==> (e.1 <==> Witness(ps, e.0))
  }

  ghost predicate TimestampMemo(c: Cache<Event, nat>) {
    forall e :: e in c.entries ==> e.1 == Lamport(e.0)
  }
}
