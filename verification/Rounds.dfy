/** Rounds, witnesses and strongly-seeing (src/hashgraph/hashgraph.go). */
module Rounds {
  import opened Events
  import opened Quorum

  /** The peer-set in force at each round. */
  type PeerSets = nat -> set<Peer>

  function Threshold(peers: set<Peer>): nat {
    SuperMajority(|peers|)
  }

  // ----- Strongly-seeing, as the documentation defines it

  /** The creators of the events that lie between w and x. */
  ghost function Between(x: Event, w: Event): set<Peer> {
    set e | e in Ancestors(x) && w in Ancestors(e) :: e.creator
  }

  /** x strongly sees w: a super-majority of peers have an event between w and x. */
  ghost predicate StronglySees(x: Event, w: Event, peers: set<Peer>) {
    |Between(x, w) * peers| >= Threshold(peers)
  }

  // ----- Rounds and witnesses

  /** The round of x, by recursion on the DAG. The definitions below name its parts
      and RoundUnfolded restates it with them. */
  ghost function RoundRec(ps: PeerSets, x: Event): nat
    decreases Lamport(x), 1
  {
    var s := if x.selfParent.Some? then RoundRec(ps, x.selfParent.value) else -1;
    var o := if x.otherParent.Some? then RoundRec(ps, x.otherParent.value) else -1;
    var r := if o > s then o else s;
    if r == -1 then 0
    else if |StronglySeenRec(ps, x, r)| >= Threshold(ps(r)) then r + 1
    else r
  }

  ghost function StronglySeenRec(ps: PeerSets, x: Event, r: nat): set<Event>
    decreases Lamport(x), 0
  {
    LamportGrows(x);
    set w | w in ProperAncestors(x) && RoundRec(ps, w) == r && w.creator in ps(r) &&
            (w.selfParent.Some? ==> RoundRec(ps, w.selfParent.value) < r) && StronglySees(x, w, ps(r))
  }

  ghost function Round(ps: PeerSets, x: Event): nat {
    RoundRec(ps, x)
  }

  /** The greatest round among the parents; -1 when there is none. */
  ghost function ParentRound(ps: PeerSets, x: Event): int {
    var s := if x.selfParent.Some? then Round(ps, x.selfParent.value) else -1;
    var o := if x.otherParent.Some? then Round(ps, x.otherParent.value) else -1;
    if o > s then o else s
  }

  /** x is its creator's first event of the round, and the creator belongs to the round's peer-set. */
  ghost predicate Witness(ps: PeerSets, x: Event) {
    && x.creator in ps(Round(ps, x))
    && (x.selfParent.Some? ==> Round(ps, x.selfParent.value) < Round(ps, x))
  }

  /** The witnesses of round r that x strongly sees. */
  ghost function StronglySeen(ps: PeerSets, x: Event, r: nat): set<Event> {
    set w | w in ProperAncestors(x) && Round(ps, w) == r && Witness(ps, w) && StronglySees(x, w, ps(r))
  }

  /** An event takes the greatest round of its parents, or the next one when it strongly
      sees a super-majority of that round's witnesses. */
  lemma {:induction false} RoundUnfolded(ps: PeerSets, x: Event)
    ensures ParentRound(ps, x) >= -1
    ensures Round(ps, x) ==
            if ParentRound(ps, x) < 0 then 0
            else if |StronglySeen(ps, x, ParentRound(ps, x))| >= Threshold(ps(ParentRound(ps, x)))
            then ParentRound(ps, x) + 1
            else ParentRound(ps, x)
  {
    var r := ParentRound(ps, x);
    if r >= 0 {
      assert StronglySeen(ps, x, r) == StronglySeenRec(ps, x, r);
    }
  }

  ghost function WitnessesIn(ps: PeerSets, V: set<Event>, r: nat): set<Event> {
    set w | w in V && Round(ps, w) == r && Witness(ps, w)
  }

  /** The parent of greatest round. */
  lemma {:induction false} HighestParent(ps: PeerSets, x: Event) returns (p: Event)
    requires ParentRound(ps, x) >= 0
    ensures p in Parents(x) && Round(ps, p) == ParentRound(ps, x)
  {
    if x.otherParent.Some? && Round(ps, x.otherParent.value) == ParentRound(ps, x) {
      p := x.otherParent.value;
    } else {
      p := x.selfParent.value;
    }
  }

  /** Rounds never decrease along parent links, and rise by at most one. */
  lemma {:induction false} RoundMonotone(ps: PeerSets, x: Event, y: Event)
    requires y in Ancestors(x)
    ensures Round(ps, y) <= Round(ps, x)
    ensures ParentRound(ps, x) <= Round(ps, x) <= ParentRound(ps, x) + 1
    ensures y != x ==> Round(ps, y) <= ParentRound(ps, x)
    decreases Lamport(x)
  {
    RoundUnfolded(ps, x);
    if y != x {
      LamportGrows(x);
      var p := ThroughParent(x, y);
      RoundMonotone(ps, p, y);
    }
  }

  // ----- The part of a view up to a round

  /** All events of U are of rounds up to k. */
  ghost predicate UpTo(ps: PeerSets, U: set<Event>, k: nat) {
    forall x :: x in U ==> Round(ps, x) <= k
  }

  ghost function Part(ps: PeerSets, V: set<Event>, k: nat): set<Event> {
    set x | x in V && Round(ps, x) <= k
  }

  lemma PartView(ps: PeerSets, V: set<Event>, k: nat)
    requires View(V)
    ensures View(Part(ps, V, k)) && Part(ps, V, k) <= V && UpTo(ps, Part(ps, V, k), k)
    ensures forall j: nat :: j <= k ==> Part(ps, V, j) <= Part(ps, V, k)
  {
    hide Round;
    forall x, y | x in Part(ps, V, k) && y in Parents(x)
      ensures y in Part(ps, V, k)
    {
      ParentBelow(x, y);
      RoundMonotone(ps, x, y);
    }
  }

  /** Each creator has at most one witness per round. */
  lemma {:induction false} OneWitnessPerRound(ps: PeerSets, V: set<Event>, w: Event, w': Event)
    requires View(V) && w in V && w' in V
    requires Witness(ps, w) && Witness(ps, w')
    requires w.creator == w'.creator && Round(ps, w) == Round(ps, w')
    ensures w == w'
  {
    if w.index < w'.index {
      LaterWitness(ps, V, w', w);
    } else if w'.index < w.index {
      LaterWitness(ps, V, w, w');
    }
  }

  lemma {:induction false} LaterWitness(ps: PeerSets, V: set<Event>, w: Event, y: Event)
    requires View(V) && w in V && y in V && Witness(ps, w)
    requires w.creator == y.creator && y.index < w.index
    ensures Round(ps, y) < Round(ps, w)
  {
    Chain(V, w, y);
    ChainIndex(V, w, y);
    RoundMonotone(ps, w.selfParent.value, y);
  }

  lemma {:induction false} WitnessCount(ps: PeerSets, V: set<Event>, r: nat)
    requires View(V)
    ensures |WitnessesIn(ps, V, r)| <= |ps(r)|
  {
    var ws := WitnessesIn(ps, V, r);
    forall a, b | a in ws && b in ws && a.creator == b.creator
      ensures a == b
    {
      OneWitnessPerRound(ps, V, a, b);
    }
    InjectiveSize(ws, (e: Event) => e.creator, ps(r));
  }

  // ----- Strongly-seeing, as the coordinates record it

  /** e sees w and no later witness by w's creator: what makes e a recorded descendant of w. */
  ghost predicate Reaches(ps: PeerSets, e: Event, w: Event) {
    && w in Ancestors(e)
    && forall b :: b in Ancestors(e) && b.creator == w.creator && b.index > w.index ==> !Witness(ps, b)
  }

  ghost function Linked(ps: PeerSets, x: Event, w: Event): set<Peer> {
    set e | e in Ancestors(x) && Reaches(ps, e, w) :: e.creator
  }

  /** The test made on coordinates: a super-majority of peers have a recorded
      descendant of w below x. */
  ghost predicate FastSees(ps: PeerSets, x: Event, w: Event, peers: set<Peer>) {
    |Linked(ps, x, w) * peers| >= Threshold(peers)
  }

  /** More than two thirds of the peers are needed, whichever way one looks. */
  lemma SeesExactly(ps: PeerSets, x: Event, w: Event, peers: set<Peer>)
    ensures StronglySees(x, w, peers) <==> 3 * |Between(x, w) * peers| > 2 * |peers|
    ensures FastSees(ps, x, w, peers) <==> 3 * |Linked(ps, x, w) * peers| > 2 * |peers|
  {
  }

  /** What strongly-seeing is for: of what lies below two events that strongly see something, more than a third of the
      peers made both parts. */
  lemma SeesOverlap(x: Event, w: Event, y: Event, w': Event, peers: set<Peer>)
    requires StronglySees(x, w, peers) && StronglySees(y, w', peers)
    ensures 3 * |Between(x, w) * Between(y, w') * peers| > |peers|
  {
    var a, b := Between(x, w) * peers, Between(y, w') * peers;
    Overlap(a, b, peers);
    assert a * b == Between(x, w) * Between(y, w') * peers;
  }

  /** A round begins where more than two thirds of the peers of the last one have a witness that is strongly seen. */
  lemma RoundRises(ps: PeerSets, x: Event)
    requires ParentRound(ps, x) >= 0
    ensures Round(ps, x) == ParentRound(ps, x) + 1 <==>
              3 * |StronglySeen(ps, x, ParentRound(ps, x))| > 2 * |ps(ParentRound(ps, x))|
    ensures Round(ps, x) == ParentRound(ps, x) || Round(ps, x) == ParentRound(ps, x) + 1
  {
    hide Round, ParentRound, StronglySeen;
    RoundUnfolded(ps, x);
  }

  /** The coordinate test never over-counts. */
  lemma {:induction false} FastSeesSound(ps: PeerSets, x: Event, w: Event, peers: set<Peer>)
    ensures Linked(ps, x, w) <= Between(x, w)
    ensures FastSees(ps, x, w, peers) ==> StronglySees(x, w, peers) && w in Ancestors(x)
  {
    SubsetSize(Linked(ps, x, w) * peers, Between(x, w) * peers);
    if FastSees(ps, x, w, peers) {
      var p :| p in Linked(ps, x, w) * peers;
      var e :| e in Ancestors(x) && Reaches(ps, e, w) && e.creator == p;
      AncestorsTransitive(x, e);
    }
  }

  /** Seeing strongly is inherited by descendants, by definition and on coordinates. */
  lemma {:induction false} SeesInherited(ps: PeerSets, x: Event, y: Event, w: Event, peers: set<Peer>)
    requires x in Ancestors(y)
    ensures StronglySees(x, w, peers) ==> StronglySees(y, w, peers)
    ensures FastSees(ps, x, w, peers) ==> FastSees(ps, y, w, peers)
  {
    AncestorsTransitive(y, x);
    SubsetSize(Between(x, w) * peers, Between(y, w) * peers);
    SubsetSize(Linked(ps, x, w) * peers, Linked(ps, y, w) * peers);
  }

  /** Where rounds are computed the coordinate test is exact: for a witness w of
      x's parent round, recording only up to the next witness loses nobody. */
  lemma {:induction false} FastSeesExact(ps: PeerSets, V: set<Event>, x: Event, w: Event, peers: set<Peer>)
    requires View(V) && x in V && w in V
    requires w != x && Witness(ps, w) && Round(ps, w) == ParentRound(ps, x)
    ensures FastSees(ps, x, w, peers) <==> StronglySees(x, w, peers)
  {
    LinkedIsBetween(ps, V, x, w);
  }

  lemma {:induction false} LinkedIsBetween(ps: PeerSets, V: set<Event>, x: Event, w: Event)
    requires View(V) && x in V && w in V
    requires w != x && Witness(ps, w) && Round(ps, w) == ParentRound(ps, x)
    ensures Linked(ps, x, w) == Between(x, w)
  {
    FastSeesSound(ps, x, w, {});
    forall e | e in Ancestors(x) && w in Ancestors(e)
      ensures e.creator in Linked(ps, x, w)
    {
      BetweenIsLinked(ps, V, x, e, w);
    }
    assert Between(x, w) <= Linked(ps, x, w);
  }

  lemma {:induction false} BetweenIsLinked(ps: PeerSets, V: set<Event>, x: Event, e: Event, w: Event)
    requires View(V) && x in V && w in V && e in Ancestors(x) && w in Ancestors(e)
    requires w != x && Witness(ps, w) && Round(ps, w) == ParentRound(ps, x)
    ensures e.creator in Linked(ps, x, w)
  {
    AncestorsTransitive(x, e);
    if e == x && x.creator == w.creator {
      ReachesItself(ps, V, w);
    } else {
      AncestorsInside(V, x);
      LamportGrows(x);
      LamportGrows(e);
      forall b | b in Ancestors(e) && b.creator == w.creator && b.index > w.index
        ensures !Witness(ps, b)
      {
        RoundMonotone(ps, x, b);
        if Witness(ps, b) { LaterWitness(ps, V, b, w); }
      }
      assert Reaches(ps, e, w);
    }
  }

  lemma {:induction false} ReachesItself(ps: PeerSets, V: set<Event>, w: Event)
    requires View(V) && w in V
    ensures Reaches(ps, w, w)
  {
    AncestorsInside(V, w);
    forall b | b in Ancestors(w) && b.creator == w.creator
      ensures b.index <= w.index
    {
      ChainIndex(V, w, b);
    }
  }

  /** The witnesses of the round before y's that y strongly sees on coordinates:
      those whose votes y counts. */
  ghost function Electors(ps: PeerSets, y: Event): set<Event> {
    set w | w in ProperAncestors(y) && Round(ps, w) + 1 == Round(ps, y) && Witness(ps, w) &&
            FastSees(ps, y, w, ps(Round(ps, w)))
  }

  /** Every event of round j > 0 strongly sees, on coordinates too, a super-majority
      of witnesses of round j-1, whether it raised the round or inherited it. */
  lemma {:induction false} ElectorsAreQuorum(ps: PeerSets, V: set<Event>, y: Event)
    requires View(V) && y in V && Round(ps, y) > 0
    ensures |Electors(ps, y)| >= Threshold(ps(Round(ps, y) - 1))
    ensures Electors(ps, y) <= WitnessesIn(ps, V, Round(ps, y) - 1)
    decreases Lamport(y)
  {
    ElectorsInside(ps, V, y);
    RoundMonotone(ps, y, y);
    if Round(ps, y) == ParentRound(ps, y) {
      var p := HighestParent(ps, y);
      ParentBelow(y, p);
      AncestorsInside(V, y);
      ElectorsAreQuorum(ps, V, p);
      ElectorsInherited(ps, p, y);
    } else {
      ElectorsOfRise(ps, V, y);
    }
  }

  lemma {:induction false} ElectorsInside(ps: PeerSets, V: set<Event>, y: Event)
    requires View(V) && y in V && Round(ps, y) > 0
    ensures Electors(ps, y) <= WitnessesIn(ps, V, Round(ps, y) - 1)
  {
    AncestorsInside(V, y);
  }

  lemma {:induction false} ElectorsInherited(ps: PeerSets, p: Event, y: Event)
    requires p in ProperAncestors(y) && Round(ps, p) == Round(ps, y)
    ensures Electors(ps, p) <= Electors(ps, y)
    ensures |Electors(ps, p)| <= |Electors(ps, y)|
  {
    AncestorsTransitive(y, p);
    forall w | w in Electors(ps, p)
      ensures w in Electors(ps, y)
    {
      SeesInherited(ps, p, y, w, ps(Round(ps, w)));
    }
    SubsetSize(Electors(ps, p), Electors(ps, y));
  }

  lemma {:induction false} ElectorsOfRise(ps: PeerSets, V: set<Event>, y: Event)
    requires View(V) && y in V && ParentRound(ps, y) >= 0 && Round(ps, y) == ParentRound(ps, y) + 1
    ensures |Electors(ps, y)| >= Threshold(ps(Round(ps, y) - 1))
  {
    var r := ParentRound(ps, y);
    RoundUnfolded(ps, y);
    AncestorsInside(V, y);
    forall w | w in StronglySeen(ps, y, r)
      ensures w in Electors(ps, y)
    {
      FastSeesExact(ps, V, y, w, ps(r));
    }
    SubsetSize(StronglySeen(ps, y, r), Electors(ps, y));
  }
}
