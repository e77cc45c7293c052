/** Another way in which the four witnesses of a round may stand, and what four peers who never fork can do from there:
    one of them counts votes that the other three do not (Round and DecideFame in src/hashgraph/hashgraph.go). */
module Quads {
  import opened Events
  import opened Quorum
  import opened Rounds
  import opened Voting
  import opened Fronts

  /** b and c are on top of a, and d is apart. */
  datatype Quad = Quad(a: Event, b: Event, c: Event, d: Event)

  ghost function All(z: Quad): set<Event> {
    {z.a, z.b, z.c, z.d}
  }

  ghost predicate Placed(peers: set<Peer>, z: Quad) {
    && |peers| == 4
    && z.a.creator in peers && z.b.creator in peers && z.c.creator in peers && z.d.creator in peers
    && z.a.creator != z.b.creator && z.a.creator != z.c.creator && z.a.creator != z.d.creator
    && z.b.creator != z.c.creator && z.b.creator != z.d.creator && z.c.creator != z.d.creator
  }

  ghost predicate IsQuad(ps: PeerSets, peers: set<Peer>, z: Quad, r: nat) {
    && FourPeers(ps, peers) && Placed(peers, z)
    && (forall x :: x in All(z) ==> Round(ps, x) == r && Witness(ps, x))
    && Above(ps, z.a, r) == {z.a}
    && Above(ps, z.b, r) == {z.b, z.a}
    && Above(ps, z.c, r) == {z.c, z.a}
    && Above(ps, z.d, r) == {z.d}
  }

  lemma QuadFacts(ps: PeerSets, peers: set<Peer>, z: Quad, r: nat)
    requires IsQuad(ps, peers, z, r)
    ensures Placed(peers, z) && FourPeers(ps, peers)
    ensures forall x :: x in All(z) ==> Round(ps, x) == r && Witness(ps, x)
  {
    hide Round, Witness, Above;
  }

  /** A quad holds all the witnesses of its round. */
  lemma QuadIsAll(ps: PeerSets, peers: set<Peer>, V: set<Event>, z: Quad, r: nat)
    requires IsQuad(ps, peers, z, r) && View(V) && All(z) <= V
    ensures WitnessesIn(ps, V, r) == All(z)
  {
    hide Round, Witness, Above, View;
    WitnessCount(ps, V, r);
    assert All(z) <= WitnessesIn(ps, V, r);
    assert |All(z)| == 4;
    SubsetSize(All(z), WitnessesIn(ps, V, r));
    SubsetEquality(All(z), WitnessesIn(ps, V, r));
  }

  // ----- From a quad to the next

  ghost function K1(z: Quad): Event { On(z.a, z.b, 0) }
  ghost function K2(z: Quad): Event { On(K1(z), z.d, 0) }
  ghost function L1(z: Quad): Event { On(z.b, z.c, 0) }
  ghost function M1(z: Quad): Event { On(z.c, K2(z), 0) }
  ghost function N1(z: Quad): Event { On(z.d, L1(z), 0) }
  ghost function N2(z: Quad): Event { On(N1(z), K1(z), 0) }
  ghost function K3(z: Quad): Event { On(K2(z), M1(z), 0) }
  ghost function L2(z: Quad): Event { On(L1(z), M1(z), 0) }

  ghost function After(z: Quad): Quad {
    Quad(M1(z), K3(z), L2(z), N2(z))
  }

  lemma StepK(ps: PeerSets, peers: set<Peer>, z: Quad, r: nat)
    requires IsQuad(ps, peers, z, r)
    ensures Round(ps, K1(z)) == r && Above(ps, K1(z), r) == {K1(z), z.a, z.b}
    ensures Round(ps, K2(z)) == r && Above(ps, K2(z), r) == {K2(z), K1(z), z.a, z.b, z.d}
  {
    hide Round, Witness, Above, StronglySees, ParentRound;
    AboveOn(ps, z.a, z.b, 0, r);
    OnFacts(ps, z.a, z.b, 0);
    Stays(ps, peers, K1(z), r, z.a, z.b);
    AboveOn(ps, K1(z), z.d, 0, r);
    OnFacts(ps, K1(z), z.d, 0);
    NotThrough(ps, peers, K2(z), z.d, r, z.d.creator, z.a.creator);
    Stays(ps, peers, K2(z), r, z.a, z.b);
  }

  lemma StepL(ps: PeerSets, peers: set<Peer>, z: Quad, r: nat)
    requires IsQuad(ps, peers, z, r)
    ensures Round(ps, L1(z)) == r && !Witness(ps, L1(z)) && Above(ps, L1(z), r) == {L1(z), z.b, z.a, z.c}
  {
    hide Round, Witness, Above, StronglySees, ParentRound;
    AboveOn(ps, z.b, z.c, 0, r);
    OnFacts(ps, z.b, z.c, 0);
    NotThrough(ps, peers, L1(z), z.c, r, z.c.creator, z.b.creator);
    Stays(ps, peers, L1(z), r, z.a, z.b);
  }

  /** The first to rise counts all but c. */
  lemma StepM(ps: PeerSets, peers: set<Peer>, z: Quad, r: nat)
    requires IsQuad(ps, peers, z, r)
    ensures Round(ps, M1(z)) == r + 1 && Witness(ps, M1(z)) && ParentRound(ps, M1(z)) == r
    ensures Above(ps, M1(z), r) == {M1(z), z.c, z.a, K2(z), K1(z), z.b, z.d} && Above(ps, M1(z), r + 1) == {M1(z)}
    ensures StronglySees(M1(z), z.a, peers) && StronglySees(M1(z), z.b, peers) && StronglySees(M1(z), z.d, peers)
  {
    hide Round, Witness, Above, StronglySees, ParentRound, StronglySeen;
    StepK(ps, peers, z, r);
    AboveOn(ps, z.c, K2(z), 0, r);
    OnFacts(ps, z.c, K2(z), 0);
    ThroughAbove(ps, peers, M1(z), z.a, r, z.a, z.b, z.c);
    ThroughAbove(ps, peers, M1(z), z.b, r, z.b, K1(z), M1(z));
    ThroughAbove(ps, peers, M1(z), z.d, r, z.d, K2(z), M1(z));
    SeenStrongly(ps, peers, M1(z), z.a, r);
    SeenStrongly(ps, peers, M1(z), z.b, r);
    SeenStrongly(ps, peers, M1(z), z.d, r);
    Rises(ps, peers, M1(z), r, z.a, z.b, z.d);
    AboveHigher(ps, M1(z), r);
  }

  lemma StepN1(ps: PeerSets, peers: set<Peer>, z: Quad, r: nat)
    requires IsQuad(ps, peers, z, r)
    ensures Round(ps, N1(z)) == r && Above(ps, N1(z), r) == {N1(z), z.d, L1(z), z.b, z.a, z.c}
  {
    hide Round, Witness, Above, StronglySees, ParentRound;
    StepL(ps, peers, z, r);
    AboveOn(ps, z.d, L1(z), 0, r);
    OnFacts(ps, z.d, L1(z), 0);
    NotThrough(ps, peers, N1(z), z.b, r, z.b.creator, z.d.creator);
    NotThrough(ps, peers, N1(z), z.d, r, z.d.creator, z.d.creator);
    Stays(ps, peers, N1(z), r, z.a, z.c);
  }

  /** And the other counts all but d. */
  lemma StepN2(ps: PeerSets, peers: set<Peer>, z: Quad, r: nat)
    requires IsQuad(ps, peers, z, r)
    ensures Round(ps, N2(z)) == r + 1 && Witness(ps, N2(z)) && ParentRound(ps, N2(z)) == r
    ensures Above(ps, N2(z), r) == {N2(z), N1(z), z.d, L1(z), z.b, z.a, z.c, K1(z)}
    ensures Above(ps, N2(z), r + 1) == {N2(z)}
    ensures StronglySees(N2(z), z.a, peers) && StronglySees(N2(z), z.b, peers) && StronglySees(N2(z), z.c, peers)
  {
    hide Round, Witness, Above, StronglySees, ParentRound, StronglySeen;
    StepK(ps, peers, z, r);
    StepL(ps, peers, z, r);
    StepN1(ps, peers, z, r);
    AboveOn(ps, N1(z), K1(z), 0, r);
    OnFacts(ps, N1(z), K1(z), 0);
    ThroughAbove(ps, peers, N2(z), z.a, r, z.a, z.b, z.c);
    ThroughAbove(ps, peers, N2(z), z.b, r, z.b, K1(z), N2(z));
    ThroughAbove(ps, peers, N2(z), z.c, r, z.c, L1(z), N2(z));
    SeenStrongly(ps, peers, N2(z), z.a, r);
    SeenStrongly(ps, peers, N2(z), z.b, r);
    SeenStrongly(ps, peers, N2(z), z.c, r);
    Rises(ps, peers, N2(z), r, z.a, z.b, z.c);
    AboveHigher(ps, N2(z), r);
  }

  lemma StepRest(ps: PeerSets, peers: set<Peer>, z: Quad, r: nat)
    requires IsQuad(ps, peers, z, r)
    ensures Round(ps, K3(z)) == r + 1 && Witness(ps, K3(z)) && Above(ps, K3(z), r + 1) == {K3(z), M1(z)}
    ensures Round(ps, L2(z)) == r + 1 && Witness(ps, L2(z)) && Above(ps, L2(z), r + 1) == {L2(z), M1(z)}
    ensures Above(ps, K3(z), r) == {K3(z), M1(z), z.c, z.a, K2(z), K1(z), z.b, z.d}
    ensures Above(ps, L2(z), r) == {L2(z), L1(z), M1(z), z.c, z.a, K2(z), K1(z), z.b, z.d}
  {
    hide Round, Witness, Above;
    StepK(ps, peers, z, r);
    StepL(ps, peers, z, r);
    StepM(ps, peers, z, r);
    OnRaised(ps, peers, K2(z), M1(z), 0, r, M1(z), M1(z));
    OnRaised(ps, peers, L1(z), M1(z), 0, r, M1(z), M1(z));
    AboveOn(ps, K2(z), M1(z), 0, r);
    AboveOn(ps, L1(z), M1(z), 0, r);
  }

  /** A quad leads to a quad of the next round. */
  lemma AfterIsQuad(ps: PeerSets, peers: set<Peer>, z: Quad, r: nat)
    requires IsQuad(ps, peers, z, r)
    ensures IsQuad(ps, peers, After(z), r + 1)
  {
    hide Round, Witness, Above, StronglySees, ParentRound;
    StepM(ps, peers, z, r);
    StepN2(ps, peers, z, r);
    StepRest(ps, peers, z, r);
  }

  // ----- Whose votes are counted

  lemma GroupCounts(ps: PeerSets, peers: set<Peer>, V: set<Event>, z: Quad, r: nat, y: Event)
    requires IsQuad(ps, peers, z, r) && View(V) && All(z) <= V && M1(z) in V && y in V
    requires y in {M1(z), K3(z), L2(z)}
    ensures Electors(ps, y) == {z.a, z.b, z.d} && Round(ps, y) == r + 1
  {
    hide Round, Witness, Above, View, StronglySees, ParentRound, Electors;
    StepK(ps, peers, z, r);
    StepL(ps, peers, z, r);
    StepM(ps, peers, z, r);
    StepRest(ps, peers, z, r);
    MCounts(ps, peers, V, z, r);
    if y != M1(z) {
      Inherits(ps, M1(z), y, r + 1);
    }
    var other := if y == L2(z) then z.b.creator else z.a.creator;
    Missed(ps, peers, V, z, r, y, z.c, other);
  }

  lemma MCounts(ps: PeerSets, peers: set<Peer>, V: set<Event>, z: Quad, r: nat)
    requires IsQuad(ps, peers, z, r) && View(V) && All(z) <= V && M1(z) in V
    ensures {z.a, z.b, z.d} <= Electors(ps, M1(z))
  {
    hide Round, Witness, Above, View, StronglySees, ParentRound, Electors;
    StepM(ps, peers, z, r);
    Counts(ps, peers, V, M1(z), z.a, r);
    Counts(ps, peers, V, M1(z), z.b, r);
    Counts(ps, peers, V, M1(z), z.d, r);
  }

  /** A witness seen only through its own and another creator is not counted. */
  lemma Missed(ps: PeerSets, peers: set<Peer>, V: set<Event>, z: Quad, r: nat, y: Event, w: Event, other: Peer)
    requires IsQuad(ps, peers, z, r) && View(V) && All(z) <= V && y in V && w in All(z) && Round(ps, y) == r + 1
    requires forall e :: e in Above(ps, y, r) && w in Above(ps, e, r) ==> e.creator == w.creator || e.creator == other
    ensures Electors(ps, y) <= All(z) - {w}
  {
    hide Round, Witness, Above, View, StronglySees, FastSees;
    QuadFacts(ps, peers, z, r);
    QuadIsAll(ps, peers, V, z, r);
    ElectorsInside(ps, V, y);
    NotThrough(ps, peers, y, w, r, w.creator, other);
    FastSeesSound(ps, y, w, peers);
  }

  lemma LoneCounts(ps: PeerSets, peers: set<Peer>, V: set<Event>, z: Quad, r: nat)
    requires IsQuad(ps, peers, z, r) && View(V) && All(z) <= V && N2(z) in V
    ensures Electors(ps, N2(z)) == {z.a, z.b, z.c} && Round(ps, N2(z)) == r + 1
  {
    hide Round, Witness, Above, View, StronglySees, ParentRound, Electors;
    StepK(ps, peers, z, r);
    StepL(ps, peers, z, r);
    StepN1(ps, peers, z, r);
    StepN2(ps, peers, z, r);
    Counts(ps, peers, V, N2(z), z.a, r);
    Counts(ps, peers, V, N2(z), z.b, r);
    Counts(ps, peers, V, N2(z), z.c, r);
    Missed(ps, peers, V, z, r, N2(z), z.d, z.d.creator);
  }

  // ----- Votes

  lemma TwoOfThree(ps: PeerSets, y: Event, x: Event, e1: Event, e2: Event, e3: Event, v: bool)
    requires Electors(ps, y) == {e1, e2, e3} && e1 != e2 && e1 != e3 && e2 != e3
    requires Vote(ps, e1, x) == v && Vote(ps, e2, x) == v && Vote(ps, e3, x) != v
    ensures Majority(ps, y, x) == v && Tally(ps, y, x) == 2
  {
    hide Round, Vote, Electors;
    assert Supporters(ps, y, x, v) == {e1, e2};
    assert Supporters(ps, y, x, !v) == {e3};
    MajorityIs(ps, y, x, v);
  }

  lemma ThreeOfThree(ps: PeerSets, y: Event, x: Event, e1: Event, e2: Event, e3: Event)
    requires Electors(ps, y) == {e1, e2, e3} && e1 != e2 && e1 != e3 && e2 != e3
    requires Vote(ps, e1, x) && Vote(ps, e2, x) && Vote(ps, e3, x)
    ensures Majority(ps, y, x) && Tally(ps, y, x) == 3
  {
    hide Round, Vote, Electors;
    assert Supporters(ps, y, x, true) == {e1, e2, e3};
    assert Supporters(ps, y, x, false) == {};
    MajorityIs(ps, y, x, true);
  }

  lemma NormalVote(ps: PeerSets, y: Event, x: Event)
    requires Round(ps, y) >= Round(ps, x) + 2 && !CoinRound(Round(ps, y) - Round(ps, x))
    ensures Vote(ps, y, x) == Majority(ps, y, x)
  {
    hide Round, Majority, Tally;
    VoteUnfolded(ps, y, x);
  }

  /** b and d vote yes: then so do the next three, and the fourth votes no. Nobody decides. */
  lemma VotesPart(ps: PeerSets, peers: set<Peer>, V: set<Event>, z: Quad, r: nat, x: Event, y: Event)
    requires IsQuad(ps, peers, z, r) && View(V) && All(z) <= V && All(After(z)) <= V && y in All(After(z))
    requires !Vote(ps, z.a, x) && Vote(ps, z.b, x) && !Vote(ps, z.c, x) && Vote(ps, z.d, x)
    requires Round(ps, x) < r && !CoinRound(r + 1 - Round(ps, x))
    ensures Vote(ps, y, x) == (y != N2(z)) && !Decides(ps, y, x)
  {
    hide Round, Witness, Above, View, Vote, Majority, Tally, Electors, CoinRound;
    QuadFacts(ps, peers, z, r);
    AfterNames(z);
    if y == N2(z) {
      LoneCounts(ps, peers, V, z, r);
      TwoOfThree(ps, y, x, z.a, z.c, z.b, false);
    } else {
      GroupCounts(ps, peers, V, z, r, y);
      TwoOfThree(ps, y, x, z.b, z.d, z.a, true);
    }
    NormalVote(ps, y, x);
  }

  lemma AfterNames(z: Quad)
    ensures All(After(z)) == {M1(z), K3(z), L2(z), N2(z)}
  {
  }

  /** All but d vote yes: then so do the next four, and only the fourth decides. */
  lemma VotesMeet(ps: PeerSets, peers: set<Peer>, V: set<Event>, z: Quad, r: nat, x: Event, y: Event)
    requires IsQuad(ps, peers, z, r) && View(V) && All(z) <= V && M1(z) in V && y in V && y in All(After(z))
    requires Vote(ps, z.a, x) && Vote(ps, z.b, x) && Vote(ps, z.c, x) && !Vote(ps, z.d, x)
    requires Round(ps, x) < r && !CoinRound(r + 1 - Round(ps, x))
    ensures Vote(ps, y, x) && Majority(ps, y, x) && (Decides(ps, y, x) <==> y == N2(z))
  {
    hide Round, Witness, Above, View, Vote, Majority, Tally, Electors, CoinRound;
    QuadFacts(ps, peers, z, r);
    AfterNames(z);
    if y == N2(z) {
      LoneCounts(ps, peers, V, z, r);
      ThreeOfThree(ps, y, x, z.a, z.b, z.c);
    } else {
      GroupCounts(ps, peers, V, z, r, y);
      NotLone(peers, z, y);
      TwoOfThree(ps, y, x, z.a, z.b, z.d, true);
    }
    NormalVote(ps, y, x);
  }

  lemma NotLone(peers: set<Peer>, z: Quad, y: Event)
    requires Placed(peers, z) && y in {M1(z), K3(z), L2(z)}
    ensures y != N2(z)
  {
  }

  // ----- A quad after a front: b and d see u, and a and c do not

  ghost function J1(q: Front): Event { On(E3(q), q.u, 0) }
  ghost function J2(q: Front): Event { On(J1(q), X1(q), 0) }
  ghost function J3(q: Front): Event { On(q.u, E3(q), 0) }

  ghost function Opening(q: Front): Quad {
    Quad(X1(q), J2(q), X2(q), J3(q))
  }

  lemma OpenJ1(ps: PeerSets, peers: set<Peer>, q: Front, r: nat)
    requires IsFront(ps, peers, q, r)
    ensures Round(ps, J1(q)) == r && Above(ps, J1(q), r) == {J1(q), E3(q), E2(q), q.s, q.f, q.t, q.u}
  {
    hide Round, Witness, Above, StronglySees, ParentRound;
    Step2(ps, peers, q, r);
    Step3(ps, peers, q, r);
    AboveOn(ps, E3(q), q.u, 0, r);
    OnFacts(ps, E3(q), q.u, 0);
    NotThrough(ps, peers, J1(q), q.s, r, q.s.creator, q.f.creator);
    NotThrough(ps, peers, J1(q), q.u, r, q.u.creator, q.f.creator);
    Stays(ps, peers, J1(q), r, q.t, q.f);
  }

  lemma OpenJ3(ps: PeerSets, peers: set<Peer>, q: Front, r: nat)
    requires IsFront(ps, peers, q, r)
    ensures Round(ps, J3(q)) == r + 1 && Witness(ps, J3(q)) && Above(ps, J3(q), r + 1) == {J3(q)}
    ensures Above(ps, J3(q), r) == {J3(q), q.u, q.t, q.f, E3(q), E2(q), q.s}
  {
    hide Round, Witness, Above, StronglySees, ParentRound, StronglySeen;
    Step2(ps, peers, q, r);
    Step3(ps, peers, q, r);
    AboveOn(ps, q.u, E3(q), 0, r);
    OnFacts(ps, q.u, E3(q), 0);
    ThroughAbove(ps, peers, J3(q), q.f, r, q.f, q.s, q.t);
    ThroughAbove(ps, peers, J3(q), q.t, r, q.t, E2(q), E3(q));
    ThroughAbove(ps, peers, J3(q), q.s, r, q.s, E3(q), J3(q));
    SeenStrongly(ps, peers, J3(q), q.f, r);
    SeenStrongly(ps, peers, J3(q), q.t, r);
    SeenStrongly(ps, peers, J3(q), q.s, r);
    Rises(ps, peers, J3(q), r, q.f, q.t, q.s);
    AboveHigher(ps, J3(q), r);
  }

  lemma OpenRest(ps: PeerSets, peers: set<Peer>, q: Front, r: nat)
    requires IsFront(ps, peers, q, r)
    ensures Round(ps, J2(q)) == r + 1 && Witness(ps, J2(q)) && Above(ps, J2(q), r + 1) == {J2(q), X1(q)}
    ensures {q.f, q.s, q.t, q.u} <= Above(ps, J2(q), r)
  {
    hide Round, Witness, Above;
    OpenJ1(ps, peers, q, r);
    PartRises(ps, peers, q, r);
    OnRaised(ps, peers, J1(q), X1(q), 0, r, X1(q), X1(q));
    AboveOn(ps, J1(q), X1(q), 0, r);
  }

  lemma OpeningIsQuad(ps: PeerSets, peers: set<Peer>, q: Front, r: nat)
    requires IsFront(ps, peers, q, r)
    ensures IsQuad(ps, peers, Opening(q), r + 1)
  {
    hide Round, Witness, Above;
    PartRises(ps, peers, q, r);
    PartOthers(ps, peers, q, r);
    OpenRest(ps, peers, q, r);
    OpenJ3(ps, peers, q, r);
  }

  lemma OpeningVotes(ps: PeerSets, peers: set<Peer>, q: Front, r: nat)
    requires IsFront(ps, peers, q, r)
    ensures var z := Opening(q);
            !Vote(ps, z.a, q.u) && Vote(ps, z.b, q.u) && !Vote(ps, z.c, q.u) && Vote(ps, z.d, q.u)
    ensures forall y, x :: y in All(Opening(q)) && x in {q.f, q.s, q.t} ==> Vote(ps, y, x)
  {
    hide Round, Witness, Above, Vote;
    OpeningIsQuad(ps, peers, q, r);
    PartSees(ps, peers, q, r);
    OpenRest(ps, peers, q, r);
    OpenJ3(ps, peers, q, r);
    forall y, x | y in All(Opening(q)) && x in Members(q)
      ensures Vote(ps, y, x) <==> x in Above(ps, y, r)
    {
      FirstVote(ps, y, x);
    }
  }

  // ----- The events of these steps form a view

  ghost predicate OnTop(V: set<Event>, z: Quad) {
    Held(V) && LastIn(V, z.a) && LastIn(V, z.b) && LastIn(V, z.c) && LastIn(V, z.d)
  }

  ghost function OpeningView(V: set<Event>, q: Front): set<Event> {
    V + {E2(q)} + {E3(q)} + {X1(q)} + {X2(q)} + {J1(q)} + {J2(q)} + {J3(q)}
  }

  lemma OpeningOnTop(peers: set<Peer>, V: set<Event>, q: Front)
    requires Seated(peers, q) && Tops(V, q)
    ensures OnTop(OpeningView(V, q), Opening(q)) && V <= OpeningView(V, q) && Members(q) <= V
    ensures All(Opening(q)) <= OpeningView(V, q)
  {
    hide Held, LastIn;
    LastMembers(V, q);
    AddOn(V, q.s, q.t, 0);
    var V1 := V + {E2(q)};
    AddOn(V1, q.f, E2(q), 0);
    var V2 := V1 + {E3(q)};
    AddOn(V2, q.t, E3(q), 0);
    var V3 := V2 + {X1(q)};
    AddOn(V3, E2(q), X1(q), 0);
    var V4 := V3 + {X2(q)};
    AddOn(V4, E3(q), q.u, 0);
    var V5 := V4 + {J1(q)};
    AddOn(V5, J1(q), X1(q), 0);
    AddOn(V5 + {J2(q)}, q.u, E3(q), 0);
  }

  lemma LastAll(V: set<Event>, z: Quad)
    requires OnTop(V, z)
    ensures All(z) <= V
  {
  }

  /** Without the events of d's creator. */
  ghost function GroupView(V: set<Event>, z: Quad): set<Event> {
    V + {K1(z)} + {K2(z)} + {L1(z)} + {M1(z)} + {K3(z)} + {L2(z)}
  }

  ghost function AfterView(V: set<Event>, z: Quad): set<Event> {
    GroupView(V, z) + {N1(z)} + {N2(z)}
  }

  lemma GroupOnTop(peers: set<Peer>, V: set<Event>, z: Quad)
    requires Placed(peers, z) && OnTop(V, z)
    ensures var W := GroupView(V, z);
            Held(W) && LastIn(W, M1(z)) && LastIn(W, K3(z)) && LastIn(W, L2(z)) && LastIn(W, z.d)
    ensures V <= GroupView(V, z) && All(z) <= V && {L1(z), K1(z)} <= GroupView(V, z)
  {
    hide Held, LastIn;
    LastAll(V, z);
    AddOn(V, z.a, z.b, 0);
    var V1 := V + {K1(z)};
    AddOn(V1, K1(z), z.d, 0);
    var V2 := V1 + {K2(z)};
    AddOn(V2, z.b, z.c, 0);
    var V3 := V2 + {L1(z)};
    AddOn(V3, z.c, K2(z), 0);
    var V4 := V3 + {M1(z)};
    AddOn(V4, K2(z), M1(z), 0);
    AddOn(V4 + {K3(z)}, L1(z), M1(z), 0);
  }

  lemma AfterOnTop(peers: set<Peer>, V: set<Event>, z: Quad)
    requires Placed(peers, z) && OnTop(V, z)
    ensures OnTop(AfterView(V, z), After(z)) && GroupView(V, z) <= AfterView(V, z)
    ensures V <= AfterView(V, z) && All(z) <= V && All(After(z)) <= AfterView(V, z)
  {
    hide Held, LastIn, GroupView;
    GroupOnTop(peers, V, z);
    var W := GroupView(V, z);
    AddOn(W, z.d, L1(z), 0);
    AddOn(W + {N1(z)}, N1(z), K1(z), 0);
    LastAll(AfterView(V, z), After(z));
  }
}
