/** Four peers who never fork can steer an election: what they may do next when the four witnesses of a round stand in
    a certain way (Round and DecideFame in src/hashgraph/hashgraph.go). */
module Fronts {
  import opened Events
  import opened Quorum
  import opened Rounds
  import opened Voting
  import opened Frames

  ghost predicate FourPeers(ps: PeerSets, peers: set<Peer>) {
    |peers| == 4 && forall j: nat :: ps(j) == peers
  }

  // ----- Events. Creators have different seats below five, which serve as first components of their signatures.

  const SEATS: nat := 5

  /** The rank of an event among all events, by index and seat. */
  ghost function Rank(index: int, seat: int): nat {
    if 0 <= index && 0 <= seat then SEATS * index + seat else 0
  }

  /** A digest of its own for every rank, with a given byte in the middle. */
  ghost function DigestOf(rank: nat, coin: bv8): Bytes {
    seq(rank, i => 0) + [coin] + seq(rank, i => 0)
  }

  /** The next event of a creator, on top of its last one and of another; `coin` is the middle byte of its digest. */
  ghost function On(self: Event, other: Event, coin: bv8): Event {
    var seat := self.payload.signatureR;
    Event(self.creator, self.index + 1, Some(self), Some(other),
          Payload([], [], [], 0, DigestOf(Rank(self.index + 1, seat), coin), seat))
  }

  ghost function First(creator: Peer, other: Option<Event>, seat: nat): Event {
    Event(creator, 0, None, other, Payload([], [], [], 0, DigestOf(Rank(0, seat), 0), seat))
  }

  lemma OnBit(self: Event, other: Event, coin: bv8)
    ensures MiddleBit(On(self, other, coin)) <==> coin != 0
  {
    DigestBit(Rank(self.index + 1, self.payload.signatureR), coin);
  }

  lemma DigestBit(rank: nat, coin: bv8)
    ensures |DigestOf(rank, coin)| == 2 * rank + 1 && DigestOf(rank, coin)[rank] == coin
  {
  }

  // ----- Rounds, read off the events of a round or more below an event

  ghost function Above(ps: PeerSets, x: Event, r: nat): set<Event> {
    set y | y in Ancestors(x) && Round(ps, y) >= r
  }

  lemma AboveOn(ps: PeerSets, self: Event, other: Event, coin: bv8, r: nat)
    requires Round(ps, self) >= r || Round(ps, other) >= r
    ensures Above(ps, On(self, other, coin), r) == {On(self, other, coin)} + Above(ps, self, r) + Above(ps, other, r)
  {
    hide Round;
    var e := On(self, other, coin);
    assert self in Parents(e) && other in Parents(e);
    ParentBelow(e, self);
    ParentBelow(e, other);
    RoundMonotone(ps, e, self);
    RoundMonotone(ps, e, other);
    assert Ancestors(e) == {e} + Ancestors(self) + Ancestors(other);
  }

  /** Seen through three peers. */
  lemma Through(peers: set<Peer>, x: Event, w: Event, a: Event, b: Event, c: Event)
    requires a in Ancestors(x) && b in Ancestors(x) && c in Ancestors(x)
    requires w in Ancestors(a) && w in Ancestors(b) && w in Ancestors(c)
    requires |peers| == 4 && a.creator in peers && b.creator in peers && c.creator in peers
    requires a.creator != b.creator && a.creator != c.creator && b.creator != c.creator
    ensures StronglySees(x, w, peers)
  {
    BetweenHas(x, w, a);
    BetweenHas(x, w, b);
    BetweenHas(x, w, c);
    AtLeastThree(Between(x, w) * peers, a.creator, b.creator, c.creator);
  }

  lemma AtLeastThree<T>(s: set<T>, a: T, b: T, c: T)
    requires a in s && b in s && c in s && a != b && a != c && b != c
    ensures |s| >= 3
  {
    SubsetSize({a, b, c}, s);
  }

  lemma BetweenHas(x: Event, w: Event, a: Event)
    requires a in Ancestors(x) && w in Ancestors(a)
    ensures a.creator in Between(x, w)
  {
  }

  /** Seen through at most two peers. */
  lemma NotThrough(ps: PeerSets, peers: set<Peer>, x: Event, w: Event, r: nat, p: Peer, q: Peer)
    requires |peers| == 4 && Round(ps, w) >= r
    requires forall y :: y in Above(ps, x, r) && w in Above(ps, y, r) ==> y.creator == p || y.creator == q
    ensures !StronglySees(x, w, peers)
  {
    hide Round;
    forall e | e in Ancestors(x) && w in Ancestors(e)
      ensures e.creator == p || e.creator == q
    {
      RoundMonotone(ps, e, w);
    }
    assert Between(x, w) * peers <= {p, q};
    SubsetSize(Between(x, w) * peers, {p, q});
  }

  lemma Stays(ps: PeerSets, peers: set<Peer>, x: Event, r: nat, a: Event, b: Event)
    requires FourPeers(ps, peers) && ParentRound(ps, x) == r
    requires forall w :: w in Above(ps, x, r) && w != x && w != a && w != b && Round(ps, w) == r && Witness(ps, w) ==>
               !StronglySees(x, w, peers)
    ensures Round(ps, x) == r
  {
    hide Round, Witness, ParentRound, StronglySees;
    RoundUnfolded(ps, x);
    assert StronglySeen(ps, x, r) <= {a, b};
    SubsetSize(StronglySeen(ps, x, r), {a, b});
  }

  lemma Rises(ps: PeerSets, peers: set<Peer>, x: Event, r: nat, a: Event, b: Event, c: Event)
    requires FourPeers(ps, peers) && ParentRound(ps, x) == r && a != b && a != c && b != c
    requires a in StronglySeen(ps, x, r) && b in StronglySeen(ps, x, r) && c in StronglySeen(ps, x, r)
    ensures Round(ps, x) == r + 1
  {
    hide Round, StronglySeen, ParentRound;
    RoundUnfolded(ps, x);
    AtLeastThree(StronglySeen(ps, x, r), a, b, c);
  }

  lemma ThroughAbove(ps: PeerSets, peers: set<Peer>, x: Event, w: Event, r: nat, a: Event, b: Event, c: Event)
    requires a in Above(ps, x, r) && b in Above(ps, x, r) && c in Above(ps, x, r)
    requires w in Above(ps, a, r) && w in Above(ps, b, r) && w in Above(ps, c, r)
    requires |peers| == 4 && a.creator in peers && b.creator in peers && c.creator in peers
    requires a.creator != b.creator && a.creator != c.creator && b.creator != c.creator
    ensures StronglySees(x, w, peers)
  {
    hide Round, StronglySees;
    Through(peers, x, w, a, b, c);
  }

  /** How the next event of a creator relates to the events it is put on. */
  lemma OnFacts(ps: PeerSets, self: Event, other: Event, coin: bv8)
    ensures var e := On(self, other, coin);
            && ParentRound(ps, e) == (if Round(ps, other) > Round(ps, self) then Round(ps, other) else Round(ps, self))
            && (Witness(ps, e) <==> self.creator in ps(Round(ps, e)) && Round(ps, self) < Round(ps, e))
  {
    hide Round;
  }

  // ----- A front: the four witnesses of a round

  /** s and t are on top of f, and u is on top of t. */
  datatype Front = Front(f: Event, s: Event, t: Event, u: Event)

  ghost predicate Seated(peers: set<Peer>, q: Front) {
    && |peers| == 4
    && q.f.creator in peers && q.s.creator in peers && q.t.creator in peers && q.u.creator in peers
    && q.f.creator != q.s.creator && q.f.creator != q.t.creator && q.f.creator != q.u.creator
    && q.s.creator != q.t.creator && q.s.creator != q.u.creator && q.t.creator != q.u.creator
  }

  ghost predicate IsFront(ps: PeerSets, peers: set<Peer>, q: Front, r: nat) {
    && FourPeers(ps, peers) && Seated(peers, q)
    && (forall x :: x in {q.f, q.s, q.t, q.u} ==> Round(ps, x) == r && Witness(ps, x))
    && Above(ps, q.f, r) == {q.f}
    && Above(ps, q.s, r) == {q.s, q.f}
    && Above(ps, q.t, r) == {q.t, q.f}
    && Above(ps, q.u, r) == {q.u, q.t, q.f}
  }

  // The events from a front to the next one
  ghost function E1(q: Front): Event { On(q.t, q.u, 0) }
  ghost function E2(q: Front): Event { On(q.s, q.t, 0) }
  ghost function E3(q: Front): Event { On(q.f, E2(q), 0) }
  ghost function E4(q: Front): Event { On(E1(q), E3(q), 0) }
  ghost function E5(q: Front): Event { On(q.u, E4(q), 0) }
  ghost function E6(q: Front): Event { On(E3(q), E4(q), 1) }
  ghost function E7(q: Front): Event { On(E2(q), E6(q), 1) }

  ghost function Next(q: Front): Front {
    Front(E4(q), E5(q), E6(q), E7(q))
  }

  lemma Step1(ps: PeerSets, peers: set<Peer>, q: Front, r: nat)
    requires IsFront(ps, peers, q, r)
    ensures Round(ps, E1(q)) == r && !Witness(ps, E1(q)) && Above(ps, E1(q), r) == {E1(q), q.t, q.f, q.u}
  {
    hide Round, Witness, Above, StronglySees, ParentRound;
    AboveOn(ps, q.t, q.u, 0, r);
    OnFacts(ps, q.t, q.u, 0);
    NotThrough(ps, peers, E1(q), q.u, r, q.u.creator, q.t.creator);
    Stays(ps, peers, E1(q), r, q.t, q.f);
  }

  lemma Step2(ps: PeerSets, peers: set<Peer>, q: Front, r: nat)
    requires IsFront(ps, peers, q, r)
    ensures Round(ps, E2(q)) == r && !Witness(ps, E2(q)) && Above(ps, E2(q), r) == {E2(q), q.s, q.f, q.t}
  {
    hide Round, Witness, Above, StronglySees, ParentRound;
    AboveOn(ps, q.s, q.t, 0, r);
    OnFacts(ps, q.s, q.t, 0);
    NotThrough(ps, peers, E2(q), q.s, r, q.s.creator, q.s.creator);
    Stays(ps, peers, E2(q), r, q.t, q.f);
  }

  lemma Step3(ps: PeerSets, peers: set<Peer>, q: Front, r: nat)
    requires IsFront(ps, peers, q, r)
    ensures Round(ps, E3(q)) == r && !Witness(ps, E3(q)) && Above(ps, E3(q), r) == {E3(q), E2(q), q.s, q.f, q.t}
  {
    hide Round, Witness, Above, StronglySees, ParentRound;
    Step2(ps, peers, q, r);
    AboveOn(ps, q.f, E2(q), 0, r);
    OnFacts(ps, q.f, E2(q), 0);
    NotThrough(ps, peers, E3(q), q.s, r, q.s.creator, q.f.creator);
    Stays(ps, peers, E3(q), r, q.t, q.f);
  }

  /** Everything a front leads to, up to the event that raises the round. */
  lemma Step4(ps: PeerSets, peers: set<Peer>, q: Front, r: nat)
    requires IsFront(ps, peers, q, r)
    ensures Round(ps, E4(q)) == r + 1 && Witness(ps, E4(q))
    ensures Above(ps, E4(q), r) == {E4(q), E1(q), E3(q), E2(q), q.s, q.f, q.t, q.u}
    ensures StronglySees(E4(q), q.f, peers) && StronglySees(E4(q), q.s, peers) && StronglySees(E4(q), q.t, peers)
  {
    hide Round, Witness, Above, StronglySees, ParentRound, StronglySeen;
    Step1(ps, peers, q, r);
    Step2(ps, peers, q, r);
    Step3(ps, peers, q, r);
    AboveOn(ps, E1(q), E3(q), 0, r);
    OnFacts(ps, E1(q), E3(q), 0);
    ThroughAbove(ps, peers, E4(q), q.f, r, q.f, q.s, q.t);
    ThroughAbove(ps, peers, E4(q), q.s, r, q.s, E3(q), E4(q));
    ThroughAbove(ps, peers, E4(q), q.t, r, q.t, E2(q), E3(q));
    SeenStrongly(ps, peers, E4(q), q.f, r);
    SeenStrongly(ps, peers, E4(q), q.s, r);
    SeenStrongly(ps, peers, E4(q), q.t, r);
    Rises(ps, peers, E4(q), r, q.f, q.s, q.t);
  }

  lemma SeenStrongly(ps: PeerSets, peers: set<Peer>, x: Event, w: Event, r: nat)
    requires FourPeers(ps, peers) && w in Above(ps, x, r) && w != x && Round(ps, w) == r && Witness(ps, w)
    requires StronglySees(x, w, peers)
    ensures w in StronglySeen(ps, x, r)
  {
    hide Round, Witness, StronglySees;
  }

  lemma AboveHigher(ps: PeerSets, x: Event, r: nat)
    ensures Above(ps, x, r + 1) == set y | y in Above(ps, x, r) && Round(ps, y) >= r + 1
  {
    hide Round;
  }

  /** An event on top of one of round r and of one of the next round that has few witnesses of it below. */
  lemma OnRaised(ps: PeerSets, peers: set<Peer>, self: Event, other: Event, coin: bv8, r: nat, a: Event, b: Event)
    requires FourPeers(ps, peers) && self.creator in peers && Round(ps, self) == r && Round(ps, other) == r + 1
    requires Above(ps, other, r + 1) <= {a, b}
    ensures var e := On(self, other, coin);
            Round(ps, e) == r + 1 && Witness(ps, e) && Above(ps, e, r + 1) == {e} + Above(ps, other, r + 1)
  {
    hide Round, Witness, Above, StronglySees, ParentRound;
    NoneAbove(ps, self, r + 1);
    AboveOn(ps, self, other, coin, r + 1);
    OnFacts(ps, self, other, coin);
    Stays(ps, peers, On(self, other, coin), r + 1, a, b);
  }

  lemma NoneAbove(ps: PeerSets, x: Event, r: nat)
    requires Round(ps, x) < r
    ensures Above(ps, x, r) == {}
  {
    hide Round;
    forall y | y in Ancestors(x)
      ensures Round(ps, y) < r
    {
      RoundMonotone(ps, x, y);
    }
  }

  /** What the events of the next front see of the next round. */
  lemma Step5(ps: PeerSets, peers: set<Peer>, q: Front, r: nat)
    requires IsFront(ps, peers, q, r)
    ensures Round(ps, E5(q)) == r + 1 && Witness(ps, E5(q))
    ensures Above(ps, E4(q), r + 1) == {E4(q)} && Above(ps, E5(q), r + 1) == {E5(q), E4(q)}
    ensures Above(ps, E5(q), r) == {E5(q), E4(q), E1(q), E3(q), E2(q), q.s, q.f, q.t, q.u}
  {
    hide Round, Witness, Above, StronglySees, ParentRound;
    Step1(ps, peers, q, r);
    Step2(ps, peers, q, r);
    Step3(ps, peers, q, r);
    Step4(ps, peers, q, r);
    AboveHigher(ps, E4(q), r);
    AboveHigher(ps, q.u, r);
    AboveOn(ps, q.u, E4(q), 0, r);
    AboveOn(ps, q.u, E4(q), 0, r + 1);
    OnFacts(ps, q.u, E4(q), 0);
    Stays(ps, peers, E5(q), r + 1, E4(q), E4(q));
  }

  lemma Step6(ps: PeerSets, peers: set<Peer>, q: Front, r: nat)
    requires IsFront(ps, peers, q, r)
    ensures Round(ps, E6(q)) == r + 1 && Witness(ps, E6(q))
    ensures Above(ps, E6(q), r + 1) == {E6(q), E4(q)}
    ensures Above(ps, E6(q), r) == {E6(q), E4(q), E1(q), E3(q), E2(q), q.s, q.f, q.t, q.u}
  {
    hide Round, Witness, Above, StronglySees, ParentRound;
    Step2(ps, peers, q, r);
    Step3(ps, peers, q, r);
    Step4(ps, peers, q, r);
    Step5(ps, peers, q, r);
    AboveHigher(ps, E3(q), r);
    AboveOn(ps, E3(q), E4(q), 1, r);
    AboveOn(ps, E3(q), E4(q), 1, r + 1);
    OnFacts(ps, E3(q), E4(q), 1);
    Stays(ps, peers, E6(q), r + 1, E4(q), E4(q));
  }

  lemma Step7(ps: PeerSets, peers: set<Peer>, q: Front, r: nat)
    requires IsFront(ps, peers, q, r)
    ensures Round(ps, E7(q)) == r + 1 && Witness(ps, E7(q))
    ensures Above(ps, E7(q), r + 1) == {E7(q), E6(q), E4(q)}
  {
    hide Round, Witness, Above, StronglySees, ParentRound;
    Step2(ps, peers, q, r);
    Step6(ps, peers, q, r);
    AboveHigher(ps, E2(q), r);
    AboveOn(ps, E2(q), E6(q), 1, r + 1);
    OnFacts(ps, E2(q), E6(q), 1);
    Stays(ps, peers, E7(q), r + 1, E4(q), E6(q));
  }

  /** A front leads to a front of the next round. */
  lemma NextIsFront(ps: PeerSets, peers: set<Peer>, q: Front, r: nat)
    requires IsFront(ps, peers, q, r)
    ensures IsFront(ps, peers, Next(q), r + 1)
  {
    hide Round, Witness, Above;
    Step4(ps, peers, q, r);
    Step5(ps, peers, q, r);
    Step6(ps, peers, q, r);
    Step7(ps, peers, q, r);
  }

  // ----- Votes

  /** The first two of a front vote no on x, and the other two yes. */
  ghost predicate Split(ps: PeerSets, q: Front, x: Event) {
    !Vote(ps, q.f, x) && !Vote(ps, q.s, x) && Vote(ps, q.t, x) && Vote(ps, q.u, x)
  }

  ghost function Members(q: Front): set<Event> {
    {q.f, q.s, q.t, q.u}
  }

  /** A front holds all the witnesses of its round, whatever is learnt later. */
  lemma FrontIsAll(ps: PeerSets, peers: set<Peer>, V: set<Event>, q: Front, r: nat)
    requires IsFront(ps, peers, q, r) && View(V) && Members(q) <= V
    ensures WitnessesIn(ps, V, r) == Members(q)
  {
    hide Round, Witness, Above, View;
    WitnessCount(ps, V, r);
    assert Members(q) <= WitnessesIn(ps, V, r);
    assert |Members(q)| == 4;
    SubsetSize(Members(q), WitnessesIn(ps, V, r));
    SubsetEquality(Members(q), WitnessesIn(ps, V, r));
  }

  /** So no event of the next round counts more than two votes alike. */
  lemma TwoAgainstTwo(ps: PeerSets, peers: set<Peer>, V: set<Event>, q: Front, r: nat, x: Event, y: Event)
    requires IsFront(ps, peers, q, r) && View(V) && Members(q) <= V && Split(ps, q, x)
    requires y in V && Round(ps, y) == r + 1
    ensures Electors(ps, y) <= Members(q)
    ensures Supporters(ps, y, x, true) <= {q.t, q.u} && Supporters(ps, y, x, false) <= {q.f, q.s}
    ensures Tally(ps, y, x) <= 2
  {
    hide Round, Witness, Above, View, Vote, Electors;
    FrontIsAll(ps, peers, V, q, r);
    ElectorsInside(ps, V, y);
    SubsetSize(Supporters(ps, y, x, true), {q.t, q.u});
    SubsetSize(Supporters(ps, y, x, false), {q.f, q.s});
  }

  /** Nor does any of them decide. */
  lemma NoneDecides(ps: PeerSets, peers: set<Peer>, V: set<Event>, q: Front, r: nat, x: Event, y: Event)
    requires IsFront(ps, peers, q, r) && View(V) && Members(q) <= V && Split(ps, q, x)
    requires y in V && Round(ps, y) == r + 1
    ensures !Decides(ps, y, x)
  {
    hide Round, Witness, Above, View, Vote, Tally, Split;
    TwoAgainstTwo(ps, peers, V, q, r, x, y);
  }

  lemma VotesNo(ps: PeerSets, peers: set<Peer>, V: set<Event>, q: Front, r: nat, x: Event, y: Event)
    requires IsFront(ps, peers, q, r) && View(V) && Members(q) <= V && Split(ps, q, x)
    requires y in V && Round(ps, y) == r + 1 && Round(ps, x) < r && !MiddleBit(y)
    requires q.f in Electors(ps, y) && q.s in Electors(ps, y) && q.u !in Electors(ps, y)
    ensures !Vote(ps, y, x)
  {
    hide Round, Witness, Above, View, Vote, Electors;
    TwoAgainstTwo(ps, peers, V, q, r, x, y);
    assert Supporters(ps, y, x, false) == {q.f, q.s};
    SubsetSize(Supporters(ps, y, x, true), {q.t});
    MajorityIs(ps, y, x, false);
    VoteUnfolded(ps, y, x);
  }

  lemma VotesYes(ps: PeerSets, peers: set<Peer>, V: set<Event>, q: Front, r: nat, x: Event, y: Event)
    requires IsFront(ps, peers, q, r) && View(V) && Members(q) <= V && Split(ps, q, x)
    requires y in V && Round(ps, y) == r + 1 && Round(ps, x) < r && MiddleBit(y)
    requires q.t in Electors(ps, y) && q.u in Electors(ps, y)
    ensures Vote(ps, y, x)
  {
    hide Round, Witness, Above, View, Vote, Electors;
    TwoAgainstTwo(ps, peers, V, q, r, x, y);
    assert Supporters(ps, y, x, true) == {q.t, q.u};
    SubsetSize(Supporters(ps, y, x, false), {q.f, q.s});
    VoteUnfolded(ps, y, x);
  }

  // ----- Whose votes the events of the next front count

  lemma CountsFirst(ps: PeerSets, peers: set<Peer>, V: set<Event>, q: Front, r: nat)
    requires IsFront(ps, peers, q, r) && View(V) && Members(q) <= V && E4(q) in V
    ensures q.f in Electors(ps, E4(q)) && q.s in Electors(ps, E4(q)) && q.t in Electors(ps, E4(q))
    ensures q.u !in Electors(ps, E4(q))
  {
    hide Round, Witness, Above, View, StronglySees, FastSees, ParentRound;
    Step1(ps, peers, q, r);
    Step2(ps, peers, q, r);
    Step3(ps, peers, q, r);
    Step4(ps, peers, q, r);
    OnFacts(ps, E1(q), E3(q), 0);
    Counts(ps, peers, V, E4(q), q.f, r);
    Counts(ps, peers, V, E4(q), q.s, r);
    Counts(ps, peers, V, E4(q), q.t, r);
    NotThrough(ps, peers, E4(q), q.u, r, q.u.creator, q.t.creator);
    FastSeesSound(ps, E4(q), q.u, peers);
  }

  /** An event that raises the round counts the witnesses it strongly sees. */
  lemma Counts(ps: PeerSets, peers: set<Peer>, V: set<Event>, y: Event, w: Event, r: nat)
    requires FourPeers(ps, peers) && View(V) && y in V && w in V && w in Above(ps, y, r) && w != y
    requires Witness(ps, w) && Round(ps, w) == r == ParentRound(ps, y) && Round(ps, y) == r + 1
             && StronglySees(y, w, peers)
    ensures w in Electors(ps, y)
  {
    hide Round, Witness, View, StronglySees, FastSees, ParentRound;
    FastSeesExact(ps, V, y, w, peers);
  }

  lemma CountsSecond(ps: PeerSets, peers: set<Peer>, V: set<Event>, q: Front, r: nat)
    requires IsFront(ps, peers, q, r) && View(V) && Members(q) <= V && E4(q) in V && E5(q) in V
    ensures q.f in Electors(ps, E5(q)) && q.s in Electors(ps, E5(q)) && q.u !in Electors(ps, E5(q))
  {
    hide Round, Witness, Above, View, StronglySees, FastSees, ParentRound;
    Step1(ps, peers, q, r);
    Step2(ps, peers, q, r);
    Step3(ps, peers, q, r);
    Step4(ps, peers, q, r);
    Step5(ps, peers, q, r);
    CountsFirst(ps, peers, V, q, r);
    Inherits(ps, E4(q), E5(q), r);
    NotThrough(ps, peers, E5(q), q.u, r, q.u.creator, q.t.creator);
    FastSeesSound(ps, E5(q), q.u, peers);
  }

  lemma Inherits(ps: PeerSets, p: Event, y: Event, r: nat)
    requires p in Above(ps, y, r) && p != y && Round(ps, p) == Round(ps, y)
    ensures Electors(ps, p) <= Electors(ps, y)
  {
    hide Round, Electors;
    ElectorsInherited(ps, p, y);
  }

  /** No event by u's creator is above u in what y sees. */
  lemma Reached(ps: PeerSets, V: set<Event>, y: Event, u: Event, r: nat)
    requires View(V) && y in V && u in Above(ps, y, r) && Round(ps, u) == r
    requires forall b :: b in Above(ps, y, r) && b.creator == u.creator ==> b == u
    ensures Reaches(ps, y, u)
  {
    hide Round, Witness;
    AncestorsInside(V, y);
    forall b | b in Ancestors(y) && b.creator == u.creator
      ensures b.index <= u.index
    {
      if b.index > u.index {
        Chain(V, b, u);
        RoundMonotone(ps, b, u);
      }
    }
  }

  lemma CountsThird(ps: PeerSets, peers: set<Peer>, V: set<Event>, q: Front, r: nat)
    requires IsFront(ps, peers, q, r) && View(V) && Members(q) <= V && E4(q) in V && E6(q) in V
    ensures q.t in Electors(ps, E6(q)) && q.u in Electors(ps, E6(q))
  {
    hide Round, Witness, Above, View, StronglySees, Reaches, ParentRound;
    Step1(ps, peers, q, r);
    Step2(ps, peers, q, r);
    Step3(ps, peers, q, r);
    Step4(ps, peers, q, r);
    Step6(ps, peers, q, r);
    CountsFirst(ps, peers, V, q, r);
    Inherits(ps, E4(q), E6(q), r);
    Reached(ps, V, q.u, q.u, r);
    Reached(ps, V, E4(q), q.u, r);
    Reached(ps, V, E6(q), q.u, r);
    CountedThrough(ps, peers, E6(q), q.u, r, q.u, E4(q), E6(q));
  }

  /** A witness of the round before, recorded below three peers, is counted. */
  lemma CountedThrough(ps: PeerSets, peers: set<Peer>, y: Event, w: Event, r: nat, a: Event, b: Event, c: Event)
    requires FourPeers(ps, peers) && a in Above(ps, y, r) && b in Above(ps, y, r) && c in Above(ps, y, r)
    requires Reaches(ps, a, w) && Reaches(ps, b, w) && Reaches(ps, c, w)
    requires a.creator in peers && b.creator in peers && c.creator in peers
    requires a.creator != b.creator && a.creator != c.creator && b.creator != c.creator
    requires w in Above(ps, y, r) && w != y && Witness(ps, w) && Round(ps, w) == r && Round(ps, y) == r + 1
    ensures w in Electors(ps, y)
  {
    hide Round, Witness, Reaches;
    LinkedHas(ps, y, w, a);
    LinkedHas(ps, y, w, b);
    LinkedHas(ps, y, w, c);
    AtLeastThree(Linked(ps, y, w) * peers, a.creator, b.creator, c.creator);
  }

  lemma LinkedHas(ps: PeerSets, y: Event, w: Event, a: Event)
    requires a in Ancestors(y) && Reaches(ps, a, w)
    ensures a.creator in Linked(ps, y, w)
  {
    hide Reaches;
  }

  /** The votes are split again, in normal rounds and in coin rounds. */
  lemma NextIsSplit(ps: PeerSets, peers: set<Peer>, V: set<Event>, q: Front, r: nat, x: Event)
    requires IsFront(ps, peers, q, r) && View(V) && Members(q) <= V && Members(Next(q)) <= V
    requires Split(ps, q, x) && Round(ps, x) < r
    ensures Split(ps, Next(q), x)
  {
    hide Round, Witness, Above, View, Vote, Electors, IsFront, Split;
    NextRounds(ps, peers, q, r);
    CountsFirst(ps, peers, V, q, r);
    CountsSecond(ps, peers, V, q, r);
    CountsThird(ps, peers, V, q, r);
    Inherits(ps, E6(q), E7(q), r + 1);
    OnBit(E1(q), E3(q), 0);
    VotesNo(ps, peers, V, q, r, x, E4(q));
    OnBit(q.u, E4(q), 0);
    VotesNo(ps, peers, V, q, r, x, E5(q));
    OnBit(E3(q), E4(q), 1);
    VotesYes(ps, peers, V, q, r, x, E6(q));
    OnBit(E2(q), E6(q), 1);
    VotesYes(ps, peers, V, q, r, x, E7(q));
    SplitIs(ps, Next(q), x);
  }

  lemma SplitIs(ps: PeerSets, q: Front, x: Event)
    requires !Vote(ps, q.f, x) && !Vote(ps, q.s, x) && Vote(ps, q.t, x) && Vote(ps, q.u, x)
    ensures Split(ps, q, x)
  {
  }

  lemma NextRounds(ps: PeerSets, peers: set<Peer>, q: Front, r: nat)
    requires IsFront(ps, peers, q, r)
    ensures Round(ps, E4(q)) == Round(ps, E5(q)) == Round(ps, E6(q)) == Round(ps, E7(q)) == r + 1
    ensures E6(q) in Above(ps, E7(q), r + 1)
  {
    hide Round, Witness, Above;
    Step4(ps, peers, q, r);
    Step5(ps, peers, q, r);
    Step6(ps, peers, q, r);
    Step7(ps, peers, q, r);
  }

  // ----- The events of a run form a view

  ghost predicate LastIn(V: set<Event>, x: Event) {
    x in V && forall y :: y in V && y.creator == x.creator ==> y.index <= x.index
  }

  /** Different creators have different seats, and every event has the digest of its rank. */
  ghost predicate Signed(V: set<Event>) {
    && (forall x, y :: x in V && y in V && x.payload.signatureR == y.payload.signatureR ==> x.creator == y.creator)
    && (forall x :: x in V ==> 0 <= x.index && 0 <= x.payload.signatureR < SEATS)
    && (forall x :: x in V ==> |x.payload.hash| == 2 * Rank(x.index, x.payload.signatureR) + 1)
  }

  /** All events are by the four peers, in the first four seats. */
  ghost predicate Native(V: set<Event>, peers: set<Peer>) {
    forall x :: x in V ==> x.creator in peers && x.payload.signatureR < 4
  }

  /** What the peers of a run hold: a view whose events can be told apart by timestamp and signature, and by digest. */
  ghost predicate Held(V: set<Event>) {
    View(V) && Signed(V)
  }

  lemma AddOn(V: set<Event>, self: Event, other: Event, coin: bv8)
    requires Held(V) && LastIn(V, self) && other in V
    ensures Held(V + {On(self, other, coin)}) && LastIn(V + {On(self, other, coin)}, On(self, other, coin))
    ensures forall z :: LastIn(V, z) && z.creator != self.creator ==> LastIn(V + {On(self, other, coin)}, z)
  {
    hide DigestOf, Rank;
    var e := On(self, other, coin);
    DigestBit(Rank(e.index, e.payload.signatureR), coin);
    forall x, p | x in V + {e} && p in Parents(x)
      ensures p in V + {e}
    {
    }
  }

  lemma AddFirst(V: set<Event>, creator: Peer, other: Option<Event>, seat: nat)
    requires Held(V) && (other.Some? ==> other.value in V) && seat < SEATS
    requires forall y :: y in V ==> y.creator != creator && y.payload.signatureR != seat
    ensures var e := First(creator, other, seat);
            Held(V + {e}) && LastIn(V + {e}, e) && forall z :: LastIn(V, z) ==> LastIn(V + {e}, z)
  {
    hide DigestOf, Rank;
    var e := First(creator, other, seat);
    DigestBit(Rank(0, seat), 0);
    forall x, p | x in V + {e} && p in Parents(x)
      ensures p in V + {e}
    {
    }
  }

  /** Different events have different digests. */
  lemma HeldDigests(V: set<Event>)
    requires Held(V)
    ensures forall x, y :: x in V && y in V && x.payload.hash == y.payload.hash ==> x == y
  {
    forall x, y | x in V && y in V && x.payload.hash == y.payload.hash
      ensures x == y
    {
      assert Rank(x.index, x.payload.signatureR) == Rank(y.index, y.payload.signatureR);
      assert SameSlot(x, y);
    }
  }

  lemma HeldKeys(V: set<Event>)
    requires Held(V)
    ensures DistinctKeys(V)
  {
    forall x, y | x in V && y in V && x != y && x.payload.signatureR == y.payload.signatureR
      ensures Lamport(x) != Lamport(y)
    {
      if x.index < y.index {
        Chain(V, y, x);
        LamportGrows(y);
      } else {
        Chain(V, x, y);
        LamportGrows(x);
      }
    }
  }

  ghost predicate Tops(V: set<Event>, q: Front) {
    Held(V) && LastIn(V, q.f) && LastIn(V, q.s) && LastIn(V, q.t) && LastIn(V, q.u)
  }

  ghost function Grown(V: set<Event>, q: Front): set<Event> {
    V + {E1(q)} + {E2(q)} + {E3(q)} + {E4(q)} + {E5(q)} + {E6(q)} + {E7(q)}
  }

  lemma GrownTops(peers: set<Peer>, V: set<Event>, q: Front)
    requires Seated(peers, q) && Tops(V, q)
    ensures Tops(Grown(V, q), Next(q)) && V <= Grown(V, q) && Members(q) <= V && Members(Next(q)) <= Grown(V, q)
  {
    hide Held, LastIn;
    LastMembers(V, q);
    AddOn(V, q.t, q.u, 0);
    var V1 := V + {E1(q)};
    AddOn(V1, q.s, q.t, 0);
    var V2 := V1 + {E2(q)};
    AddOn(V2, q.f, E2(q), 0);
    var V3 := V2 + {E3(q)};
    AddOn(V3, E1(q), E3(q), 0);
    var V4 := V3 + {E4(q)};
    AddOn(V4, q.u, E4(q), 0);
    var V5 := V4 + {E5(q)};
    AddOn(V5, E3(q), E4(q), 1);
    AddOn(V5 + {E6(q)}, E2(q), E6(q), 1);
  }

  lemma LastMembers(V: set<Event>, q: Front)
    requires Tops(V, q)
    ensures Members(q) <= V
  {
  }

  // ----- Another way on: the split is healed

  ghost function G1(q: Front): Event { On(q.f, E1(q), 1) }
  ghost function G2(q: Front): Event { On(q.s, G1(q), 1) }
  ghost function G3(q: Front): Event { On(q.u, G1(q), 1) }
  ghost function G4(q: Front): Event { On(E1(q), G3(q), 1) }

  /** s is left aside until the round has risen. */
  ghost function Turned(q: Front): Front {
    Front(G1(q), G2(q), G3(q), G4(q))
  }

  lemma TurnRises(ps: PeerSets, peers: set<Peer>, q: Front, r: nat)
    requires IsFront(ps, peers, q, r)
    ensures Round(ps, G1(q)) == r + 1 && Witness(ps, G1(q))
    ensures Above(ps, G1(q), r) == {G1(q), q.f, E1(q), q.t, q.u} && Above(ps, G1(q), r + 1) == {G1(q)}
    ensures StronglySees(G1(q), q.t, peers) && StronglySees(G1(q), q.u, peers)
  {
    hide Round, Witness, Above, StronglySees, ParentRound, StronglySeen;
    Step1(ps, peers, q, r);
    AboveOn(ps, q.f, E1(q), 1, r);
    OnFacts(ps, q.f, E1(q), 1);
    ThroughAbove(ps, peers, G1(q), q.f, r, q.f, q.t, q.u);
    ThroughAbove(ps, peers, G1(q), q.t, r, q.t, q.u, G1(q));
    ThroughAbove(ps, peers, G1(q), q.u, r, q.u, E1(q), G1(q));
    SeenStrongly(ps, peers, G1(q), q.f, r);
    SeenStrongly(ps, peers, G1(q), q.t, r);
    SeenStrongly(ps, peers, G1(q), q.u, r);
    Rises(ps, peers, G1(q), r, q.f, q.t, q.u);
    AboveHigher(ps, G1(q), r);
  }

  lemma TurnedIsFront(ps: PeerSets, peers: set<Peer>, q: Front, r: nat)
    requires IsFront(ps, peers, q, r)
    ensures IsFront(ps, peers, Turned(q), r + 1)
  {
    hide Round, Witness, Above;
    TurnRises(ps, peers, q, r);
    TurnOthers(ps, peers, q, r);
  }

  lemma TurnOthers(ps: PeerSets, peers: set<Peer>, q: Front, r: nat)
    requires IsFront(ps, peers, q, r)
    ensures Round(ps, G2(q)) == r + 1 && Witness(ps, G2(q)) && Above(ps, G2(q), r + 1) == {G2(q), G1(q)}
    ensures Round(ps, G3(q)) == r + 1 && Witness(ps, G3(q)) && Above(ps, G3(q), r + 1) == {G3(q), G1(q)}
    ensures Round(ps, G4(q)) == r + 1 && Witness(ps, G4(q)) && Above(ps, G4(q), r + 1) == {G4(q), G3(q), G1(q)}
  {
    hide Round, Witness, Above;
    Step1(ps, peers, q, r);
    TurnRises(ps, peers, q, r);
    OnRaised(ps, peers, q.s, G1(q), 1, r, G1(q), G1(q));
    OnRaised(ps, peers, q.u, G1(q), 1, r, G1(q), G1(q));
    OnRaised(ps, peers, E1(q), G3(q), 1, r, G3(q), G1(q));
  }

  lemma TurnCounts(ps: PeerSets, peers: set<Peer>, V: set<Event>, q: Front, r: nat)
    requires IsFront(ps, peers, q, r) && View(V) && Members(q) <= V && G1(q) in V
    ensures q.t in Electors(ps, G1(q)) && q.u in Electors(ps, G1(q))
  {
    hide Round, Witness, Above, View, StronglySees, FastSees, ParentRound, Electors;
    Step1(ps, peers, q, r);
    TurnRises(ps, peers, q, r);
    OnFacts(ps, q.f, E1(q), 1);
    Counts(ps, peers, V, G1(q), q.t, r);
    Counts(ps, peers, V, G1(q), q.u, r);
  }

  /** After the turn everybody votes yes. */
  lemma TurnedVotesYes(ps: PeerSets, peers: set<Peer>, V: set<Event>, q: Front, r: nat, x: Event, y: Event)
    requires IsFront(ps, peers, q, r) && View(V) && Members(q) <= V && Members(Turned(q)) <= V
    requires Split(ps, q, x) && Round(ps, x) < r && y in Members(Turned(q))
    ensures Vote(ps, y, x)
  {
    hide Round, Witness, Above, View, Vote, Electors, Split;
    TurnedIsFront(ps, peers, q, r);
    TurnCounts(ps, peers, V, q, r);
    if y != G1(q) {
      Inherits(ps, G1(q), y, r + 1);
    }
    OnBit(q.f, E1(q), 1);
    OnBit(q.s, G1(q), 1);
    OnBit(q.u, G1(q), 1);
    OnBit(E1(q), G3(q), 1);
    VotesYes(ps, peers, V, q, r, x, y);
  }

  ghost function TurnedView(V: set<Event>, q: Front): set<Event> {
    V + {E1(q)} + {G1(q)} + {G2(q)} + {G3(q)} + {G4(q)}
  }

  lemma TurnedTops(peers: set<Peer>, V: set<Event>, q: Front)
    requires Seated(peers, q) && Tops(V, q)
    ensures Tops(TurnedView(V, q), Turned(q)) && V <= TurnedView(V, q)
    ensures Members(q) <= V && Members(Turned(q)) <= TurnedView(V, q)
  {
    hide Held, LastIn;
    LastMembers(V, q);
    AddOn(V, q.t, q.u, 0);
    var V1 := V + {E1(q)};
    AddOn(V1, q.f, E1(q), 1);
    var V2 := V1 + {G1(q)};
    AddOn(V2, q.s, G1(q), 1);
    var V3 := V2 + {G2(q)};
    AddOn(V3, q.u, G1(q), 1);
    AddOn(V3 + {G3(q)}, E1(q), G3(q), 1);
  }

  // ----- And another: u is left aside

  ghost function X1(q: Front): Event { On(q.t, E3(q), 0) }
  ghost function X2(q: Front): Event { On(E2(q), X1(q), 0) }
  ghost function X3(q: Front): Event { On(q.u, X1(q), 0) }
  ghost function X4(q: Front): Event { On(E3(q), X3(q), 0) }

  /** Half of the next front sees u. */
  ghost function Parted(q: Front): Front {
    Front(X1(q), X2(q), X3(q), X4(q))
  }

  lemma PartRises(ps: PeerSets, peers: set<Peer>, q: Front, r: nat)
    requires IsFront(ps, peers, q, r)
    ensures Round(ps, X1(q)) == r + 1 && Witness(ps, X1(q))
    ensures Above(ps, X1(q), r) == {X1(q), q.t, q.f, E3(q), E2(q), q.s} && Above(ps, X1(q), r + 1) == {X1(q)}
  {
    hide Round, Witness, Above, StronglySees, ParentRound, StronglySeen;
    Step2(ps, peers, q, r);
    Step3(ps, peers, q, r);
    AboveOn(ps, q.t, E3(q), 0, r);
    OnFacts(ps, q.t, E3(q), 0);
    ThroughAbove(ps, peers, X1(q), q.f, r, q.f, q.s, q.t);
    ThroughAbove(ps, peers, X1(q), q.s, r, q.s, E3(q), X1(q));
    ThroughAbove(ps, peers, X1(q), q.t, r, q.t, E2(q), E3(q));
    SeenStrongly(ps, peers, X1(q), q.f, r);
    SeenStrongly(ps, peers, X1(q), q.s, r);
    SeenStrongly(ps, peers, X1(q), q.t, r);
    Rises(ps, peers, X1(q), r, q.f, q.s, q.t);
    AboveHigher(ps, X1(q), r);
  }

  lemma PartOthers(ps: PeerSets, peers: set<Peer>, q: Front, r: nat)
    requires IsFront(ps, peers, q, r)
    ensures Round(ps, X2(q)) == r + 1 && Witness(ps, X2(q)) && Above(ps, X2(q), r + 1) == {X2(q), X1(q)}
    ensures Round(ps, X3(q)) == r + 1 && Witness(ps, X3(q)) && Above(ps, X3(q), r + 1) == {X3(q), X1(q)}
    ensures Round(ps, X4(q)) == r + 1 && Witness(ps, X4(q)) && Above(ps, X4(q), r + 1) == {X4(q), X3(q), X1(q)}
  {
    hide Round, Witness, Above;
    Step2(ps, peers, q, r);
    Step3(ps, peers, q, r);
    PartRises(ps, peers, q, r);
    OnRaised(ps, peers, E2(q), X1(q), 0, r, X1(q), X1(q));
    OnRaised(ps, peers, q.u, X1(q), 0, r, X1(q), X1(q));
    OnRaised(ps, peers, E3(q), X3(q), 0, r, X3(q), X1(q));
  }

  /** A front leads to a front of the next round in which two see u and two do not. */
  lemma PartedIsFront(ps: PeerSets, peers: set<Peer>, q: Front, r: nat)
    requires IsFront(ps, peers, q, r)
    ensures IsFront(ps, peers, Parted(q), r + 1)
  {
    hide Round, Witness, Above;
    PartRises(ps, peers, q, r);
    PartOthers(ps, peers, q, r);
  }

  lemma PartSees(ps: PeerSets, peers: set<Peer>, q: Front, r: nat)
    requires IsFront(ps, peers, q, r)
    ensures forall y :: y in Members(Parted(q)) ==> {q.f, q.s, q.t} <= Above(ps, y, r)
    ensures q.u !in Above(ps, X1(q), r) && q.u !in Above(ps, X2(q), r)
    ensures q.u in Above(ps, X3(q), r) && q.u in Above(ps, X4(q), r)
  {
    hide Round, Witness, Above;
    Step2(ps, peers, q, r);
    Step3(ps, peers, q, r);
    PartRises(ps, peers, q, r);
    PartOthers(ps, peers, q, r);
    AboveOn(ps, E2(q), X1(q), 0, r);
    AboveOn(ps, q.u, X1(q), 0, r);
    AboveOn(ps, E3(q), X3(q), 0, r);
  }

  lemma FirstVote(ps: PeerSets, y: Event, x: Event)
    requires Round(ps, y) == Round(ps, x) + 1
    ensures Vote(ps, y, x) <==> x in Above(ps, y, Round(ps, x))
  {
    hide Round;
    VoteUnfolded(ps, y, x);
  }

  lemma PartedIsSplit(ps: PeerSets, peers: set<Peer>, q: Front, r: nat)
    requires IsFront(ps, peers, q, r)
    ensures Split(ps, Parted(q), q.u)
  {
    hide Round, Witness, Above, Vote;
    PartRises(ps, peers, q, r);
    PartOthers(ps, peers, q, r);
    PartSees(ps, peers, q, r);
    FirstVote(ps, X1(q), q.u);
    FirstVote(ps, X2(q), q.u);
    FirstVote(ps, X3(q), q.u);
    FirstVote(ps, X4(q), q.u);
  }

  /** On the others everybody votes yes. */
  lemma PartedVotesYes(ps: PeerSets, peers: set<Peer>, q: Front, r: nat, x: Event, y: Event)
    requires IsFront(ps, peers, q, r) && x in {q.f, q.s, q.t} && y in Members(Parted(q))
    ensures Vote(ps, y, x)
  {
    hide Round, Witness, Above, Vote;
    PartedIsFront(ps, peers, q, r);
    PartSees(ps, peers, q, r);
    FirstVote(ps, y, x);
  }

  ghost function PartedView(V: set<Event>, q: Front): set<Event> {
    V + {E2(q)} + {E3(q)} + {X1(q)} + {X2(q)} + {X3(q)} + {X4(q)}
  }

  lemma PartedTops(peers: set<Peer>, V: set<Event>, q: Front)
    requires Seated(peers, q) && Tops(V, q)
    ensures Tops(PartedView(V, q), Parted(q)) && V <= PartedView(V, q)
    ensures Members(q) <= V && Members(Parted(q)) <= PartedView(V, q)
  {
    hide Held, LastIn;
    LastMembers(V, q);
    AddOn(V, q.s, q.t, 0);
    var V1 := V + {E2(q)};
    AddOn(V1, q.f, E2(q), 0);
    var V2 := V1 + {E3(q)};
    AddOn(V2, q.t, E3(q), 0);
    var V3 := V2 + {X1(q)};
    AddOn(V3, E2(q), X1(q), 0);
    var V4 := V3 + {X2(q)};
    AddOn(V4, q.u, X1(q), 0);
    AddOn(V4 + {X3(q)}, E3(q), X3(q), 0);
  }
}
