/** How three of four peers, and a fifth who joins them, go on without the fourth (Round in
    src/hashgraph/hashgraph.go). */
module Crews {
  import opened Events
  import opened Quorum
  import opened Rounds
  import opened Fronts
  import opened Delays

  /** A fifth peer joins four after round k. */
  ghost predicate Grows(ps: PeerSets, peers: set<Peer>, five: set<Peer>, k: nat) {
    |peers| == 4 && |five| == 5 && peers <= five && forall j: nat :: ps(j) == if j <= k then peers else five
  }

  ghost function Four(peers: set<Peer>): PeerSets {
    (j: nat) => peers
  }

  lemma FourAgrees(ps: PeerSets, peers: set<Peer>, five: set<Peer>, k: nat)
    requires Grows(ps, peers, five, k)
    ensures FourPeers(Four(peers), peers) && AgreeTo(Four(peers), ps, k) && AgreeTo(ps, Four(peers), k)
  {
  }

  /** The round of an event depends on the peer-sets up to the rounds of its parents. */
  lemma NextRoundLocal(p: PeerSets, q: PeerSets, k: nat, x: Event)
    requires AgreeTo(p, q, k) && 0 <= ParentRound(p, x) <= k
    ensures Round(q, x) == Round(p, x) && ParentRound(q, x) == ParentRound(p, x)
  {
    hide Round, StronglySees;
    forall w | w in ProperAncestors(x)
      ensures Round(q, w) == Round(p, w) && (Witness(q, w) <==> Witness(p, w))
    {
      RoundMonotone(p, x, w);
      RoundLocal(p, q, k, w);
    }
    forall y | y in Parents(x)
      ensures Round(q, y) == Round(p, y)
    {
      ParentBelow(x, y);
    }
    ParentsLocal(p, q, x);
    RoundUnfolded(p, x);
    RoundUnfolded(q, x);
    assert StronglySeen(p, x, ParentRound(p, x)) == StronglySeen(q, x, ParentRound(p, x));
  }

  // ----- Three of the four go on by themselves

  /** s and t are on top of f. */
  datatype Trio = Trio(f: Event, s: Event, t: Event)

  ghost predicate IsTrio(ps: PeerSets, peers: set<Peer>, w: Trio, r: nat) {
    && FourPeers(ps, peers)
    && w.f.creator in peers && w.s.creator in peers && w.t.creator in peers
    && w.f.creator != w.s.creator && w.f.creator != w.t.creator && w.s.creator != w.t.creator
    && (forall x :: x in {w.f, w.s, w.t} ==> Round(ps, x) == r && Witness(ps, x))
    && Above(ps, w.f, r) == {w.f} && Above(ps, w.s, r) == {w.s, w.f} && Above(ps, w.t, r) == {w.t, w.f}
  }

  ghost function H1(w: Trio): Event { On(w.s, w.t, 0) }
  ghost function H2(w: Trio): Event { On(w.f, H1(w), 0) }
  ghost function Y1(w: Trio): Event { On(w.t, H2(w), 0) }
  ghost function Y2(w: Trio): Event { On(H1(w), Y1(w), 0) }
  ghost function Y3(w: Trio): Event { On(H2(w), Y1(w), 0) }
  ghost function Y4(w: Trio, e: Peer): Event { First(e, Some(Y1(w)), 4) }

  lemma TrioRises(ps: PeerSets, peers: set<Peer>, w: Trio, r: nat)
    requires IsTrio(ps, peers, w, r)
    ensures Round(ps, H1(w)) == r && Round(ps, H2(w)) == r
    ensures Round(ps, Y1(w)) == r + 1 && ParentRound(ps, Y1(w)) == r
  {
    hide Round, Witness, Above, StronglySees, ParentRound, StronglySeen;
    AboveOn(ps, w.s, w.t, 0, r);
    OnFacts(ps, w.s, w.t, 0);
    NotThrough(ps, peers, H1(w), w.s, r, w.s.creator, w.s.creator);
    Stays(ps, peers, H1(w), r, w.f, w.t);
    AboveOn(ps, w.f, H1(w), 0, r);
    OnFacts(ps, w.f, H1(w), 0);
    NotThrough(ps, peers, H2(w), w.s, r, w.s.creator, w.f.creator);
    Stays(ps, peers, H2(w), r, w.f, w.t);
    AboveOn(ps, w.t, H2(w), 0, r);
    OnFacts(ps, w.t, H2(w), 0);
    ThroughAbove(ps, peers, Y1(w), w.f, r, w.f, w.s, w.t);
    ThroughAbove(ps, peers, Y1(w), w.t, r, w.t, H1(w), H2(w));
    ThroughAbove(ps, peers, Y1(w), w.s, r, w.s, H2(w), Y1(w));
    SeenStrongly(ps, peers, Y1(w), w.f, r);
    SeenStrongly(ps, peers, Y1(w), w.t, r);
    SeenStrongly(ps, peers, Y1(w), w.s, r);
    Rises(ps, peers, Y1(w), r, w.f, w.t, w.s);
  }

  // ----- Four of five

  lemma StaysAmong(ps: PeerSets, x: Event, r: nat, S: set<Event>)
    requires ParentRound(ps, x) == r && |S| < Threshold(ps(r))
    requires forall w :: w in Above(ps, x, r) && w != x && w !in S && Round(ps, w) == r && Witness(ps, w) ==>
               !StronglySees(x, w, ps(r))
    ensures Round(ps, x) == r
  {
    hide Round, Witness, ParentRound, StronglySees;
    RoundUnfolded(ps, x);
    assert StronglySeen(ps, x, r) <= S;
    SubsetSize(StronglySeen(ps, x, r), S);
  }

  /** Seen through at most three peers. */
  lemma ThreeTooFew(ps: PeerSets, five: set<Peer>, x: Event, w: Event, r: nat, P: set<Peer>)
    requires |five| == 5 && |P| <= 3 && Round(ps, w) >= r
    requires forall y :: y in Above(ps, x, r) && w in Above(ps, y, r) ==> y.creator in P
    ensures !StronglySees(x, w, five)
  {
    hide Round;
    forall e | e in Ancestors(x) && w in Ancestors(e)
      ensures e.creator in P
    {
      RoundMonotone(ps, e, w);
    }
    assert Between(x, w) * five <= P;
    SubsetSize(Between(x, w) * five, P);
  }

  /** Seen through four peers. */
  lemma FourEnough(ps: PeerSets, five: set<Peer>, x: Event, w: Event, r: nat, a: Event, b: Event, c: Event, d: Event)
    requires |five| == 5 && {a, b, c, d} <= Above(ps, x, r)
    requires w in Above(ps, a, r) && w in Above(ps, b, r) && w in Above(ps, c, r) && w in Above(ps, d, r)
    requires a.creator in five && b.creator in five && c.creator in five && d.creator in five
    requires |{a.creator, b.creator, c.creator, d.creator}| == 4
    ensures StronglySees(x, w, five)
  {
    hide Round, Above, StronglySees, Ancestors;
    AboveIn(ps, x, r);
    AboveIn(ps, a, r);
    AboveIn(ps, b, r);
    AboveIn(ps, c, r);
    AboveIn(ps, d, r);
    FourBetween(five, x, w, a, b, c, d);
  }

  lemma FourBetween(five: set<Peer>, x: Event, w: Event, a: Event, b: Event, c: Event, d: Event)
    requires |five| == 5 && {a, b, c, d} <= Ancestors(x)
    requires w in Ancestors(a) && w in Ancestors(b) && w in Ancestors(c) && w in Ancestors(d)
    requires {a.creator, b.creator, c.creator, d.creator} <= five
    requires |{a.creator, b.creator, c.creator, d.creator}| == 4
    ensures StronglySees(x, w, five)
  {
    hide Between, Ancestors;
    BetweenHas(x, w, a);
    BetweenHas(x, w, b);
    BetweenHas(x, w, c);
    BetweenHas(x, w, d);
    HasFour(Between(x, w), five, a.creator, b.creator, c.creator, d.creator);
  }

  lemma HasFour(s: set<Peer>, t: set<Peer>, a: Peer, b: Peer, c: Peer, d: Peer)
    requires a in s && b in s && c in s && d in s && {a, b, c, d} <= t && |{a, b, c, d}| == 4
    ensures |s * t| >= 4
  {
    SubsetSize({a, b, c, d}, s * t);
  }

  lemma AboveIn(ps: PeerSets, x: Event, r: nat)
    ensures Above(ps, x, r) <= Ancestors(x)
  {
  }

  lemma FirstOn(ps: PeerSets, creator: Peer, other: Event, seat: nat)
    ensures var e := First(creator, Some(other), seat);
            && ParentRound(ps, e) == Round(ps, other) && (Witness(ps, e) <==> creator in ps(Round(ps, e)))
            && Above(ps, e, Round(ps, other)) == {e} + Above(ps, other, Round(ps, other))
  {
    hide Round;
    var e := First(creator, Some(other), seat);
    assert other in Parents(e);
    RoundMonotone(ps, e, e);
    assert Ancestors(e) == {e} + Ancestors(other);
  }

  /** Witnesses of four of the five peers, the others on top of the first. */
  datatype Crew = Crew(w1: Event, w2: Event, w3: Event, w4: Event)

  ghost function Hands(c: Crew): set<Event> {
    {c.w1, c.w2, c.w3, c.w4}
  }

  ghost predicate IsCrew(ps: PeerSets, five: set<Peer>, c: Crew, r: nat) {
    && |five| == 5 && ps(r) == five && ps(r + 1) == five
    && (forall x :: x in Hands(c) ==> Round(ps, x) == r && Witness(ps, x) && x.creator in five)
    && c.w1.creator != c.w2.creator && c.w1.creator != c.w3.creator && c.w1.creator != c.w4.creator
    && c.w2.creator != c.w3.creator && c.w2.creator != c.w4.creator && c.w3.creator != c.w4.creator
    && Above(ps, c.w1, r) == {c.w1} && Above(ps, c.w2, r) == {c.w2, c.w1}
    && Above(ps, c.w3, r) == {c.w3, c.w1} && Above(ps, c.w4, r) == {c.w4, c.w1}
  }

  ghost function C1(c: Crew): Event { On(c.w1, c.w2, 0) }
  ghost function C2(c: Crew): Event { On(c.w3, C1(c), 0) }
  ghost function C3(c: Crew): Event { On(c.w4, C2(c), 0) }
  ghost function C4(c: Crew): Event { On(c.w2, C3(c), 0) }
  ghost function C5(c: Crew): Event { On(C1(c), C4(c), 0) }
  ghost function C6(c: Crew): Event { On(C2(c), C5(c), 0) }

  lemma CrewLow(ps: PeerSets, five: set<Peer>, c: Crew, r: nat)
    requires IsCrew(ps, five, c, r)
    ensures Round(ps, C1(c)) == r && !Witness(ps, C1(c)) && Above(ps, C1(c), r) == {C1(c), c.w1, c.w2}
    ensures Round(ps, C2(c)) == r && !Witness(ps, C2(c)) && Above(ps, C2(c), r) == {C2(c), c.w3, c.w1, C1(c), c.w2}
  {
    hide Round, Witness, Above, StronglySees, ParentRound;
    AboveOn(ps, c.w1, c.w2, 0, r);
    OnFacts(ps, c.w1, c.w2, 0);
    StaysAmong(ps, C1(c), r, {c.w1, c.w2});
    AboveOn(ps, c.w3, C1(c), 0, r);
    OnFacts(ps, c.w3, C1(c), 0);
    StaysAmong(ps, C2(c), r, {c.w1, c.w2, c.w3});
  }

  lemma CrewThird(ps: PeerSets, five: set<Peer>, c: Crew, r: nat)
    requires IsCrew(ps, five, c, r)
    ensures Round(ps, C3(c)) == r && !Witness(ps, C3(c))
    ensures Above(ps, C3(c), r) == {C3(c), c.w4, c.w1, C2(c), c.w3, C1(c), c.w2}
  {
    hide Round, Witness, Above, StronglySees, ParentRound;
    CrewLow(ps, five, c, r);
    AboveOn(ps, c.w4, C2(c), 0, r);
    OnFacts(ps, c.w4, C2(c), 0);
    ThreeTooFew(ps, five, C3(c), c.w4, r, {c.w4.creator});
    StaysAmong(ps, C3(c), r, {c.w1, c.w2, c.w3});
  }

  lemma CrewFourth(ps: PeerSets, five: set<Peer>, c: Crew, r: nat)
    requires IsCrew(ps, five, c, r)
    ensures Round(ps, C4(c)) == r && !Witness(ps, C4(c))
    ensures Above(ps, C4(c), r) == {C4(c), C3(c), c.w4, c.w1, C2(c), c.w3, C1(c), c.w2}
  {
    hide Round, Witness, Above, StronglySees, ParentRound;
    CrewLow(ps, five, c, r);
    CrewThird(ps, five, c, r);
    AboveOn(ps, c.w2, C3(c), 0, r);
    OnFacts(ps, c.w2, C3(c), 0);
    ThreeTooFew(ps, five, C4(c), c.w4, r, {c.w4.creator, c.w2.creator});
    StaysAmong(ps, C4(c), r, {c.w1, c.w2, c.w3});
  }

  lemma CrewFifth(ps: PeerSets, five: set<Peer>, c: Crew, r: nat)
    requires IsCrew(ps, five, c, r)
    ensures Round(ps, C5(c)) == r && !Witness(ps, C5(c))
    ensures Above(ps, C5(c), r) == {C5(c), C4(c), C3(c), c.w4, c.w1, C2(c), c.w3, C1(c), c.w2}
  {
    hide Round, Witness, Above, StronglySees, ParentRound;
    CrewLow(ps, five, c, r);
    CrewThird(ps, five, c, r);
    CrewFourth(ps, five, c, r);
    AboveOn(ps, C1(c), C4(c), 0, r);
    OnFacts(ps, C1(c), C4(c), 0);
    ThreeTooFew(ps, five, C5(c), c.w4, r, {c.w4.creator, c.w2.creator, c.w1.creator});
    StaysAmong(ps, C5(c), r, {c.w1, c.w2, c.w3});
  }

  /** The four raise the round. */
  lemma CrewRises(ps: PeerSets, five: set<Peer>, c: Crew, r: nat)
    requires IsCrew(ps, five, c, r)
    ensures Round(ps, C6(c)) == r + 1 && Witness(ps, C6(c))
    ensures Hands(c) <= Ancestors(C6(c))
  {
    hide Round, Witness, Above, StronglySees, ParentRound, StronglySeen;
    CrewLow(ps, five, c, r);
    CrewThird(ps, five, c, r);
    CrewFourth(ps, five, c, r);
    CrewFifth(ps, five, c, r);
    AboveOn(ps, C2(c), C5(c), 0, r);
    OnFacts(ps, C2(c), C5(c), 0);
    FourEnough(ps, five, C6(c), c.w1, r, c.w1, c.w2, c.w3, c.w4);
    FourEnough(ps, five, C6(c), c.w2, r, c.w2, C1(c), C2(c), C3(c));
    FourEnough(ps, five, C6(c), c.w3, r, c.w3, C3(c), C4(c), C5(c));
    FourEnough(ps, five, C6(c), c.w4, r, c.w4, C4(c), C5(c), C6(c));
    AboveIn(ps, C6(c), r);
    CrewSeen(ps, five, c, r);
  }

  lemma CrewSeen(ps: PeerSets, five: set<Peer>, c: Crew, r: nat)
    requires IsCrew(ps, five, c, r) && ParentRound(ps, C6(c)) == r && Hands(c) <= Ancestors(C6(c)) - {C6(c)}
    requires forall w :: w in Hands(c) ==> StronglySees(C6(c), w, five)
    ensures Round(ps, C6(c)) == r + 1
  {
    hide Round, Witness, Above, StronglySees, ParentRound;
    RoundUnfolded(ps, C6(c));
    assert Hands(c) <= StronglySeen(ps, C6(c), r);
    assert |Hands(c)| == 4;
    SubsetSize(Hands(c), StronglySeen(ps, C6(c), r));
  }

  /** The three, and the new peer, are such a crew of the next round. */
  lemma CrewOfTrio(ps: PeerSets, peers: set<Peer>, five: set<Peer>, w: Trio, e: Peer, r: nat)
    requires IsTrio(Four(peers), peers, w, r) && Grows(ps, peers, five, r) && e in five && e !in peers
    ensures IsCrew(ps, five, Crew(Y1(w), Y2(w), Y3(w), Y4(w, e)), r + 1)
  {
    hide Round, Witness, Above, StronglySees, ParentRound;
    TrioLocal(ps, peers, five, w, r);
    CrewOther(ps, five, H1(w), Y1(w), r);
    CrewOther(ps, five, H2(w), Y1(w), r);
    CrewNew(ps, five, e, Y1(w), r + 1);
  }

  lemma TrioLocal(ps: PeerSets, peers: set<Peer>, five: set<Peer>, w: Trio, r: nat)
    requires IsTrio(Four(peers), peers, w, r) && Grows(ps, peers, five, r)
    ensures Round(ps, H1(w)) == r && Round(ps, H2(w)) == r
    ensures Round(ps, Y1(w)) == r + 1 && Witness(ps, Y1(w)) && Above(ps, Y1(w), r + 1) == {Y1(w)}
  {
    hide Round, Witness, Above, StronglySees, ParentRound;
    var p := Four(peers);
    FourAgrees(ps, peers, five, r);
    TrioRises(p, peers, w, r);
    RoundLocal(p, ps, r, H1(w));
    RoundLocal(p, ps, r, H2(w));
    RoundLocal(p, ps, r, w.t);
    NextRoundLocal(p, ps, r, Y1(w));
    OnFacts(ps, w.t, H2(w), 0);
    FirstOfRound(ps, Y1(w), r);
  }

  lemma FirstOfRound(ps: PeerSets, x: Event, r: nat)
    requires ParentRound(ps, x) == r && Round(ps, x) == r + 1
    ensures Above(ps, x, r + 1) == {x}
  {
    hide Round, ParentRound;
    forall y | y in Ancestors(x) && y != x
      ensures Round(ps, y) <= r
    {
      RoundMonotone(ps, x, y);
    }
  }

  lemma CrewOther(ps: PeerSets, five: set<Peer>, self: Event, other: Event, r: nat)
    requires |five| == 5 && ps(r + 1) == five && self.creator in five && Round(ps, self) == r
    requires Round(ps, other) == r + 1 && Above(ps, other, r + 1) == {other}
    ensures var y := On(self, other, 0);
            Round(ps, y) == r + 1 && Witness(ps, y) && Above(ps, y, r + 1) == {y, other}
  {
    hide Round, Witness, Above, StronglySees, ParentRound;
    NoneAbove(ps, self, r + 1);
    AboveOn(ps, self, other, 0, r + 1);
    OnFacts(ps, self, other, 0);
    StaysAmong(ps, On(self, other, 0), r + 1, {other});
  }

  lemma CrewNew(ps: PeerSets, five: set<Peer>, e: Peer, other: Event, r: nat)
    requires |five| == 5 && ps(r) == five && e in five && Round(ps, other) == r && Above(ps, other, r) == {other}
    ensures var y := First(e, Some(other), 4);
            Round(ps, y) == r && Witness(ps, y) && Above(ps, y, r) == {y, other}
  {
    hide Round, Witness, Above, StronglySees, ParentRound;
    FirstOn(ps, e, other, 4);
    StaysAmong(ps, First(e, Some(other), 4), r, {other});
  }
}
