/** What a fifth peer can do to an election of four that is not over: two nodes decide a round differently
    (DecideFame in src/hashgraph/hashgraph.go, processAcceptedInternalTransactions in src/node/core.go). */
module Joins {
  import opened Events
  import opened Quorum
  import opened Rounds
  import opened Voting
  import opened Fronts
  import opened Delays
  import opened Crews
  import opened Quads
  import opened Frames

  // ----- The events of these steps form a view

  ghost function Extended(V: set<Event>, w: Trio, e: Peer): set<Event> {
    var c := Crew(Y1(w), Y2(w), Y3(w), Y4(w, e));
    V + {H1(w)} + {H2(w)} + {Y1(w)} + {Y2(w)} + {Y3(w)} + {Y4(w, e)} +
    {C1(c)} + {C2(c)} + {C3(c)} + {C4(c)} + {C5(c)} + {C6(c)}
  }

  /** d is an event of another creator. */
  lemma ExtendedHeld(peers: set<Peer>, V: set<Event>, w: Trio, e: Peer, d: Event)
    requires Held(V) && Native(V, peers) && e !in peers
    requires LastIn(V, w.f) && LastIn(V, w.s) && LastIn(V, w.t) && LastIn(V, d)
    requires w.f.creator != w.s.creator && w.f.creator != w.t.creator && w.s.creator != w.t.creator
    requires d.creator != w.f.creator && d.creator != w.s.creator && d.creator != w.t.creator
    ensures Held(Extended(V, w, e)) && LastIn(Extended(V, w, e), d) && V <= Extended(V, w, e)
    ensures var c := Crew(Y1(w), Y2(w), Y3(w), Y4(w, e));
            Hands(c) <= Extended(V, w, e) && C6(c) in Extended(V, w, e)
  {
    hide Held, LastIn, Native;
    LastIsIn(V, w.f);
    LastIsIn(V, w.s);
    LastIsIn(V, w.t);
    LastIsIn(V, d);
    RisenHeld(peers, V, w, d);
    var U := V + {H1(w)} + {H2(w)} + {Y1(w)} + {Y2(w)} + {Y3(w)};
    NativeNew(peers, U, e);
    AddFirst(U, e, Some(Y1(w)), 4);
    assert LastIn(U + {Y4(w, e)}, d) && e != d.creator by { NativeIn(peers, V, d); }
    CrewHeld(peers, U + {Y4(w, e)}, Crew(Y1(w), Y2(w), Y3(w), Y4(w, e)), d);
  }

  lemma LastIsIn(V: set<Event>, x: Event)
    requires LastIn(V, x)
    ensures x in V
  {
  }

  lemma NativeIn(peers: set<Peer>, V: set<Event>, x: Event)
    requires Native(V, peers) && x in V
    ensures x.creator in peers
  {
  }

  lemma NativeNew(peers: set<Peer>, V: set<Event>, e: Peer)
    requires Native(V, peers) && e !in peers
    ensures forall y :: y in V ==> y.creator != e && y.payload.signatureR != 4
  {
  }

  lemma RisenHeld(peers: set<Peer>, V: set<Event>, w: Trio, d: Event)
    requires Held(V) && Native(V, peers) && LastIn(V, w.f) && LastIn(V, w.s) && LastIn(V, w.t) && LastIn(V, d)
    requires w.f in V && w.s in V && w.t in V
    requires w.f.creator != w.s.creator && w.f.creator != w.t.creator && w.s.creator != w.t.creator
    requires d.creator != w.f.creator && d.creator != w.s.creator && d.creator != w.t.creator
    ensures var U := V + {H1(w)} + {H2(w)} + {Y1(w)} + {Y2(w)} + {Y3(w)};
            && Held(U) && Native(U, peers) && LastIn(U, Y1(w)) && LastIn(U, Y2(w)) && LastIn(U, Y3(w)) && LastIn(U, d)
  {
    hide Held, LastIn;
    AddOn(V, w.s, w.t, 0);
    var V1 := V + {H1(w)};
    AddOn(V1, w.f, H1(w), 0);
    var V2 := V1 + {H2(w)};
    AddOn(V2, w.t, H2(w), 0);
    var V3 := V2 + {Y1(w)};
    AddOn(V3, H1(w), Y1(w), 0);
    AddOn(V3 + {Y2(w)}, H2(w), Y1(w), 0);
  }

  lemma CrewHeld(peers: set<Peer>, V: set<Event>, c: Crew, d: Event)
    requires Held(V) && LastIn(V, c.w1) && LastIn(V, c.w2) && LastIn(V, c.w3) && LastIn(V, c.w4) && LastIn(V, d)
    requires c.w1.creator != c.w2.creator && c.w1.creator != c.w3.creator && c.w1.creator != c.w4.creator
    requires c.w2.creator != c.w3.creator && c.w2.creator != c.w4.creator && c.w3.creator != c.w4.creator
    requires d.creator != c.w1.creator && d.creator != c.w2.creator && d.creator != c.w3.creator
    requires d.creator != c.w4.creator
    ensures var U := V + {C1(c)} + {C2(c)} + {C3(c)} + {C4(c)} + {C5(c)} + {C6(c)};
            Held(U) && LastIn(U, d)
  {
    hide Held, LastIn;
    LastIsIn(V, c.w2);
    AddOn(V, c.w1, c.w2, 0);
    var V1 := V + {C1(c)};
    AddOn(V1, c.w3, C1(c), 0);
    var V2 := V1 + {C2(c)};
    AddOn(V2, c.w4, C2(c), 0);
    var V3 := V2 + {C3(c)};
    AddOn(V3, c.w2, C3(c), 0);
    var V4 := V3 + {C4(c)};
    AddOn(V4, C1(c), C4(c), 0);
    AddOn(V4 + {C5(c)}, C2(c), C5(c), 0);
  }

  /** What an event knows. */
  lemma PastView(V: set<Event>, x: Event)
    requires View(V) && x in V
    ensures View(Ancestors(x)) && Ancestors(x) <= V
  {
    AncestorsInside(V, x);
    forall y, p | y in Ancestors(x) && p in Parents(y)
      ensures p in Ancestors(x)
    {
      ParentBelow(y, p);
      AncestorsTransitive(x, y);
    }
  }

  ghost predicate IsPast(B: set<Event>, x: Event) {
    B == Ancestors(x)
  }

  // ----- Which witnesses there are

  ghost function Creators(S: set<Event>): set<Peer> {
    set x | x in S :: x.creator
  }

  /** If the peers of round r are the creators of S, and one whose last event is of an earlier round, then S holds all
      the witnesses of the round. */
  lemma OnlyThese(ps: PeerSets, W: set<Event>, r: nat, S: set<Event>, d: Event, y: Event)
    requires View(W) && S <= WitnessesIn(ps, W, r) && ps(r) == Creators(S) + {d.creator}
    requires LastIn(W, d) && Round(ps, d) < r && y in WitnessesIn(ps, W, r)
    ensures y in S
  {
    hide Round, View;
    if y.creator == d.creator {
      NotLater(ps, W, d, y);
    } else {
      var x :| x in S && x.creator == y.creator;
      OneWitnessPerRound(ps, W, x, y);
    }
  }

  lemma NotLater(ps: PeerSets, W: set<Event>, d: Event, y: Event)
    requires View(W) && LastIn(W, d) && y in W && y.creator == d.creator
    ensures Round(ps, y) <= Round(ps, d)
  {
    hide Round;
    if y.index < d.index {
      Chain(W, d, y);
      RoundMonotone(ps, d, y);
    } else {
      assert SameSlot(y, d);
    }
  }

  // ----- How a coin round turns a unanimous vote

  /** T are the witnesses of round r + 3, at most three, and all vote yes on x without deciding. H are those of the next
      round, and their coins say no. d is the last event of the only other peer. */
  ghost predicate Overturning(ps: PeerSets, W: set<Event>, x: Event, r: nat, T: set<Event>, H: set<Event>, d: Event) {
    && View(W) && LastIn(W, d) && Round(ps, d) < r + 3
    && T <= WitnessesIn(ps, W, r + 3) && |T| <= 3 && ps(r + 3) == Creators(T) + {d.creator}
    && H <= WitnessesIn(ps, W, r + 4) && ps(r + 4) == Creators(H) + {d.creator}
    && (forall y :: y in T ==> Vote(ps, y, x) && !Decides(ps, y, x))
    && (forall y :: y in H ==> !MiddleBit(y))
  }

  lemma CoinVotesNo(ps: PeerSets, W: set<Event>, x: Event, r: nat, T: set<Event>, H: set<Event>, d: Event, y: Event)
    requires Overturning(ps, W, x, r, T, H, d) && Round(ps, x) == r && |ps(r + 4)| == 5
    requires y in WitnessesIn(ps, W, r + 4)
    ensures !Vote(ps, y, x)
  {
    hide Round, Witness, View, LastIn, Vote, Electors, Decides, MiddleBit, Creators;
    forall w | w in WitnessesIn(ps, W, r + 3)
      ensures w in T
    {
      OnlyThese(ps, W, r + 3, T, d, w);
    }
    ElectorsInside(ps, W, y);
    SubsetSize(Electors(ps, y), T);
    OnlyThese(ps, W, r + 4, H, d, y);
    CoinOverturns(ps, W, x, y, true);
  }

  /** Then a witness of round r + 5 decides no, and nothing decides yes. */
  lemma CoinCloses(ps: PeerSets, W: set<Event>, B: set<Event>, x: Event, r: nat, T: set<Event>, H: set<Event>, d: Event,
                   late: Event)
    requires Overturning(ps, W, x, r, T, H, d) && Round(ps, x) == r && |ps(r + 4)| == 5 && |ps(r + 5)| == 5
    requires View(B) && B <= W && UpTo(ps, B, r + 5) && late in B && Witness(ps, late) && Round(ps, late) == r + 5
    requires forall y :: y in WitnessesIn(ps, B, r + 2) ==> !Decides(ps, y, x)
    ensures FameDecided(ps, B, x, false) && !FameDecided(ps, B, x, true)
  {
    hide Round, Witness, View, Vote, Majority, Tally, Electors, LastIn, MiddleBit, Creators;
    forall y | y in WitnessesIn(ps, B, r + 4)
      ensures !Vote(ps, y, x)
    {
      CoinVotesNo(ps, W, x, r, T, H, d, y);
    }
    UnanimousCount(ps, B, x, late, false);
    forall y | y in B && Witness(ps, y) && Decides(ps, y, x)
      ensures !Majority(ps, y, x)
    {
      if Round(ps, y) == r + 5 {
        UnanimousCount(ps, B, x, y, false);
      } else if Round(ps, y) == r + 3 {
        OnlyThese(ps, W, r + 3, T, d, y);
      }
    }
  }

  lemma WitnessesLocal(p: PeerSets, q: PeerSets, k: nat, B: set<Event>, i: nat)
    requires AgreeTo(p, q, k) && AgreeTo(q, p, k) && i <= k
    ensures WitnessesIn(p, B, i) == WitnessesIn(q, B, i)
  {
    hide Round, Witness;
    forall y | y in B
      ensures y in WitnessesIn(p, B, i) <==> y in WitnessesIn(q, B, i)
    {
      if Round(p, y) == i { RoundLocal(p, q, k, y); }
      if Round(q, y) == i { RoundLocal(q, p, k, y); }
    }
  }

  // ----- The run

  ghost function Second(q: Front): Quad { After(Opening(q)) }
  ghost function Three(q: Front): Trio { Trio(M1(Second(q)), K3(Second(q)), L2(Second(q))) }
  ghost function Hired(q: Front, e: Peer): Crew {
    Crew(Y1(Three(q)), Y2(Three(q)), Y3(Three(q)), Y4(Three(q), e))
  }

  /** The events that close the election of u: one decides three rounds later, the other five. */
  ghost function Early(q: Front): Event { N2(Second(q)) }
  ghost function Late(q: Front, e: Peer): Event { C6(Hired(q, e)) }

  ghost function Known(V: set<Event>, q: Front): set<Event> {
    AfterView(OpeningView(V, q), Opening(q))
  }

  lemma RunFacts(p: PeerSets, peers: set<Peer>, q: Front, r: nat)
    requires IsFront(p, peers, q, r)
    ensures IsQuad(p, peers, Opening(q), r + 1) && IsQuad(p, peers, Second(q), r + 2)
    ensures IsQuad(p, peers, After(Second(q)), r + 3) && IsTrio(p, peers, Three(q), r + 3)
  {
    hide IsFront, IsQuad, Opening, After;
    OpeningIsQuad(p, peers, q, r);
    AfterIsQuad(p, peers, Opening(q), r + 1);
    AfterIsQuad(p, peers, Second(q), r + 2);
    TrioOfQuad(p, peers, Second(q), r + 3);
  }

  lemma TrioOfQuad(p: PeerSets, peers: set<Peer>, z: Quad, r: nat)
    requires IsQuad(p, peers, After(z), r)
    ensures IsTrio(p, peers, Trio(M1(z), K3(z), L2(z)), r)
  {
    hide Round, Witness, Above, M1, K3, L2, N2;
  }

  lemma RunViews(p: PeerSets, peers: set<Peer>, V: set<Event>, q: Front, r: nat, e: Peer)
    requires IsFront(p, peers, q, r) && Tops(V, q) && Native(V, peers) && e !in peers
    ensures var W := Extended(GroupView(Known(V, q), Second(q)), Three(q), e);
            && Held(W) && Late(q, e) in W && LastIn(W, Second(q).d) && Hands(Hired(q, e)) <= W
            && {Three(q).f, Three(q).s, Three(q).t} <= W
    ensures Held(Extended(AfterView(Known(V, q), Second(q)), Three(q), e))
    ensures Extended(GroupView(Known(V, q), Second(q)), Three(q), e) <=
            Extended(AfterView(Known(V, q), Second(q)), Three(q), e)
    ensures Early(q) in Extended(AfterView(Known(V, q), Second(q)), Three(q), e)
  {
    hide IsFront, IsQuad, IsTrio, Opening, OpeningView, After, AfterView, GroupView, Extended, Held, LastIn, Tops,
         OnTop, Native;
    FrontSeats(p, peers, q, r);
    OpeningOnTop(peers, V, q);
    RunFacts(p, peers, q, r);
    QuadFacts(p, peers, Opening(q), r + 1);
    QuadFacts(p, peers, Second(q), r + 2);
    QuadFacts(p, peers, After(Second(q)), r + 3);
    AfterOnTop(peers, OpeningView(V, q), Opening(q));
    RunNative(peers, V, q);
    RunTail(peers, Known(V, q), Second(q), e);
  }

  lemma FrontSeats(p: PeerSets, peers: set<Peer>, q: Front, r: nat)
    requires IsFront(p, peers, q, r)
    ensures Seated(peers, q)
  {
    hide Round, Witness, Above;
  }

  lemma RunNative(peers: set<Peer>, V: set<Event>, q: Front)
    requires Native(V, peers) && Members(q) <= V
    ensures Native(Known(V, q), peers)
  {
    OpeningNative(peers, V, q);
    AfterNative(peers, OpeningView(V, q), Opening(q));
  }

  lemma OpeningNative(peers: set<Peer>, V: set<Event>, q: Front)
    requires Native(V, peers) && Members(q) <= V
    ensures Native(OpeningView(V, q), peers) && All(Opening(q)) <= OpeningView(V, q)
  {
  }

  lemma AfterNative(peers: set<Peer>, V: set<Event>, z: Quad)
    requires Native(V, peers) && All(z) <= V
    ensures Native(GroupView(V, z), peers) && Native(AfterView(V, z), peers)
  {
  }

  lemma RunTail(peers: set<Peer>, V: set<Event>, z: Quad, e: Peer)
    requires OnTop(V, z) && Native(V, peers) && Placed(peers, z) && Placed(peers, After(z)) && e !in peers
    ensures var w := Trio(M1(z), K3(z), L2(z)); var c := Crew(Y1(w), Y2(w), Y3(w), Y4(w, e));
            var W := Extended(GroupView(V, z), w, e);
            && Held(W) && C6(c) in W && LastIn(W, z.d) && Hands(c) <= W && {w.f, w.s, w.t} <= W
            && Held(Extended(AfterView(V, z), w, e)) && W <= Extended(AfterView(V, z), w, e)
            && N2(z) in Extended(AfterView(V, z), w, e)
  {
    hide Held, LastIn, Native, OnTop, GroupView, AfterView, Extended, M1, K3, L2, N2;
    GroupOnTop(peers, V, z);
    AfterOnTop(peers, V, z);
    LastAll(V, z);
    AfterNative(peers, V, z);
    LastsOf(AfterView(V, z), After(z));
    var w := Trio(M1(z), K3(z), L2(z));
    LoneSeat(peers, z);
    ExtendedHeld(peers, GroupView(V, z), w, e, z.d);
    ExtendedHeld(peers, AfterView(V, z), w, e, N2(z));
    LastIsIn(GroupView(V, z), w.f);
    LastIsIn(GroupView(V, z), w.s);
    LastIsIn(GroupView(V, z), w.t);
    LastIsIn(AfterView(V, z), N2(z));
    ExtendedMore(GroupView(V, z), AfterView(V, z), w, e);
  }

  lemma LastsOf(V: set<Event>, z: Quad)
    requires OnTop(V, z)
    ensures Held(V) && LastIn(V, z.a) && LastIn(V, z.b) && LastIn(V, z.c) && LastIn(V, z.d)
  {
  }

  lemma LoneSeat(peers: set<Peer>, z: Quad)
    requires Placed(peers, z) && Placed(peers, After(z))
    ensures N2(z).creator == z.d.creator
    ensures M1(z).creator != z.d.creator && K3(z).creator != z.d.creator && L2(z).creator != z.d.creator
    ensures M1(z).creator != K3(z).creator && M1(z).creator != L2(z).creator && K3(z).creator != L2(z).creator
  {
  }

  lemma ExtendedMore(V: set<Event>, V': set<Event>, w: Trio, e: Peer)
    requires V <= V'
    ensures Extended(V, w, e) <= Extended(V', w, e)
  {
  }

  // ----- What the two closing events know

  lemma QuadBelow(p: PeerSets, peers: set<Peer>, z: Quad, r: nat)
    requires IsQuad(p, peers, z, r)
    ensures All(z) <= Ancestors(M1(z)) && All(z) <= Ancestors(N2(z))
  {
    hide Round, Witness, Above, StronglySees, ParentRound, Ancestors;
    StepM(p, peers, z, r);
    StepN2(p, peers, z, r);
    AboveIn(p, M1(z), r);
    AboveIn(p, N2(z), r);
  }

  lemma FrontBelow(p: PeerSets, peers: set<Peer>, q: Front, r: nat)
    requires IsFront(p, peers, q, r)
    ensures Members(q) <= Ancestors(Opening(q).b)
  {
    hide Round, Witness, Above, Ancestors;
    OpenRest(p, peers, q, r);
    AboveIn(p, J2(q), r);
  }

  /** Everything up to the second quad. */
  ghost function Common(q: Front): set<Event> {
    Members(q) + All(Opening(q)) + All(Second(q))
  }

  lemma CommonBelow(p: PeerSets, peers: set<Peer>, q: Front, r: nat, y: Event)
    requires IsFront(p, peers, q, r) && All(Second(q)) <= Ancestors(y)
    ensures Common(q) <= Ancestors(y)
  {
    hide IsFront, IsQuad, Opening, After, Ancestors, Members;
    RunFacts(p, peers, q, r);
    QuadBelow(p, peers, Opening(q), r + 1);
    FrontBelow(p, peers, q, r);
    AncestorsTransitive(y, Second(q).a);
    SecondFirst(q);
    AncestorsTransitive(Second(q).a, Opening(q).b);
  }

  lemma SecondFirst(q: Front)
    ensures Second(q).a == M1(Opening(q)) && Second(q).d == N2(Opening(q))
  {
  }

  lemma TrioBelow(w: Trio)
    ensures {w.f, w.s, w.t} <= Ancestors(Y1(w))
  {
    hide Ancestors;
    OnPast(w.t, H2(w));
    OnPast(w.f, H1(w));
    OnPast(w.s, w.t);
  }

  lemma OnPast(self: Event, other: Event)
    ensures var e := On(self, other, 0);
            self in Ancestors(e) && other in Ancestors(e) && Ancestors(self) + Ancestors(other) <= Ancestors(e)
  {
    assert self in Ancestors(self) && other in Ancestors(other);
  }

  // ----- Votes on u before the join

  lemma SecondVotes(p: PeerSets, peers: set<Peer>, W: set<Event>, q: Front, r: nat, y: Event)
    requires IsFront(p, peers, q, r) && View(W) && Common(q) <= W && y in All(Second(q))
    ensures Vote(p, y, q.u) == (y != Second(q).d) && !Decides(p, y, q.u)
  {
    hide IsFront, IsQuad, Opening, After, View, Vote, Decides, Round;
    RunFacts(p, peers, q, r);
    OpeningVotes(p, peers, q, r);
    SecondFirst(q);
    FrontRound(p, peers, q, r);
    VotesPart(p, peers, W, Opening(q), r + 1, q.u, y);
  }

  lemma FrontRound(p: PeerSets, peers: set<Peer>, q: Front, r: nat)
    requires IsFront(p, peers, q, r)
    ensures forall x :: x in Members(q) ==> Round(p, x) == r && Witness(p, x)
  {
    hide Round, Witness, Above;
  }

  lemma ThirdVotes(p: PeerSets, peers: set<Peer>, W: set<Event>, q: Front, r: nat, y: Event)
    requires IsFront(p, peers, q, r) && View(W) && Common(q) <= W && M1(Second(q)) in W
    requires y in W && y in All(After(Second(q)))
    ensures Vote(p, y, q.u) && Majority(p, y, q.u) && (Decides(p, y, q.u) <==> y == Early(q))
    ensures Round(p, y) == r + 3 && Witness(p, y)
  {
    hide IsFront, IsQuad, Opening, After, View, Vote, Decides, Round, Witness, Majority, Tally, M1, K3, L2, N2;
    RunFacts(p, peers, q, r);
    QuadFacts(p, peers, Second(q), r + 2);
    QuadFacts(p, peers, After(Second(q)), r + 3);
    FrontRound(p, peers, q, r);
    SecondApart(peers, q);
    SecondVotes(p, peers, W, q, r, Second(q).a);
    SecondVotes(p, peers, W, q, r, Second(q).b);
    SecondVotes(p, peers, W, q, r, Second(q).c);
    SecondVotes(p, peers, W, q, r, Second(q).d);
    VotesMeet(p, peers, W, Second(q), r + 2, q.u, y);
  }

  lemma SecondApart(peers: set<Peer>, q: Front)
    requires Placed(peers, Second(q))
    ensures var z := Second(q); z.a != z.d && z.b != z.d && z.c != z.d
  {
  }

  /** The other witnesses of the round are decided famous two rounds later. */
  lemma OthersDecided(p: PeerSets, peers: set<Peer>, B: set<Event>, q: Front, r: nat, x: Event)
    requires IsFront(p, peers, q, r) && View(B) && Common(q) <= B && x in {q.f, q.s, q.t}
    ensures var y := Second(q).a;
            y in B && Witness(p, y) && Round(p, y) == r + 2 && Decides(p, y, x) && Majority(p, y, x)
  {
    hide IsFront, IsQuad, Opening, After, View, Vote, Round, Witness, Majority, Tally;
    RunFacts(p, peers, q, r);
    QuadFacts(p, peers, Second(q), r + 2);
    FrontRound(p, peers, q, r);
    OpeningVotes(p, peers, q, r);
    QuadIsAll(p, peers, B, Opening(q), r + 1);
    UnanimousCount(p, B, x, Second(q).a, true);
  }

  lemma DecidedLocal(p: PeerSets, ps: PeerSets, k: nat, B: set<Event>, x: Event, y: Event)
    requires AgreeTo(p, ps, k) && Round(p, x) <= k && Round(p, y) <= k && y in B
    requires Witness(p, y) && Decides(p, y, x) && Majority(p, y, x)
    ensures FameDecided(ps, B, x, true)
  {
    hide Round, Witness, Decides, Majority;
    RoundLocal(p, ps, k, y);
    VoteLocal(p, ps, k, y, x);
  }

  /** The witnesses of round r, and the fame of three of them, in both views. */
  lemma SharedPart(ps: PeerSets, peers: set<Peer>, five: set<Peer>, B: set<Event>, q: Front, r: nat)
    requires Grows(ps, peers, five, r + 3) && IsFront(Four(peers), peers, q, r) && View(B) && Common(q) <= B
    ensures WitnessesIn(ps, B, r) == Members(q) && |Members(q)| == 4
    ensures forall x :: x in {q.f, q.s, q.t} ==> FameDecided(ps, B, x, true)
  {
    hide IsFront, View, Round, Witness, Majority, Decides, FameDecided, AgreeTo, Grows, Opening, After, WitnessesIn;
    var p := Four(peers);
    FourAgrees(ps, peers, five, r + 3);
    FrontIsAll(p, peers, B, q, r);
    WitnessesLocal(p, ps, r + 3, B, r);
    FrontSeats(p, peers, q, r);
    FrontRound(p, peers, q, r);
    Stalemate.FourMembers(peers, q);
    forall x | x in {q.f, q.s, q.t}
      ensures FameDecided(ps, B, x, true)
    {
      OthersDecided(p, peers, B, q, r, x);
      DecidedLocal(p, ps, r + 3, B, x, Second(q).a);
    }
  }

  // ----- The view that decides early

  lemma EarlyDecides(ps: PeerSets, peers: set<Peer>, five: set<Peer>, W: set<Event>, q: Front, r: nat)
    requires Grows(ps, peers, five, r + 3) && IsFront(Four(peers), peers, q, r)
    requires View(W) && Early(q) in W && M1(Second(q)) in W
    ensures var B := Ancestors(Early(q));
            && View(B) && B <= W && UpTo(ps, B, r + 3) && RoundDecided(ps, B, r) && q.u in FamousWitnesses(ps, B, r)
  {
    hide IsFront, IsQuad, View, Round, Witness, Majority, Decides, FameDecided, AgreeTo, Opening, After, Ancestors;
    var p, B := Four(peers), Ancestors(Early(q));
    FourAgrees(ps, peers, five, r + 3);
    PastView(W, Early(q));
    RunFacts(p, peers, q, r);
    QuadBelow(p, peers, Second(q), r + 2);
    CommonBelow(p, peers, q, r, Early(q));
    SharedPart(ps, peers, five, B, q, r);
    EarlyIsLone(q);
    ThirdVotes(p, peers, W, q, r, Early(q));
    FrontRound(p, peers, q, r);
    DecidedLocal(p, ps, r + 3, B, q.u, Early(q));
    RoundLocal(p, ps, r + 3, Early(q));
    forall y | y in B
      ensures Round(ps, y) <= r + 3
    {
      RoundMonotone(ps, Early(q), y);
    }
  }

  lemma EarlyIsLone(q: Front)
    ensures Early(q) in All(After(Second(q))) && Early(q) in Ancestors(Early(q))
  {
  }

  // ----- The view that decides late

  lemma AllFour(peers: set<Peer>, a: Peer, b: Peer, c: Peer, d: Peer)
    requires |peers| == 4 && a in peers && b in peers && c in peers && d in peers
    requires a != b && a != c && a != d && b != c && b != d && c != d
    ensures peers == {a, b, c, d}
  {
    SubsetEquality({a, b, c, d}, peers);
  }

  lemma AllFive(peers: set<Peer>, five: set<Peer>, e: Peer)
    requires |peers| == 4 && |five| == 5 && peers <= five && e in five && e !in peers
    ensures five == peers + {e}
  {
    SubsetEquality(peers + {e}, five);
  }

  /** The late view is made of these events. */
  ghost predicate LateView(W: set<Event>, q: Front, e: Peer) {
    && View(W) && Late(q, e) in W && LastIn(W, Second(q).d) && Hands(Hired(q, e)) <= W
    && {Three(q).f, Three(q).s, Three(q).t} <= W
  }

  lemma RunRounds(ps: PeerSets, peers: set<Peer>, five: set<Peer>, q: Front, r: nat, e: Peer)
    requires Grows(ps, peers, five, r + 3) && IsFront(Four(peers), peers, q, r) && e in five && e !in peers
    ensures IsCrew(ps, five, Hired(q, e), r + 4)
    ensures forall y :: y in {Three(q).f, Three(q).s, Three(q).t} ==> Round(ps, y) == r + 3 && Witness(ps, y)
    ensures Round(ps, Second(q).d) == r + 2
    ensures Round(ps, Late(q, e)) == r + 5 && Witness(ps, Late(q, e)) && Hands(Hired(q, e)) <= Ancestors(Late(q, e))
  {
    hide IsFront, IsQuad, IsCrew, Round, Witness, Above, Opening, After, AgreeTo, Ancestors, Grows;
    var p := Four(peers);
    FourAgrees(ps, peers, five, r + 3);
    RunFacts(p, peers, q, r);
    CrewOfTrio(ps, peers, five, Three(q), e, r + 3);
    CrewRises(ps, five, Hired(q, e), r + 4);
    QuadFacts(p, peers, Second(q), r + 2);
    RoundLocal(p, ps, r + 3, Second(q).d);
    RoundLocal(p, ps, r + 3, Three(q).f);
    RoundLocal(p, ps, r + 3, Three(q).s);
    RoundLocal(p, ps, r + 3, Three(q).t);
  }

  lemma RunSeats(peers: set<Peer>, five: set<Peer>, q: Front, e: Peer)
    requires |peers| == 4 && |five| == 5 && peers <= five && e in five && e !in peers
    requires Placed(peers, Second(q)) && Placed(peers, After(Second(q)))
    ensures var w := Three(q);
            && peers == Creators({w.f, w.s, w.t}) + {Second(q).d.creator}
            && five == Creators(Hands(Hired(q, e))) + {Second(q).d.creator}
  {
    hide Opening, After, M1, K3, L2, N2;
    var z, w := Second(q), Three(q);
    LoneSeat(peers, z);
    AfterSeats(peers, z);
    AllFour(peers, w.f.creator, w.s.creator, w.t.creator, z.d.creator);
    AllFive(peers, five, e);
    CrewSeats(w, e);
    assert Creators({w.f, w.s, w.t}) == {w.f.creator, w.s.creator, w.t.creator};
  }

  lemma AfterSeats(peers: set<Peer>, z: Quad)
    requires Placed(peers, After(z)) && Placed(peers, z)
    ensures M1(z).creator in peers && K3(z).creator in peers && L2(z).creator in peers && z.d.creator in peers
  {
  }

  lemma CrewSeats(w: Trio, e: Peer)
    ensures Creators(Hands(Crew(Y1(w), Y2(w), Y3(w), Y4(w, e)))) == {w.t.creator, w.s.creator, w.f.creator, e}
  {
    var c := Crew(Y1(w), Y2(w), Y3(w), Y4(w, e));
    assert Y1(w).creator == w.t.creator && Y2(w).creator == w.s.creator && Y3(w).creator == w.f.creator;
    assert Y1(w) in Hands(c) && Y2(w) in Hands(c) && Y3(w) in Hands(c) && Y4(w, e) in Hands(c);
  }

  lemma CrewRounds(ps: PeerSets, five: set<Peer>, c: Crew, r: nat)
    requires IsCrew(ps, five, c, r)
    ensures forall x :: x in Hands(c) ==> Round(ps, x) == r && Witness(ps, x)
    ensures ps(r) == five && ps(r + 1) == five && |five| == 5
  {
    hide Round, Witness, Above;
  }

  lemma GroupNames(z: Quad)
    ensures {M1(z), K3(z), L2(z)} <= All(After(z))
  {
  }

  lemma HandsFlip(q: Front, e: Peer, y: Event)
    requires y in Hands(Hired(q, e))
    ensures !MiddleBit(y)
  {
    hide DigestOf, Three, MiddleBit;
    var w := Three(q);
    OnBit(w.t, H2(w), 0);
    OnBit(H1(w), Y1(w), 0);
    OnBit(H2(w), Y1(w), 0);
    FirstBit(e, Some(Y1(w)), 4);
  }

  lemma FirstBit(creator: Peer, other: Option<Event>, seat: nat)
    ensures !MiddleBit(First(creator, other, seat))
  {
    DigestBit(Rank(0, seat), 0);
  }

  // ----- The result

  lemma LateParts(ps: PeerSets, peers: set<Peer>, five: set<Peer>, W: set<Event>, q: Front, r: nat, e: Peer)
    requires Grows(ps, peers, five, r + 3) && IsFront(Four(peers), peers, q, r) && e in five && e !in peers
    requires LateView(W, q, e) && Common(q) <= W
    ensures var T, H, d := {Three(q).f, Three(q).s, Three(q).t}, Hands(Hired(q, e)), Second(q).d;
            Overturning(ps, W, q.u, r, T, H, d)
  {
    hide IsFront, IsQuad, IsTrio, IsCrew, Round, Witness, Opening, After, View, LastIn, Placed, Creators, Hands, Vote,
         Decides, M1, K3, L2, N2, Late, MiddleBit, Common, Y1, Y2, Y3, Y4;
    RunFacts(Four(peers), peers, q, r);
    QuadFacts(Four(peers), peers, Second(q), r + 2);
    QuadFacts(Four(peers), peers, After(Second(q)), r + 3);
    RunRounds(ps, peers, five, q, r, e);
    RunSeats(peers, five, q, e);
    CrewRounds(ps, five, Hired(q, e), r + 4);
    forall y | y in {Three(q).f, Three(q).s, Three(q).t}
      ensures Vote(ps, y, q.u) && !Decides(ps, y, q.u)
    {
      TrioVotes(ps, peers, five, W, q, r, y);
    }
    forall y | y in Hands(Hired(q, e))
      ensures !MiddleBit(y)
    {
      HandsFlip(q, e, y);
    }
  }

  lemma TrioVotes(ps: PeerSets, peers: set<Peer>, five: set<Peer>, W: set<Event>, q: Front, r: nat, y: Event)
    requires Grows(ps, peers, five, r + 3) && IsFront(Four(peers), peers, q, r) && View(W) && Common(q) <= W
    requires {Three(q).f, Three(q).s, Three(q).t} <= W && y in {Three(q).f, Three(q).s, Three(q).t}
    ensures Vote(ps, y, q.u) && !Decides(ps, y, q.u)
  {
    hide IsFront, IsQuad, Round, Witness, Opening, After, View, Vote, Decides, Majority, AgreeTo, Grows, M1, K3, L2, N2,
         Common;
    var p := Four(peers);
    FourAgrees(ps, peers, five, r + 3);
    RunFacts(p, peers, q, r);
    QuadFacts(p, peers, Second(q), r + 2);
    FrontRound(p, peers, q, r);
    GroupNames(Second(q));
    ThirdVotes(p, peers, W, q, r, y);
    NotLone(peers, Second(q), y);
    VoteLocal(p, ps, r + 3, y, q.u);
  }

  lemma LateCommon(ps: PeerSets, peers: set<Peer>, five: set<Peer>, q: Front, r: nat, e: Peer)
    requires Grows(ps, peers, five, r + 3) && IsFront(Four(peers), peers, q, r) && e in five && e !in peers
    ensures Common(q) <= Ancestors(Late(q, e))
  {
    hide IsFront, IsQuad, IsTrio, IsCrew, Ancestors, Late, Opening, After, Common, M1, K3, L2, N2, Grows;
    RunRounds(ps, peers, five, q, r, e);
    RunFacts(Four(peers), peers, q, r);
    QuadBelow(Four(peers), peers, Second(q), r + 2);
    TrioBelow(Three(q));
    AncestorsTransitive(Late(q, e), Hired(q, e).w1);
    AncestorsTransitive(Hired(q, e).w1, Three(q).f);
    CommonBelow(Four(peers), peers, q, r, Late(q, e));
  }

  lemma SecondOnly(ps: PeerSets, peers: set<Peer>, five: set<Peer>, B: set<Event>, q: Front, r: nat, y: Event)
    requires Grows(ps, peers, five, r + 3) && IsFront(Four(peers), peers, q, r)
    requires View(B) && Common(q) <= B && y in WitnessesIn(ps, B, r + 2)
    ensures !Decides(ps, y, q.u)
  {
    hide IsFront, IsQuad, View, Round, Witness, Decides, AgreeTo, Grows, Opening, After, Majority, Vote;
    var p := Four(peers);
    FourAgrees(ps, peers, five, r + 3);
    RunFacts(p, peers, q, r);
    QuadIsAll(p, peers, B, Second(q), r + 2);
    WitnessesLocal(p, ps, r + 3, B, r + 2);
    FrontRound(p, peers, q, r);
    SecondVotes(p, peers, B, q, r, y);
    VoteLocal(p, ps, r + 3, y, q.u);
  }

  /** The late view decides round r, with u not famous. */
  lemma LateDecides(ps: PeerSets, peers: set<Peer>, five: set<Peer>, W: set<Event>, B: set<Event>, q: Front, r: nat,
                    e: Peer)
    requires Grows(ps, peers, five, r + 3) && IsFront(Four(peers), peers, q, r) && e in five && e !in peers
    requires LateView(W, q, e) && IsPast(B, Late(q, e))
    ensures View(B) && B <= W && UpTo(ps, B, r + 5) && RoundDecided(ps, B, r) && q.u !in FamousWitnesses(ps, B, r)
  {
    hide IsFront, View, Round, Witness, FameDecided, AgreeTo, LastIn, Ancestors, Hands, Hired, Three, Late, Second,
         Common, IsCrew, Grows, Decides, Overturning;
    PastView(W, Late(q, e));
    LateIsKnown(q, e);
    RunRounds(ps, peers, five, q, r, e);
    LateCommon(ps, peers, five, q, r, e);
    SharedPart(ps, peers, five, B, q, r);
    FourOfPeers(ps, peers, five, r);
    forall y | y in B
      ensures Round(ps, y) <= r + 5
    {
      RoundMonotone(ps, Late(q, e), y);
    }
    forall y | y in WitnessesIn(ps, B, r + 2)
      ensures !Decides(ps, y, q.u)
    {
      SecondOnly(ps, peers, five, B, q, r, y);
    }
    LateParts(ps, peers, five, W, q, r, e);
    CoinCloses(ps, W, B, q.u, r, {Three(q).f, Three(q).s, Three(q).t}, Hands(Hired(q, e)), Second(q).d, Late(q, e));
  }

  lemma PastOf(x: Event)
    ensures IsPast(Ancestors(x), x)
  {
  }

  lemma LateIsKnown(q: Front, e: Peer)
    ensures Late(q, e) in Ancestors(Late(q, e))
  {
    hide Late;
  }

  lemma FourOfPeers(ps: PeerSets, peers: set<Peer>, five: set<Peer>, r: nat)
    requires Grows(ps, peers, five, r + 3)
    ensures Threshold(ps(r)) == 3 && |ps(r + 4)| == 5 && |ps(r + 5)| == 5
  {
  }

  /** A fifth peer joins four after round r + 3. Then two views of one fork-free hashgraph can decide round r with
      different famous witnesses, one by events of rounds up to r + 3 and the other by events of rounds up to r + 5. */
  lemma JoinDivides(ps: PeerSets, peers: set<Peer>, five: set<Peer>, n: Stalemate.Names, e: Peer, r: nat)
    returns (V1: set<Event>, V2: set<Event>)
    requires Grows(ps, peers, five, r + 3) && r >= 1 && Stalemate.Named(peers, n) && e in five && e !in peers
    ensures View(V1) && View(V2) && View(V1 + V2) && DistinctKeys(V1 + V2)
    ensures RoundDecided(ps, V1, r) && UpTo(ps, V1, r + 3) && RoundDecided(ps, V2, r) && UpTo(ps, V2, r + 5)
    ensures FamousWitnesses(ps, V1, r) != FamousWitnesses(ps, V2, r)
    ensures SafeWithin(ps, 3)
  {
    hide *;
    FourAgrees(ps, peers, five, r + 3);
    var V, q := Stalemate.FrontInRound(Four(peers), peers, n, r);
    var W, G := RunIn(peers, V, q, r, e);
    V1, V2 := Ancestors(Early(q)), Ancestors(Late(q, e));
    assert IsPast(V2, Late(q, e)) by { PastOf(Late(q, e)); }
    EarlyDecides(ps, peers, five, W, q, r);
    LateDecides(ps, peers, five, G, V2, q, r, e);
    UnionView(V1, V2, W);
    HeldKeys(W);
    FewerKeys(W, V1 + V2);
    GrowingIsSafe(ps, peers, five, r + 3);
  }

  lemma RunIn(peers: set<Peer>, V: set<Event>, q: Front, r: nat, e: Peer) returns (W: set<Event>, G: set<Event>)
    requires IsFront(Four(peers), peers, q, r) && Tops(V, q) && Native(V, peers) && e !in peers
    ensures Held(W) && View(W) && Early(q) in W && M1(Second(q)) in W && G <= W && LateView(G, q, e)
  {
    hide IsFront, View, Tops, Native, Held, LastIn, Extended, AfterView, GroupView, Known, Late, Hired, Hands, Early;
    W, G := Extended(AfterView(Known(V, q), Second(q)), Three(q), e),
            Extended(GroupView(Known(V, q), Second(q)), Three(q), e);
    RunViews(Four(peers), peers, V, q, r, e);
    HeldIsView(W);
    HeldIsView(G);
    LateIsView(G, q, e);
  }

  lemma HeldIsView(V: set<Event>)
    requires Held(V)
    ensures View(V)
  {
  }

  lemma LateIsView(W: set<Event>, q: Front, e: Peer)
    requires View(W) && Late(q, e) in W && LastIn(W, Second(q).d) && Hands(Hired(q, e)) <= W
    requires {Three(q).f, Three(q).s, Three(q).t} <= W
    ensures LateView(W, q, e)
  {
    hide View, LastIn;
  }

  lemma FewerKeys(V: set<Event>, U: set<Event>)
    requires DistinctKeys(V) && U <= V
    ensures DistinctKeys(U)
  {
  }

  lemma GrowingIsSafe(ps: PeerSets, peers: set<Peer>, five: set<Peer>, k: nat)
    requires Grows(ps, peers, five, k)
    ensures SafeWithin(ps, 3)
  {
    hide SafeWithin;
    forall j: nat
      ensures |ps(j)| <= |ps(j + 1)|
    {
    }
    JoinsAreSafe(ps);
  }
}
