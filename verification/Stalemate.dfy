/** A hashgraph of four peers in which a round stays undecided for as many rounds as one likes, and is decided then
    (DecideFame in src/hashgraph/hashgraph.go, processAcceptedInternalTransactions in src/node/core.go,
    docs/dynamic_membership.rst). */
module Stalemate {
  import opened Events
  import opened Quorum
  import opened Rounds
  import opened Voting
  import opened Received
  import opened Frames
  import opened Progress
  import opened Fronts
  import Memo

  // ----- The run, from any front

  ghost function Nth(q: Front, k: nat): Front {
    if k == 0 then Parted(q) else Next(Nth(q, k - 1))
  }

  ghost function Views(V: set<Event>, q: Front, k: nat): set<Event> {
    if k == 0 then PartedView(V, q) else Grown(Views(V, q, k - 1), Nth(q, k - 1))
  }

  lemma {:induction false} FrontOf(ps: PeerSets, peers: set<Peer>, V: set<Event>, q: Front, r: nat, k: nat)
    requires IsFront(ps, peers, q, r) && Tops(V, q)
    ensures IsFront(ps, peers, Nth(q, k), r + k + 1) && Tops(Views(V, q, k), Nth(q, k))
    ensures Split(ps, Nth(q, k), q.u) && Round(ps, q.u) == r
  {
    hide IsFront, Tops, Split, Next, Grown, Parted, PartedView, Round;
    FrontFacts(ps, peers, q, r);
    if k == 0 {
      PartedIsFront(ps, peers, q, r);
      PartedTops(peers, V, q);
      PartedIsSplit(ps, peers, q, r);
    } else {
      FrontOf(ps, peers, V, q, r, k - 1);
      NextFront(ps, peers, Views(V, q, k - 1), Nth(q, k - 1), r + k, q.u);
    }
  }

  lemma FrontFacts(ps: PeerSets, peers: set<Peer>, q: Front, r: nat)
    requires IsFront(ps, peers, q, r)
    ensures Seated(peers, q) && FourPeers(ps, peers)
    ensures forall x :: x in Members(q) ==> Round(ps, x) == r && Witness(ps, x)
  {
    hide Round, Witness, Above;
  }

  lemma NextFront(ps: PeerSets, peers: set<Peer>, V: set<Event>, q: Front, r: nat, x: Event)
    requires IsFront(ps, peers, q, r) && Tops(V, q) && Split(ps, q, x) && Round(ps, x) < r
    ensures IsFront(ps, peers, Next(q), r + 1) && Tops(Grown(V, q), Next(q)) && Split(ps, Next(q), x)
  {
    hide Round, Witness, Above, View, LastIn, Split, Grown, Next;
    NextIsFront(ps, peers, q, r);
    GrownTops(peers, V, q);
    NextIsSplit(ps, peers, Grown(V, q), q, r, x);
  }

  lemma {:induction false} ViewsGrow(V: set<Event>, q: Front, j: nat, k: nat)
    requires j <= k
    ensures V <= Views(V, q, j) <= Views(V, q, k)
    decreases k - j, j
  {
    hide Grown, Next, Parted, PartedView;
    if j < k {
      ViewsGrow(V, q, j, k - 1);
      GrownKeeps(Views(V, q, k - 1), Nth(q, k - 1));
    } else if j > 0 {
      ViewsGrow(V, q, j - 1, j - 1);
      GrownKeeps(Views(V, q, j - 1), Nth(q, j - 1));
    } else {
      PartedKeeps(V, q);
    }
  }

  lemma GrownKeeps(V: set<Event>, q: Front)
    ensures V <= Grown(V, q)
  {
  }

  lemma PartedKeeps(V: set<Event>, q: Front)
    ensures V <= PartedView(V, q)
  {
  }

  // ----- Nothing is decided on the way

  lemma Undecidable(ps: PeerSets, peers: set<Peer>, V: set<Event>, q: Front, r: nat, k: nat, W: set<Event>, y: Event)
    requires IsFront(ps, peers, q, r) && Tops(V, q)
    requires View(W) && Views(V, q, k) <= W && y in W && Round(ps, y) <= r + k + 2
    ensures !Decides(ps, y, q.u)
  {
    hide Round, Witness, View, IsFront, Split, Tally, Grown, Next, Parted, PartedView, Tops;
    FrontFacts(ps, peers, q, r);
    if Round(ps, y) >= r + 2 {
      var j := Round(ps, y) - r - 2;
      FrontOf(ps, peers, V, q, r, j);
      ViewsGrow(V, q, j, k);
      LastMembers(Views(V, q, j), Nth(q, j));
      NoneDecides(ps, peers, W, Nth(q, j), r + j + 1, q.u, y);
    }
  }

  /** Whoever knows an event of round r + 2 knows u. */
  lemma UKnown(ps: PeerSets, peers: set<Peer>, W: set<Event>, q: Front, r: nat, U: set<Event>, y: Event)
    requires IsFront(ps, peers, q, r) && View(W) && Members(Parted(q)) <= W
    requires View(U) && U <= W && y in U && Round(ps, y) == r + 2
    ensures q.u in U
  {
    hide Round, Witness, Above, View, Electors, Parted;
    PartedIsFront(ps, peers, q, r);
    PartSees(ps, peers, q, r);
    ElectorsAreQuorum(ps, U, y);
    FrontIsAll(ps, peers, W, Parted(q), r + 1);
    UAmong(ps, U, Electors(ps, y), q, r);
  }

  lemma UAmong(ps: PeerSets, U: set<Event>, A: set<Event>, q: Front, r: nat)
    requires View(U) && A <= U && A <= Members(Parted(q)) && |A| >= 3
    requires q.u in Above(ps, X3(q), r) && q.u in Above(ps, X4(q), r)
    ensures q.u in U
  {
    hide Round;
    if X3(q) !in A && X4(q) !in A {
      SubsetSize(A, {X1(q), X2(q)});
    }
    var w := if X3(q) in A then X3(q) else X4(q);
    AncestorsInside(U, w);
  }

  /** From every front of a round r, and for every k, the four peers can go on to a view with events of round r + k + 1
      on which, however it is extended, no event of a round up to r + k + 2 decides the fame of the witness u. */
  lemma FameCanWait(ps: PeerSets, peers: set<Peer>, V: set<Event>, q: Front, r: nat, k: nat)
    requires IsFront(ps, peers, q, r) && Tops(V, q)
    ensures Held(Views(V, q, k)) && V <= Views(V, q, k) && q.u in WitnessesIn(ps, Views(V, q, k), r)
    ensures exists e :: e in Views(V, q, k) && Round(ps, e) == r + k + 1
    ensures forall W, y :: View(W) && Views(V, q, k) <= W && y in W && Round(ps, y) <= r + k + 2 ==>
            !Decides(ps, y, q.u)
  {
    hide Round, Witness, View, Decides, IsFront, Split, Grown, Next, Parted, PartedView, Tops;
    FrontOf(ps, peers, V, q, r, k);
    FrontFacts(ps, peers, q, r);
    FrontFacts(ps, peers, Nth(q, k), r + k + 1);
    LastMembers(V, q);
    LastMembers(Views(V, q, k), Nth(q, k));
    TopsHeld(Views(V, q, k), Nth(q, k));
    ViewsGrow(V, q, k, k);
    assert Nth(q, k).f in Members(Nth(q, k)) && q.u in Members(q);
    forall W, y | View(W) && Views(V, q, k) <= W && y in W && Round(ps, y) <= r + k + 2
      ensures !Decides(ps, y, q.u)
    {
      Undecidable(ps, peers, V, q, r, k, W, y);
    }
  }

  lemma TopsHeld(V: set<Event>, q: Front)
    requires Tops(V, q)
    ensures Held(V) && View(V)
  {
  }

  /** So round r stays undecided for everyone who knows only events of rounds up to r + k + 2. */
  lemma RoundCanWait(ps: PeerSets, peers: set<Peer>, V: set<Event>, q: Front, r: nat, k: nat, W: set<Event>)
    requires IsFront(ps, peers, q, r) && Tops(V, q) && View(W) && Views(V, q, k) <= W
    ensures !Frozen(ps, Part(ps, W, r + k + 2), r)
  {
    hide Round, View, IsFront, Tops, Views, RoundDecided;
    if U :| U <= Part(ps, W, r + k + 2) && View(U) && RoundDecided(ps, U, r) {
      NoneBelow(ps, peers, V, q, r, k, W, U);
    }
  }

  lemma NoneBelow(ps: PeerSets, peers: set<Peer>, V: set<Event>, q: Front, r: nat, k: nat, W: set<Event>, U: set<Event>)
    requires IsFront(ps, peers, q, r) && Tops(V, q) && View(W) && Views(V, q, k) <= W
    requires View(U) && U <= W && UpTo(ps, U, r + k + 2)
    ensures !RoundDecided(ps, U, r)
  {
    hide Round, Witness, View, Decides, IsFront, Parted, Tops, Views, Majority, Members;
    if RoundDecided(ps, U, r) {
      var e := DecidingEvent(ps, U, r);
      FrontFacts(ps, peers, q, r);
      PartedKnown(ps, peers, V, q, r, k);
      UKnown(ps, peers, W, q, r, U, e);
      UMember(q);
      assert q.u in WitnessesIn(ps, U, r);
      var y :| y in U && Witness(ps, y) && Decides(ps, y, q.u);
      Undecidable(ps, peers, V, q, r, k, W, y);
    }
  }

  lemma UMember(q: Front)
    ensures q.u in Members(q)
  {
  }

  lemma PartedKnown(ps: PeerSets, peers: set<Peer>, V: set<Event>, q: Front, r: nat, k: nat)
    requires IsFront(ps, peers, q, r) && Tops(V, q)
    ensures Members(Parted(q)) <= Views(V, q, k)
  {
    hide IsFront, Tops, Parted, PartedView, Seated;
    FrontFacts(ps, peers, q, r);
    PartedTops(peers, V, q);
    ViewsGrow(V, q, 0, k);
  }

  // ----- How the run may end

  /** What the run has become, two rounds after its k-th front was turned. */
  ghost function EndView(V: set<Event>, q: Front, k: nat): set<Event> {
    Grown(TurnedView(Views(V, q, k), Nth(q, k)), Turned(Nth(q, k)))
  }

  /** The event that closes the elections. */
  ghost function Closing(q: Front, k: nat): Event {
    Next(Turned(Nth(q, k))).f
  }

  lemma EndFacts(ps: PeerSets, peers: set<Peer>, V: set<Event>, q: Front, r: nat, k: nat)
    requires IsFront(ps, peers, q, r) && Tops(V, q)
    ensures Held(EndView(V, q, k)) && Views(V, q, k) <= EndView(V, q, k) && Closing(q, k) in EndView(V, q, k)
    ensures Round(ps, Closing(q, k)) == r + k + 3 && Witness(ps, Closing(q, k))
    ensures Unanimous(ps, EndView(V, q, k), q.u, r + k + 2, true)
  {
    hide Round, Witness, Above, View, LastIn, Vote, Electors, Split, FourPeers, Grown, Next, TurnedView, Turned;
    FrontOf(ps, peers, V, q, r, k);
    EndTops(ps, peers, Views(V, q, k), Nth(q, k), r + k + 1);
    FrontIsAll(ps, peers, EndView(V, q, k), Turned(Nth(q, k)), r + k + 2);
    forall w | w in WitnessesIn(ps, EndView(V, q, k), r + k + 2)
      ensures Vote(ps, w, q.u)
    {
      TurnedVotesYes(ps, peers, EndView(V, q, k), Nth(q, k), r + k + 1, q.u, w);
    }
  }

  lemma EndTops(ps: PeerSets, peers: set<Peer>, V: set<Event>, q: Front, r: nat)
    requires IsFront(ps, peers, q, r) && Tops(V, q)
    ensures var W := Grown(TurnedView(V, q), Turned(q));
            && Held(W) && V <= W && Members(q) <= V && Members(Turned(q)) <= W && Next(Turned(q)).f in W
    ensures IsFront(ps, peers, Turned(q), r + 1)
    ensures Round(ps, Next(Turned(q)).f) == r + 2 && Witness(ps, Next(Turned(q)).f)
  {
    hide Round, Witness, Above, View, LastIn, Turned, TurnedView, Grown;
    TurnedIsFront(ps, peers, q, r);
    TurnedTops(peers, V, q);
    GrownTops(peers, TurnedView(V, q), Turned(q));
    Step4(ps, peers, Turned(q), r + 1);
  }

  /** The other witnesses of the front are seen by all the witnesses of the next round. */
  lemma OthersUnanimous(ps: PeerSets, peers: set<Peer>, W: set<Event>, q: Front, r: nat, x: Event)
    requires IsFront(ps, peers, q, r) && View(W) && Members(Parted(q)) <= W && x in {q.f, q.s, q.t}
    ensures Unanimous(ps, W, x, r + 1, true)
  {
    hide Round, Witness, Above, Vote, View, Parted;
    PartedIsFront(ps, peers, q, r);
    FrontIsAll(ps, peers, W, Parted(q), r + 1);
    forall y | y in WitnessesIn(ps, W, r + 1)
      ensures Vote(ps, y, x)
    {
      PartedVotesYes(ps, peers, q, r, x, y);
    }
  }

  lemma Closes(ps: PeerSets, peers: set<Peer>, W: set<Event>, x: Event, y: Event)
    requires FourPeers(ps, peers) && View(W) && y in W && Witness(ps, y) && Round(ps, y) >= Round(ps, x) + 2
    requires !CoinRound(Round(ps, y) - Round(ps, x)) && Unanimous(ps, W, x, Round(ps, y) - 1, true)
    ensures FameDecided(ps, W, x, true)
  {
    hide Round, Witness, View, Vote, Tally, Majority, Unanimous;
    UnanimousCount(ps, W, x, y, true);
  }

  lemma MemberClosed(ps: PeerSets, peers: set<Peer>, V: set<Event>, q: Front, r: nat, k: nat, x: Event)
    requires IsFront(ps, peers, q, r) && Tops(V, q) && !CoinRound(k + 3) && x in Members(q)
    ensures FameDecided(ps, EndView(V, q, k), x, true)
  {
    hide Round, Witness, View, Unanimous, EndView, Closing, Views, FameDecided, Tops, IsFront, Parted, Signed;
    EndFacts(ps, peers, V, q, r, k);
    FrontFacts(ps, peers, q, r);
    PartedKnown(ps, peers, V, q, r, k);
    FixedPeersAreSafe(ps, peers, r);
    if x != q.u {
      OthersUnanimous(ps, peers, EndView(V, q, k), q, r, x);
      UnanimityLasts(ps, EndView(V, q, k), x, r + 1, r + k + 2, true);
    }
    Closes(ps, peers, EndView(V, q, k), x, Closing(q, k));
  }

  /** And yet the peers may have round r decided at any time after that, with the witness that had to wait famous. */
  lemma FameCanEnd(ps: PeerSets, peers: set<Peer>, V: set<Event>, q: Front, r: nat, k: nat) returns (W: set<Event>)
    requires IsFront(ps, peers, q, r) && Tops(V, q)
    ensures Held(W) && Views(V, q, k) <= W && RoundDecided(ps, W, r) && FamousWitnesses(ps, W, r) == Members(q)
  {
    hide Round, View, EndView, Views, Tops, IsFront, RoundDecided, FamousWitnesses, Signed, CoinRound;
    var j := NormalRound(k);
    W := EndView(V, q, j);
    EndFacts(ps, peers, V, q, r, j);
    ViewsGrow(V, q, k, j);
    ViewsGrow(V, q, j, j);
    forall x | x in Members(q)
      ensures FameDecided(ps, W, x, true)
    {
      MemberClosed(ps, peers, V, q, r, j, x);
    }
    LastMembers(V, q);
    AllFamous(ps, peers, W, q, r);
  }

  lemma NormalRound(k: nat) returns (j: nat)
    ensures k <= j && !CoinRound(j + 3)
  {
    j := if CoinRound(k + 3) then k + 1 else k;
  }

  lemma AllFamous(ps: PeerSets, peers: set<Peer>, W: set<Event>, q: Front, r: nat)
    requires IsFront(ps, peers, q, r) && View(W) && Members(q) <= W
    requires forall x :: x in Members(q) ==> FameDecided(ps, W, x, true)
    ensures RoundDecided(ps, W, r) && FamousWitnesses(ps, W, r) == Members(q)
  {
    hide Round, Witness, View, FameDecided, IsFront, Members, Seated;
    FrontFacts(ps, peers, q, r);
    FrontIsAll(ps, peers, W, q, r);
    FourMembers(peers, q);
  }

  lemma FourMembers(peers: set<Peer>, q: Front)
    requires Seated(peers, q)
    ensures |Members(q)| == 4
  {
  }

  // ----- A front to start from

  datatype Names = Names(a: Peer, b: Peer, c: Peer, d: Peer)

  ghost predicate Named(peers: set<Peer>, n: Names) {
    && |peers| == 4 && n.a in peers && n.b in peers && n.c in peers && n.d in peers
    && n.a != n.b && n.a != n.c && n.a != n.d && n.b != n.c && n.b != n.d && n.c != n.d
  }

  ghost function D0(n: Names): Event { First(n.d, None, 0) }
  ghost function A0(n: Names): Event { First(n.a, Some(D0(n)), 1) }
  ghost function B0(n: Names): Event { First(n.b, Some(A0(n)), 2) }
  ghost function C0(n: Names): Event { First(n.c, Some(B0(n)), 3) }
  ghost function A1(n: Names): Event { On(A0(n), C0(n), 0) }
  ghost function B1(n: Names): Event { On(B0(n), A1(n), 0) }
  ghost function C1(n: Names): Event { On(C0(n), A1(n), 0) }
  ghost function D1(n: Names): Event { On(D0(n), C1(n), 0) }

  ghost function Start(n: Names): Front {
    Front(A1(n), B1(n), C1(n), D1(n))
  }

  ghost function StartView(n: Names): set<Event> {
    {} + {D0(n)} + {A0(n)} + {B0(n)} + {C0(n)} + {A1(n)} + {B1(n)} + {C1(n)} + {D1(n)}
  }

  lemma StartTops(peers: set<Peer>, n: Names)
    requires Named(peers, n)
    ensures Tops(StartView(n), Start(n))
  {
    hide Held, LastIn;
    EmptyHeld();
    var V: set<Event> := {};
    AddFirst(V, n.d, None, 0);
    V := V + {D0(n)};
    AddFirst(V, n.a, Some(D0(n)), 1);
    V := V + {A0(n)};
    AddFirst(V, n.b, Some(A0(n)), 2);
    V := V + {B0(n)};
    AddFirst(V, n.c, Some(B0(n)), 3);
    V := V + {C0(n)};
    AddOn(V, A0(n), C0(n), 0);
    V := V + {A1(n)};
    AddOn(V, B0(n), A1(n), 0);
    V := V + {B1(n)};
    AddOn(V, C0(n), A1(n), 0);
    V := V + {C1(n)};
    AddOn(V, D0(n), C1(n), 0);
  }

  lemma EmptyHeld()
    ensures Held({})
  {
  }

  /** A first event has round zero, or the round of its other-parent when it strongly sees too few. */
  lemma FirstFacts(ps: PeerSets, peers: set<Peer>, creator: Peer, other: Option<Event>, seat: nat)
    requires FourPeers(ps, peers) && creator in peers && (other.Some? ==> Round(ps, other.value) == 0)
    ensures var e := First(creator, other, seat);
            && ParentRound(ps, e) == (if other.Some? then 0 else -1)
            && (Round(ps, e) == 0 ==> Witness(ps, e))
            && (other.None? ==> Round(ps, e) == 0)
            && Above(ps, e, 0) == {e} + if other.Some? then Above(ps, other.value, 0) else {}
  {
    hide Round;
    var e := First(creator, other, seat);
    RoundUnfolded(ps, e);
    assert Ancestors(e) == {e} + if other.Some? then Ancestors(other.value) else {};
  }

  lemma StartLow(ps: PeerSets, peers: set<Peer>, n: Names)
    requires FourPeers(ps, peers) && Named(peers, n)
    ensures Round(ps, A0(n)) == Round(ps, B0(n)) == Round(ps, C0(n)) == Round(ps, D0(n)) == 0
    ensures Witness(ps, A0(n)) && Witness(ps, B0(n)) && Witness(ps, C0(n)) && Witness(ps, D0(n))
    ensures Above(ps, D0(n), 0) == {D0(n)} && Above(ps, A0(n), 0) == {A0(n), D0(n)}
    ensures Above(ps, B0(n), 0) == {B0(n), A0(n), D0(n)} && Above(ps, C0(n), 0) == {C0(n), B0(n), A0(n), D0(n)}
  {
    hide Round, Witness, Above, StronglySees, ParentRound;
    FirstFacts(ps, peers, n.d, None, 0);
    FirstFacts(ps, peers, n.a, Some(D0(n)), 1);
    Stays(ps, peers, A0(n), 0, D0(n), D0(n));
    FirstFacts(ps, peers, n.b, Some(A0(n)), 2);
    Stays(ps, peers, B0(n), 0, A0(n), D0(n));
    FirstFacts(ps, peers, n.c, Some(B0(n)), 3);
    NotThrough(ps, peers, C0(n), B0(n), 0, n.b, n.c);
    Stays(ps, peers, C0(n), 0, A0(n), D0(n));
  }

  lemma StartRise(ps: PeerSets, peers: set<Peer>, n: Names)
    requires FourPeers(ps, peers) && Named(peers, n)
    ensures Round(ps, A1(n)) == 1 && Witness(ps, A1(n))
    ensures Above(ps, A1(n), 0) == {A1(n), A0(n), D0(n), C0(n), B0(n)} && Above(ps, A1(n), 1) == {A1(n)}
  {
    hide Round, Witness, Above, StronglySees, StronglySeen, ParentRound;
    StartLow(ps, peers, n);
    AboveOn(ps, A0(n), C0(n), 0, 0);
    OnFacts(ps, A0(n), C0(n), 0);
    ThroughAbove(ps, peers, A1(n), D0(n), 0, A0(n), B0(n), C0(n));
    ThroughAbove(ps, peers, A1(n), A0(n), 0, A0(n), B0(n), C0(n));
    ThroughAbove(ps, peers, A1(n), B0(n), 0, B0(n), C0(n), A1(n));
    SeenStrongly(ps, peers, A1(n), D0(n), 0);
    SeenStrongly(ps, peers, A1(n), A0(n), 0);
    SeenStrongly(ps, peers, A1(n), B0(n), 0);
    Rises(ps, peers, A1(n), 0, D0(n), A0(n), B0(n));
    AboveHigher(ps, A1(n), 0);
  }

  /** The start is a front of round one. */
  lemma StartIsFront(ps: PeerSets, peers: set<Peer>, n: Names)
    requires FourPeers(ps, peers) && Named(peers, n)
    ensures IsFront(ps, peers, Start(n), 1)
  {
    hide Round, Witness, Above;
    StartLow(ps, peers, n);
    StartRise(ps, peers, n);
    OnRaised(ps, peers, B0(n), A1(n), 0, 0, A1(n), A1(n));
    OnRaised(ps, peers, C0(n), A1(n), 0, 0, A1(n), A1(n));
    OnRaised(ps, peers, D0(n), C1(n), 0, 0, C1(n), A1(n));
  }

  /** So there are fronts of every round from one on. */
  lemma {:induction false} FrontInRound(ps: PeerSets, peers: set<Peer>, n: Names, r: nat)
    returns (V: set<Event>, q: Front)
    requires FourPeers(ps, peers) && Named(peers, n) && r >= 1
    ensures IsFront(ps, peers, q, r) && Tops(V, q) && Native(V, peers)
  {
    hide IsFront, Tops, Start, StartView, Next, Grown, Named, FourPeers, Seated, Native;
    if r == 1 {
      V, q := StartView(n), Start(n);
      StartIsFront(ps, peers, n);
      StartTops(peers, n);
      StartNative(peers, n);
    } else {
      V, q := FrontInRound(ps, peers, n, r - 1);
      FrontFacts(ps, peers, q, r - 1);
      GrownTops(peers, V, q);
      NextIsFront(ps, peers, q, r - 1);
      GrownNative(peers, V, q);
      V, q := Grown(V, q), Next(q);
    }
  }

  lemma StartNative(peers: set<Peer>, n: Names)
    requires Named(peers, n)
    ensures Native(StartView(n), peers)
  {
  }

  lemma GrownNative(peers: set<Peer>, V: set<Event>, q: Front)
    requires Native(V, peers) && Members(q) <= V
    ensures Native(Grown(V, q), peers)
  {
  }

  /** All its events see all the first events. */
  lemma StartSees(ps: PeerSets, peers: set<Peer>, n: Names, y: Event)
    requires FourPeers(ps, peers) && Named(peers, n) && y in Members(Start(n))
    ensures {A0(n), B0(n), C0(n), D0(n)} <= Above(ps, y, 0)
  {
    hide Round, Witness, Above;
    StartLow(ps, peers, n);
    StartRise(ps, peers, n);
    AboveOn(ps, B0(n), A1(n), 0, 0);
    AboveOn(ps, C0(n), A1(n), 0, 0);
    StartIsFront(ps, peers, n);
    AboveOn(ps, D0(n), C1(n), 0, 0);
  }

  lemma StartFour(peers: set<Peer>, n: Names)
    requires Named(peers, n)
    ensures |{A0(n), B0(n), C0(n), D0(n)}| == 4 && {A0(n), B0(n), C0(n), D0(n)} <= StartView(n)
  {
  }

  lemma StartWitnesses(ps: PeerSets, peers: set<Peer>, n: Names, W: set<Event>)
    requires FourPeers(ps, peers) && Named(peers, n) && View(W) && StartView(n) <= W
    ensures WitnessesIn(ps, W, 0) == {A0(n), B0(n), C0(n), D0(n)} && |WitnessesIn(ps, W, 0)| == 4
  {
    hide Round, Witness, Above, View, Named, StartView, A0, B0, C0, D0;
    StartLow(ps, peers, n);
    WitnessCount(ps, W, 0);
    StartFour(peers, n);
    var first := {A0(n), B0(n), C0(n), D0(n)};
    SubsetSize(first, WitnessesIn(ps, W, 0));
    SubsetEquality(first, WitnessesIn(ps, W, 0));
  }

  /** Round zero is decided as soon as round two begins. */
  lemma ZeroDecided(ps: PeerSets, peers: set<Peer>, n: Names, W: set<Event>)
    requires FourPeers(ps, peers) && Named(peers, n) && View(W) && StartView(n) <= W && X1(Start(n)) in W
    ensures RoundDecided(ps, W, 0)
  {
    hide Round, Witness, Above, View, Named, StartView, A0, B0, C0, D0, Start, FameDecided, Vote;
    StartLow(ps, peers, n);
    StartIsFront(ps, peers, n);
    StartTops(peers, n);
    LastMembers(StartView(n), Start(n));
    PartRises(ps, peers, Start(n), 1);
    StartWitnesses(ps, peers, n, W);
    FrontIsAll(ps, peers, W, Start(n), 1);
    forall x | x in WitnessesIn(ps, W, 0)
      ensures FameDecided(ps, W, x, true)
    {
      forall y | y in WitnessesIn(ps, W, 1)
        ensures Vote(ps, y, x)
      {
        StartSees(ps, peers, n, y);
        FirstVote(ps, y, x);
      }
      Closes(ps, peers, W, x, X1(Start(n)));
    }
  }

  /** A round that receives events can be decided as late as one likes. For every k there is a hashgraph that a node
      can hold, in which round zero is decided by events of round two, some event is received in round one, and nothing
      known up to round k + 3 decides round one. */
  lemma LateRound(ps: PeerSets, peers: set<Peer>, n: Names, k: nat) returns (W: set<Event>)
    requires FourPeers(ps, peers) && Named(peers, n)
    ensures View(W) && DistinctKeys(W) && forall e :: e in W ==> !Memo.SelfCounts(ps, e)
    ensures forall x, y :: x in W && y in W && x.payload.hash == y.payload.hash ==> x == y
    ensures RoundDecided(ps, W, 0) && RoundDecided(ps, Part(ps, W, 2), 0)
    ensures RoundDecided(ps, W, 1) && D0(n) in ReceivedEvents(ps, W, {0, 1}, 1)
    ensures !Frozen(ps, Part(ps, W, k + 3), 1)
  {
    hide Round, View, IsFront, Tops, Views, RoundDecided, Start, StartView, Members, Signed, Memo.SelfCounts, Frozen,
         ReceivedEvents, D0;
    var V, q := StartView(n), Start(n);
    StartIsFront(ps, peers, n);
    StartTops(peers, n);
    W := FameCanEnd(ps, peers, V, q, 1, k);
    HeldKeys(W);
    HeldDigests(W);
    forall e | e in W
      ensures !Memo.SelfCounts(ps, e)
    {
      Memo.CrowdIsSafe(ps, e);
    }
    RoundCanWait(ps, peers, V, q, 1, k, W);
    ViewsGrow(V, q, k, k);
    StartInside(ps, peers, n, k, W);
    ZeroDecided(ps, peers, n, W);
    PartView(ps, W, 2);
    ZeroDecided(ps, peers, n, Part(ps, W, 2));
    FirstReceived(ps, peers, n, W);
  }

  lemma StartInside(ps: PeerSets, peers: set<Peer>, n: Names, k: nat, W: set<Event>)
    requires FourPeers(ps, peers) && Named(peers, n) && View(W) && Views(StartView(n), Start(n), k) <= W
    ensures X1(Start(n)) in Part(ps, W, 2) && StartView(n) <= Part(ps, W, 2)
  {
    hide Round, Witness, Above, View, Named, Tops, Views;
    StartIsFront(ps, peers, n);
    StartTops(peers, n);
    PartedKnown(ps, peers, StartView(n), Start(n), 1, k);
    PartRises(ps, peers, Start(n), 1);
    StartLow(ps, peers, n);
    ViewsGrow(StartView(n), Start(n), k, k);
  }

  lemma FirstReceived(ps: PeerSets, peers: set<Peer>, n: Names, W: set<Event>)
    requires FourPeers(ps, peers) && Named(peers, n) && StartView(n) <= W
    requires FamousWitnesses(ps, W, 1) == Members(Start(n))
    ensures D0(n) in ReceivedEvents(ps, W, {0, 1}, 1)
  {
    hide Round, Witness, Above, Named, FamousWitnesses, Start, StartView, Members, IsFront, Seated, A0, B0, C0, D0;
    StartLow(ps, peers, n);
    StartIsFront(ps, peers, n);
    FrontFacts(ps, peers, Start(n), 1);
    StartFour(peers, n);
    FourMembers(peers, Start(n));
    forall w | w in Members(Start(n))
      ensures D0(n) in Ancestors(w)
    {
      StartSees(ps, peers, n, w);
      AboveInside(ps, w, 0);
    }
  }

  lemma AboveInside(ps: PeerSets, x: Event, r: nat)
    ensures Above(ps, x, r) <= Ancestors(x)
  {
  }

  // ----- The condition is exact among four peers

  /** All four witnesses of the round after x's are known, s of them see x, and e is a witness three rounds after x. */
  ghost predicate Standing(ps: PeerSets, V: set<Event>, x: Event, e: Event, s: nat) {
    && View(V) && x in V && |WitnessesIn(ps, V, Round(ps, x) + 1)| == 4 && |Seers(ps, V, x, Round(ps, x) + 1)| == s
    && e in V && Witness(ps, e) && Round(ps, e) == Round(ps, x) + 3
  }

  /** The number of those who see a witness forces a decision three rounds later if and only if it is not two. */
  lemma OnlyTiesWait(ps: PeerSets, peers: set<Peer>, s: nat)
    requires FourPeers(ps, peers) && s <= 4
    ensures (forall V, x, e :: Standing(ps, V, x, e, s) ==> FameKnown(ps, Part(ps, V, Round(ps, x) + 3), x)) <==> s != 2
  {
    hide Round, Witness, View, FameKnown, Standing;
    if s == 2 {
      var V, x, e := TieWaits(ps, peers);
      assert Standing(ps, V, x, e, s);
    } else {
      forall V, x, e | Standing(ps, V, x, e, s)
        ensures FameKnown(ps, Part(ps, V, Round(ps, x) + 3), x)
      {
        NoTieDecides(ps, peers, V, x, e, s);
      }
    }
  }

  lemma NoTieDecides(ps: PeerSets, peers: set<Peer>, V: set<Event>, x: Event, e: Event, s: nat)
    requires FourPeers(ps, peers) && s != 2 && Standing(ps, V, x, e, s)
    ensures FameKnown(ps, Part(ps, V, Round(ps, x) + 3), x)
  {
    hide Round, Witness, View, FameKnown, Ancestors;
    var all, yes := WitnessesIn(ps, V, Round(ps, x) + 1), Seers(ps, V, x, Round(ps, x) + 1);
    assert |all - yes| == |all| - |yes| by { assert all == yes + (all - yes); }
    LopsidedDecided(ps, V, x, e);
  }

  lemma TieWaits(ps: PeerSets, peers: set<Peer>) returns (V: set<Event>, x: Event, e: Event)
    requires FourPeers(ps, peers)
    ensures Standing(ps, V, x, e, 2) && !FameKnown(ps, Part(ps, V, Round(ps, x) + 3), x)
  {
    hide Round, Witness, View, IsFront, Tops, Views, Start, StartView, Members, Decides, Signed, Named, Majority, Above;
    var n := SomeNames(peers);
    var q := Start(n);
    StartIsFront(ps, peers, n);
    StartTops(peers, n);
    V, x, e := Views(StartView(n), q, 2), q.u, Nth(q, 2).f;
    FameCanWait(ps, peers, StartView(n), q, 1, 2);
    FrontOf(ps, peers, StartView(n), q, 1, 2);
    LastMembers(V, Nth(q, 2));
    FrontFacts(ps, peers, Nth(q, 2), 4);
    FirstMember(Nth(q, 2));
    PartedKnown(ps, peers, StartView(n), q, 1, 2);
    TwoSee(ps, peers, V, q, 1);
  }

  lemma FirstMember(q: Front)
    ensures q.f in Members(q)
  {
  }

  lemma TwoSee(ps: PeerSets, peers: set<Peer>, V: set<Event>, q: Front, r: nat)
    requires IsFront(ps, peers, q, r) && View(V) && Members(Parted(q)) <= V
    ensures |WitnessesIn(ps, V, r + 1)| == 4 && |Seers(ps, V, q.u, r + 1)| == 2
  {
    hide Round, Witness, View, Above, IsFront, Parted, Seers;
    PartedIsFront(ps, peers, q, r);
    FrontFacts(ps, peers, q, r);
    FrontFacts(ps, peers, Parted(q), r + 1);
    FourMembers(peers, Parted(q));
    FrontIsAll(ps, peers, V, Parted(q), r + 1);
    PartSees(ps, peers, q, r);
    SeersAre(ps, V, q, r);
    assert X3(q).creator != X4(q).creator by { PartedNames(q); }
  }

  lemma PartedNames(q: Front)
    ensures Parted(q).t == X3(q) && Parted(q).u == X4(q)
  {
  }

  lemma SeersAre(ps: PeerSets, V: set<Event>, q: Front, r: nat)
    requires WitnessesIn(ps, V, r + 1) == Members(Parted(q)) && Round(ps, q.u) >= r
    requires q.u !in Above(ps, X1(q), r) && q.u !in Above(ps, X2(q), r)
    requires q.u in Above(ps, X3(q), r) && q.u in Above(ps, X4(q), r)
    ensures Seers(ps, V, q.u, r + 1) == {X3(q), X4(q)}
  {
    hide Round, Witness, Above, X1, X2, X3, X4, WitnessesIn, Ancestors;
    AboveExactly(ps, X1(q), q.u, r);
    AboveExactly(ps, X2(q), q.u, r);
    AboveExactly(ps, X3(q), q.u, r);
    AboveExactly(ps, X4(q), q.u, r);
  }

  lemma AboveExactly(ps: PeerSets, y: Event, x: Event, r: nat)
    requires Round(ps, x) >= r
    ensures x in Ancestors(y) <==> x in Above(ps, y, r)
  {
    hide Round;
  }

  lemma SomeNames(peers: set<Peer>) returns (n: Names)
    requires |peers| == 4
    ensures Named(peers, n)
  {
    var a :| a in peers;
    var rest := peers - {a};
    var b := Pick(rest);
    var c := Pick(rest - {b});
    var d := Pick(rest - {b} - {c});
    n := Names(a, b, c, d);
  }
}
