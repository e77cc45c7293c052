/** How soon elections close: what is behind the delay after which a new peer-set takes effect
    (docs/dynamic_membership.rst). */
module Progress {
  import opened Events
  import opened Quorum
  import opened Rounds
  import opened Voting

  // ----- A decision is shared within two rounds

  /** After y has decided, every event of a later round that is not a coin round decides the same. */
  lemma DecisionFollows(ps: PeerSets, V: set<Event>, x: Event, y: Event, z: Event)
    requires View(V) && y in V && z in V && Decides(ps, y, x) && SafeElection(ps, Round(ps, x))
    requires Round(ps, z) > Round(ps, y) && !CoinRound(Round(ps, z) - Round(ps, x))
    requires Threshold(ps(Round(ps, z))) <= Threshold(ps(Round(ps, z) - 1))
    ensures Decides(ps, z, x) && Majority(ps, z, x) == Majority(ps, y, x)
  {
    hide Round, Witness, Vote, Majority, Tally, Unanimous;
    DecisionBinds(ps, V, x, y, Round(ps, z) - 1);
    UnanimousCount(ps, V, x, z, Majority(ps, y, x));
  }

  /** If a node decides a witness's fame in round j, then any node that knows a witness of round j + 2
      decides the same. */
  lemma DecidedWithinTwoRounds(ps: PeerSets, peers: set<Peer>, V: set<Event>, W: set<Event>, x: Event, y: Event,
                               e: Event)
    requires (forall j: nat :: ps(j) == peers) && View(V) && View(W) && View(V + W)
    requires y in V && Decides(ps, y, x) && e in W && Witness(ps, e) && Round(ps, e) == Round(ps, y) + 2
    ensures FameDecided(ps, W, x, Majority(ps, y, x))
  {
    hide Round, Witness, Majority, Tally, SafeElection, View, Electors;
    assert SafeElection(ps, Round(ps, x)) by { FixedPeersAreSafe(ps, peers, Round(ps, x)); }
    var z := e;
    if CoinRound(Round(ps, e) - Round(ps, x)) {
      ElectorsAreQuorum(ps, W, e);
      z := Pick(Electors(ps, e));
      assert z in WitnessesIn(ps, W, Round(ps, e) - 1);
    }
    DecisionFollows(ps, V + W, x, y, z);
  }

  // ----- Every round gets a famous witness

  /** The pairs of a relation between two sets. */
  ghost function Related<A(!new), B(!new)>(s: set<A>, t: set<B>, r: (A, B) -> bool): set<(A, B)> {
    set a, b | a in s && b in t && r(a, b) :: (a, b)
  }

  ghost function Row<A(!new), B(!new)>(a: A, t: set<B>, r: (A, B) -> bool): set<B> {
    set b | b in t && r(a, b)
  }

  lemma {:induction false} CountRows<A(!new), B(!new)>(s: set<A>, t: set<B>, r: (A, B) -> bool, k: nat)
    requires forall a :: a in s ==> |Row(a, t, r)| >= k
    ensures |Related(s, t, r)| >= |s| * k
  {
    hide Related, Row;
    if s != {} {
      var a :| a in s;
      CountRows(s - {a}, t, r, k);
      OneRow(s, a, t, r);
      OneMore(|s|, k);
    }
  }

  lemma OneMore(n: nat, k: nat)
    requires n > 0
    ensures n * k == (n - 1) * k + k
  {
  }

  lemma OneRow<A(!new), B(!new)>(s: set<A>, a: A, t: set<B>, r: (A, B) -> bool)
    requires a in s
    ensures |Related(s, t, r)| == |Related(s - {a}, t, r)| + |Row(a, t, r)|
  {
    var row := set b | b in Row(a, t, r) :: (a, b);
    assert Related(s, t, r) == Related(s - {a}, t, r) + row;
    assert Related(s - {a}, t, r) !! row;
    PairSize(a, Row(a, t, r));
  }

  lemma {:induction false} PairSize<A(!new), B(!new)>(a: A, t: set<B>)
    ensures |set b | b in t :: (a, b)| == |t|
  {
    if t != {} {
      var b :| b in t;
      PairSize(a, t - {b});
      assert (set c | c in t :: (a, c)) == (set c | c in t - {b} :: (a, c)) + {(a, b)};
    }
  }

  ghost function Column<A(!new), B(!new)>(s: set<A>, b: B, r: (A, B) -> bool): set<A> {
    set a | a in s && r(a, b)
  }

  lemma {:induction false} CountColumns<A(!new), B(!new)>(s: set<A>, t: set<B>, r: (A, B) -> bool, m: nat)
    requires forall b :: b in t ==> |Column(s, b, r)| <= m
    ensures |Related(s, t, r)| <= |t| * m
  {
    if t == {} {
      assert Related(s, t, r) == {};
    } else {
      var b :| b in t;
      CountColumns(s, t - {b}, r, m);
      OneColumn(s, t, b, r);
      OneMore(|t|, m);
    }
  }

  lemma OneColumn<A(!new), B(!new)>(s: set<A>, t: set<B>, b: B, r: (A, B) -> bool)
    requires b in t
    ensures |Related(s, t, r)| == |Related(s, t - {b}, r)| + |Column(s, b, r)|
  {
    var column := set a | a in Column(s, b, r) :: (a, b);
    assert Related(s, t, r) == Related(s, t - {b}, r) + column;
    assert Related(s, t - {b}, r) !! column;
    ColumnSize(Column(s, b, r), b);
  }

  lemma {:induction false} ColumnSize<A(!new), B(!new)>(s: set<A>, b: B)
    ensures |set a | a in s :: (a, b)| == |s|
  {
    if s != {} {
      var a :| a in s;
      ColumnSize(s - {a}, b);
      assert (set c | c in s :: (c, b)) == (set c | c in s - {a} :: (c, b)) + {(a, b)};
    }
  }

  /** If everyone in s is related to more than two thirds of n, and t has at most n elements, then
      someone in t is related to more than two thirds of s. */
  lemma PopularElement<A(!new), B(!new)>(s: set<A>, t: set<B>, r: (A, B) -> bool, k: nat, n: nat) returns (b: B)
    requires s != {} && |t| <= n && 3 * k > 2 * n
    requires forall a :: a in s ==> |Row(a, t, r)| >= k
    ensures b in t && 3 * |Column(s, b, r)| > 2 * |s|
  {
    if b' :| b' in t && 3 * |Column(s, b', r)| > 2 * |s| {
      b := b';
    } else {
      CountRows(s, t, r, k);
      CountColumns(s, t, r, 2 * |s| / 3);
      TooFew(|s|, |t|, k, n);
      assert false;
    }
  }

  lemma TooFew(s: nat, t: nat, k: nat, n: nat)
    requires s > 0 && t <= n && 3 * k > 2 * n
    ensures s * k > t * (2 * s / 3)
  {
    var m := 2 * s / 3;
    Scaled(m, t, n);
    Scaled(n, 3 * m, 2 * s);
    Scaled(s, 2 * n + 1, 3 * k);
    Tripled(n, m);
    Tripled(s, k);
    Swapped(n, s);
  }

  lemma Scaled(c: nat, a: nat, b: nat)
    requires a <= b
    ensures c * a <= c * b && a * c <= b * c
  {
  }

  lemma Tripled(a: nat, b: nat)
    ensures a * (3 * b) == 3 * (a * b)
  {
  }

  lemma Swapped(a: nat, b: nat)
    ensures a * (2 * b) + b == b * (2 * a + 1)
  {
  }

  // ----- Witnesses

  /** The witnesses of round j that y sees. */
  ghost function Seen(ps: PeerSets, V: set<Event>, y: Event, j: nat): set<Event> {
    set w | w in WitnessesIn(ps, V, j) && w in Ancestors(y)
  }

  /** The witnesses of round j that see x. */
  ghost function Seers(ps: PeerSets, V: set<Event>, x: Event, j: nat): set<Event> {
    set w | w in WitnessesIn(ps, V, j) && x in Ancestors(w)
  }

  /** Every event of round j > 0 sees a super-majority of the witnesses of round j - 1. */
  lemma SeesQuorum(ps: PeerSets, V: set<Event>, y: Event)
    requires View(V) && y in V && Round(ps, y) > 0
    ensures |Seen(ps, V, y, Round(ps, y) - 1)| >= Threshold(ps(Round(ps, y) - 1))
  {
    hide Round, Witness, View, FastSees;
    ElectorsAreQuorum(ps, V, y);
    SubsetSize(Electors(ps, y), Seen(ps, V, y, Round(ps, y) - 1));
  }

  /** Some witness of round r is seen by more than two thirds of the known witnesses of round r + 1. */
  lemma SeenWitness(ps: PeerSets, V: set<Event>, r: nat) returns (x: Event)
    requires View(V) && WitnessesIn(ps, V, r + 1) != {}
    ensures x in WitnessesIn(ps, V, r)
    ensures 3 * |Seers(ps, V, x, r + 1)| > 2 * |WitnessesIn(ps, V, r + 1)|
  {
    hide Round, Witness, View, Ancestors;
    var s, t := WitnessesIn(ps, V, r + 1), WitnessesIn(ps, V, r);
    var sees := (w: Event, x: Event) => x in Ancestors(w);
    WitnessCount(ps, V, r);
    forall w | w in s
      ensures |Row(w, t, sees)| >= Threshold(ps(r))
    {
      SeesQuorum(ps, V, w);
      assert Row(w, t, sees) == Seen(ps, V, w, r);
    }
    x := PopularElement(s, t, sees, Threshold(ps(r)), |ps(r)|);
    assert Column(s, x, sees) == Seers(ps, V, x, r + 1);
  }

  /** Such a witness is voted famous by all the witnesses of round r + 2. */
  lemma VotedFamous(ps: PeerSets, V: set<Event>, x: Event, y: Event)
    requires View(V) && y in V && Round(ps, y) == Round(ps, x) + 2
    requires 3 * |Seers(ps, V, x, Round(ps, x) + 1)| > 2 * |WitnessesIn(ps, V, Round(ps, x) + 1)|
    ensures Vote(ps, y, x)
  {
    hide Round, Witness, View, Electors, Ancestors, Vote, Supporters;
    ElectorsAreQuorum(ps, V, y);
    WitnessCount(ps, V, Round(ps, x) + 1);
    FewAgainst(ps, V, x, y);
    SupportersPartition(ps, y, x, true);
    VoteUnfolded(ps, y, x);
  }

  lemma FewAgainst(ps: PeerSets, V: set<Event>, x: Event, y: Event)
    requires View(V) && y in V && Round(ps, y) == Round(ps, x) + 2
    requires 3 * |Seers(ps, V, x, Round(ps, x) + 1)| > 2 * |WitnessesIn(ps, V, Round(ps, x) + 1)|
    ensures 3 * |Supporters(ps, y, x, false)| < |WitnessesIn(ps, V, Round(ps, x) + 1)|
  {
    hide Round, Witness, View, Electors, Ancestors, Vote;
    var W, yes := WitnessesIn(ps, V, Round(ps, x) + 1), Seers(ps, V, x, Round(ps, x) + 1);
    ElectorsInside(ps, V, y);
    forall w | w in Supporters(ps, y, x, false)
      ensures w in W - yes
    {
      VoteUnfolded(ps, w, x);
    }
    SubsetSize(Supporters(ps, y, x, false), W - yes);
    assert |W - yes| == |W| - |yes| by { assert W == yes + (W - yes); }
  }

  /** In every view that holds an event of round r + 3, some witness of round r is decided famous by all
      the events of round r + 3. */
  lemma SomeWitnessFamous(ps: PeerSets, peers: set<Peer>, V: set<Event>, r: nat, e: Event) returns (x: Event)
    requires (forall j: nat :: ps(j) == peers) && View(V) && e in V && Round(ps, e) == r + 3
    ensures x in WitnessesIn(ps, V, r)
    ensures forall z :: z in V && Round(ps, z) == r + 3 ==> Decides(ps, z, x) && Majority(ps, z, x)
  {
    hide Round, Witness, View, Electors, Ancestors, Vote, Majority, Tally;
    ElectorsAreQuorum(ps, V, e);
    var y := Pick(Electors(ps, e));
    ElectorsAreQuorum(ps, V, y);
    var w := Pick(Electors(ps, y));
    x := SeenWitness(ps, V, r);
    forall z | z in WitnessesIn(ps, V, r + 2)
      ensures Vote(ps, z, x)
    {
      VotedFamous(ps, V, x, z);
    }
    forall z | z in V && Round(ps, z) == r + 3
      ensures Decides(ps, z, x) && Majority(ps, z, x)
    {
      UnanimousCount(ps, V, x, z, true);
    }
  }

  // ----- When a round is decided three rounds later

  ghost function Blind(ps: PeerSets, V: set<Event>, x: Event, j: nat): set<Event> {
    WitnessesIn(ps, V, j) - Seers(ps, V, x, j)
  }

  /** So many witnesses of round j see x, or so many do not, that everyone who counts a super-majority of that round
      comes to the same result. */
  ghost predicate Lopsided(ps: PeerSets, V: set<Event>, x: Event, j: nat) {
    || 2 * |Seers(ps, V, x, j)| + Threshold(ps(j)) >= 2 * |ps(j)|
    || 2 * |Blind(ps, V, x, j)| + Threshold(ps(j)) > 2 * |ps(j)|
  }

  /** When the witnesses of all the peers are known, exactly then: for any number of peers, whichever super-majority is
      counted. */
  lemma LopsidedExactly(ps: PeerSets, V: set<Event>, x: Event, j: nat)
    requires |WitnessesIn(ps, V, j)| == |ps(j)| > 0
    ensures Lopsided(ps, V, x, j) <==>
              || AlwaysYes(WitnessesIn(ps, V, j), Seers(ps, V, x, j), Threshold(ps(j)))
              || AlwaysNo(WitnessesIn(ps, V, j), Seers(ps, V, x, j), Threshold(ps(j)))
  {
    hide Round, Witness, Ancestors, AlwaysYes, AlwaysNo;
    AlwaysYesExactly(WitnessesIn(ps, V, j), Seers(ps, V, x, j), Threshold(ps(j)));
    AlwaysNoExactly(WitnessesIn(ps, V, j), Seers(ps, V, x, j), Threshold(ps(j)));
  }

  /** Enough yes votes for a tie at worst. */
  lemma TieIsYes(ps: PeerSets, V: set<Event>, x: Event, y: Event, A: set<Event>)
    requires View(V) && y in V && Round(ps, y) > 0 && A <= WitnessesIn(ps, V, Round(ps, y) - 1)
    requires forall w :: w in A ==> Vote(ps, w, x)
    requires 2 * |A| + Threshold(ps(Round(ps, y) - 1)) >= 2 * |ps(Round(ps, y) - 1)|
    ensures Majority(ps, y, x)
  {
    hide Round, Witness, Vote, Electors, View;
    var W, B := WitnessesIn(ps, V, Round(ps, y) - 1), Electors(ps, y);
    ElectorsAreQuorum(ps, V, y);
    WitnessCount(ps, V, Round(ps, y) - 1);
    Overlap(A, B, W);
    SubsetSize(A * B, Supporters(ps, y, x, true));
    SubsetSize(Supporters(ps, y, x, false), W - A);
    assert |W - A| == |W| - |A| by { assert W == A + (W - A); }
  }

  lemma SeenOrNot(ps: PeerSets, V: set<Event>, x: Event, w: Event)
    requires w in WitnessesIn(ps, V, Round(ps, x) + 1)
    ensures Vote(ps, w, x) <==> w in Seers(ps, V, x, Round(ps, x) + 1)
  {
    hide Round, Witness;
    VoteUnfolded(ps, w, x);
  }

  /** Then all the witnesses of round r + 2 vote alike. */
  lemma LopsidedVotes(ps: PeerSets, V: set<Event>, x: Event) returns (v: bool)
    requires View(V) && Lopsided(ps, V, x, Round(ps, x) + 1)
    ensures Unanimous(ps, V, x, Round(ps, x) + 2, v)
  {
    hide Round, Witness, Vote, Ancestors, View, Majority, Tally;
    var j := Round(ps, x) + 1;
    v := 2 * |Seers(ps, V, x, j)| + Threshold(ps(j)) >= 2 * |ps(j)|;
    var A := if v then Seers(ps, V, x, j) else Blind(ps, V, x, j);
    forall w | w in A
      ensures Vote(ps, w, x) == v
    {
      SeenOrNot(ps, V, x, w);
    }
    forall y | y in WitnessesIn(ps, V, j + 1)
      ensures Vote(ps, y, x) == v
    {
      if v {
        TieIsYes(ps, V, x, y, A);
      } else {
        VotesTransfer(ps, V, x, y, v, A);
      }
      VoteUnfolded(ps, y, x);
    }
  }

  ghost predicate FameKnown(ps: PeerSets, V: set<Event>, x: Event) {
    FameDecided(ps, V, x, true) || FameDecided(ps, V, x, false)
  }

  /** And any witness of round r + 3 decides. */
  lemma LopsidedDecided(ps: PeerSets, V: set<Event>, x: Event, e: Event)
    requires View(V) && e in V && Witness(ps, e) && Round(ps, e) == Round(ps, x) + 3
    requires Threshold(ps(Round(ps, x) + 3)) <= Threshold(ps(Round(ps, x) + 2))
    requires Lopsided(ps, V, x, Round(ps, x) + 1)
    ensures FameKnown(ps, Part(ps, V, Round(ps, x) + 3), x)
  {
    hide Round, Witness, Unanimous, View, Lopsided, Majority, Tally;
    var v := LopsidedVotes(ps, V, x);
    UnanimousCount(ps, V, x, e, v);
    var U := Part(ps, V, Round(ps, x) + 3);
    assert e in U && Decides(ps, e, x) && Majority(ps, e, x) == v;
    assert FameDecided(ps, U, x, v);
  }

  /** A round is decided three rounds later, if of each of its witnesses enough is known one round later. */
  lemma DecidedInTime(ps: PeerSets, V: set<Event>, r: nat, e: Event)
    requires View(V) && e in V && Witness(ps, e) && Round(ps, e) == r + 3
    requires Threshold(ps(r + 3)) <= Threshold(ps(r + 2)) && |WitnessesIn(ps, V, r)| >= Threshold(ps(r))
    requires forall x :: x in WitnessesIn(ps, V, r) ==> Lopsided(ps, V, x, r + 1)
    ensures RoundDecided(ps, Part(ps, V, r + 3), r)
  {
    hide Round, Witness, View, Lopsided, FameDecided;
    assert WitnessesIn(ps, Part(ps, V, r + 3), r) == WitnessesIn(ps, V, r);
    forall x | x in WitnessesIn(ps, V, r)
      ensures FameKnown(ps, Part(ps, V, r + 3), x)
    {
      LopsidedDecided(ps, V, x, e);
    }
  }

  // ----- The shortest example: one peer, alone

  const SOLO: Peer := "0X01"

  /** The k-th event of a peer that is alone. */
  ghost function Solo(k: nat): Event {
    Event(SOLO, k, if k == 0 then None else Some(Solo(k - 1)), None, Payload([], [], [], k, [], k))
  }

  ghost function SoloView(k: nat): set<Event> {
    if k == 0 then {Solo(0)} else SoloView(k - 1) + {Solo(k)}
  }

  lemma {:induction false} SoloMembers(k: nat)
    ensures forall x :: x in SoloView(k) <==> 0 <= x.index <= k && x == Solo(x.index)
  {
    if k > 0 { SoloMembers(k - 1); }
  }

  lemma SoloIsView(k: nat)
    ensures View(SoloView(k)) && forall x :: x in SoloView(k) <==> 0 <= x.index <= k && x == Solo(x.index)
  {
    hide SoloView;
    SoloMembers(k);
    forall x, p | x in SoloView(k) && p in Parents(x)
      ensures p in SoloView(k)
    {
      assert p == Solo(x.index - 1);
    }
    forall x | x in SoloView(k)
      ensures WellIndexed(x)
    {
      if x.index > 0 {
        assert x.selfParent == Some(Solo(x.index - 1)) && Solo(x.index - 1).creator == SOLO;
      }
    }
  }

  /** Every event of a lone peer is the witness of a new round. */
  lemma {:induction false} SoloRounds(ps: PeerSets, k: nat)
    requires forall j: nat :: ps(j) == {SOLO}
    ensures Round(ps, Solo(k)) == k && Witness(ps, Solo(k))
  {
    hide Round, StronglySees, ProperAncestors;
    var x := Solo(k);
    RoundUnfolded(ps, x);
    if k > 0 {
      var w := Solo(k - 1);
      SoloRounds(ps, k - 1);
      assert x.selfParent == Some(w) && w in Parents(x);
      ParentBelow(x, w);
      SoloSees(x, w);
      var seen := StronglySeen(ps, x, k - 1);
      assert w in seen;
      assert |seen| > 0;
    }
  }

  lemma SoloSees(x: Event, w: Event)
    requires w in ProperAncestors(x) && w.creator == SOLO
    ensures StronglySees(x, w, {SOLO})
  {
    assert w in Ancestors(w);
    assert SOLO in Between(x, w) * {SOLO};
    assert |Between(x, w) * {SOLO}| > 0;
  }

  /** So its events are decided famous, three rounds later. */
  lemma SoloFamous(ps: PeerSets, r: nat)
    requires forall j: nat :: ps(j) == {SOLO}
    ensures Decides(ps, Solo(r + 3), Solo(r)) && Majority(ps, Solo(r + 3), Solo(r))
  {
    hide Round, Witness, Decides, Majority;
    var V := SoloView(r + 3);
    SoloIsView(r + 3);
    assert Solo(r + 3).index == r + 3;
    SoloRounds(ps, r + 3);
    var x := SomeWitnessFamous(ps, {SOLO}, V, r, Solo(r + 3));
    SoloRounds(ps, x.index);
  }
}
