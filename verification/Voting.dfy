/** Virtual voting on the fame of witnesses (src/hashgraph/hashgraph.go, DecideFame). */
module Voting {
  import opened Events
  import opened Quorum
  import opened Rounds

  /** The coin: false exactly when the middle byte of the hash is zero. */
  function MiddleBit(y: Event): bool {
    var hash := y.payload.hash;
    !(|hash| > 0 && hash[|hash| / 2] == 0)
  }

  /** One round in four of an election is a coin round. */
  predicate CoinRound(diff: int) {
    diff % 4 == 0
  }

  /** The vote of y on the fame of x, by recursion on the DAG. The definitions below
      name its parts and VoteUnfolded restates it with them. */
  ghost predicate VoteRec(ps: PeerSets, y: Event, x: Event)
    decreases Lamport(y), 1
  {
    if Round(ps, y) <= Round(ps, x) + 1 then
      x in Ancestors(y)
    else
      var yays, nays := |SupportersRec(ps, y, x, true)|, |SupportersRec(ps, y, x, false)|;
      var v := yays >= nays;
      var t := if v then yays else nays;
      if CoinRound(Round(ps, y) - Round(ps, x)) && t < Threshold(ps(Round(ps, y))) then MiddleBit(y) else v
  }

  ghost function SupportersRec(ps: PeerSets, y: Event, x: Event, v: bool): set<Event>
    decreases Lamport(y), 0
  {
    LamportGrows(y);
    set w | w in Electors(ps, y) && VoteRec(ps, w, x) == v
  }

  ghost predicate Vote(ps: PeerSets, y: Event, x: Event) {
    VoteRec(ps, y, x)
  }

  /** The witnesses counted by y that vote v on the fame of x. */
  ghost function Supporters(ps: PeerSets, y: Event, x: Event, v: bool): set<Event> {
    set w | w in Electors(ps, y) && Vote(ps, w, x) == v
  }

  /** The majority vote among those y counts; a tie is a yes. */
  ghost predicate Majority(ps: PeerSets, y: Event, x: Event) {
    |Supporters(ps, y, x, true)| >= |Supporters(ps, y, x, false)|
  }

  ghost function Tally(ps: PeerSets, y: Event, x: Event): nat {
    |Supporters(ps, y, x, Majority(ps, y, x))|
  }

  /** The first votes are what one sees; later ones the majority among those counted,
      except that a coin round without a super-majority flips the coin. */
  lemma {:induction false} VoteUnfolded(ps: PeerSets, y: Event, x: Event)
    ensures Vote(ps, y, x) ==
            if Round(ps, y) <= Round(ps, x) + 1 then x in Ancestors(y)
            else if CoinRound(Round(ps, y) - Round(ps, x)) && Tally(ps, y, x) < Threshold(ps(Round(ps, y)))
            then MiddleBit(y)
            else Majority(ps, y, x)
  {
    hide Round, Electors;
    assert Supporters(ps, y, x, true) == SupportersRec(ps, y, x, true);
    assert Supporters(ps, y, x, false) == SupportersRec(ps, y, x, false);
  }

  /** y closes the election of x: a super-majority in a round that is not a coin round. */
  ghost predicate Decides(ps: PeerSets, y: Event, x: Event) {
    && Round(ps, y) >= Round(ps, x) + 2
    && !CoinRound(Round(ps, y) - Round(ps, x))
    && Tally(ps, y, x) >= Threshold(ps(Round(ps, y)))
  }

  /** An event closes the election of x two rounds after it or more, but never four, eight, twelve and so on, and
      exactly when more than two thirds of the peers of its own round cast the same vote among those it counts. */
  lemma DecidesExactly(ps: PeerSets, y: Event, x: Event)
    ensures Decides(ps, y, x) <==>
              && Round(ps, y) >= Round(ps, x) + 2 && (Round(ps, y) - Round(ps, x)) % 4 != 0
              && exists v :: Majority(ps, y, x) == v && 3 * |Supporters(ps, y, x, v)| > 2 * |ps(Round(ps, y))|
  {
    hide Round, Supporters;
  }

  lemma NeverDecidesInFour(ps: PeerSets, y: Event, x: Event, k: nat)
    requires k > 0 && Round(ps, y) == Round(ps, x) + 4 * k
    ensures !Decides(ps, y, x)
  {
    hide Round, Tally;
  }

  /** The vote, in numbers: what is seen after one round; then the greater number of votes, a tie being a yes; every
      fourth round the coin, unless more than two thirds of the round's peers agree. */
  lemma VoteInNumbers(ps: PeerSets, y: Event, x: Event)
    ensures var yes, no := |Supporters(ps, y, x, true)|, |Supporters(ps, y, x, false)|;
            Vote(ps, y, x) ==
            if Round(ps, y) <= Round(ps, x) + 1 then x in Ancestors(y)
            else if (Round(ps, y) - Round(ps, x)) % 4 == 0 && 3 * yes <= 2 * |ps(Round(ps, y))| &&
                    3 * no <= 2 * |ps(Round(ps, y))|
            then MiddleBit(y)
            else yes >= no
  {
    hide Round, Supporters, Vote;
    VoteUnfolded(ps, y, x);
  }

  // ----- Which peer-set histories are safe to vote under

  /** Votes of round j-1 are counted against the threshold of round j. */
  ghost predicate SafeStep(ps: PeerSets, r: nat, j: nat)
    requires j > 0
  {
    && 2 * Threshold(ps(j)) + Threshold(ps(j - 1)) > 2 * |ps(j - 1)|
    && (CoinRound(j - r) ==> Threshold(ps(j)) <= Threshold(ps(j - 1)))
  }

  /** Every step of the elections of round r is safe. */
  ghost predicate SafeElection(ps: PeerSets, r: nat) {
    forall j: nat :: j >= r + 2 ==> SafeStep(ps, r, j)
  }

  /** A peer-set that does not change makes every election safe. */
  lemma {:induction false} FixedPeersAreSafe(ps: PeerSets, peers: set<Peer>, r: nat)
    requires forall j: nat :: ps(j) == peers
    ensures SafeElection(ps, r)
  {
  }

  // ----- Counting

  lemma {:induction false} MajorityIs(ps: PeerSets, y: Event, x: Event, v: bool)
    requires |Supporters(ps, y, x, v)| > |Supporters(ps, y, x, !v)|
    ensures Majority(ps, y, x) == v
  {
  }

  lemma {:induction false} SupportersPartition(ps: PeerSets, y: Event, x: Event, v: bool)
    ensures Supporters(ps, y, x, v) !! Supporters(ps, y, x, !v)
    ensures Supporters(ps, y, x, v) + Supporters(ps, y, x, !v) == Electors(ps, y)
    ensures |Supporters(ps, y, x, v)| + |Supporters(ps, y, x, !v)| == |Electors(ps, y)|
  {
    hide Round, Vote, Electors;
    var a, b := Supporters(ps, y, x, v), Supporters(ps, y, x, !v);
    assert a + b == Electors(ps, y);
    assert |a + b| == |a| + |b|;
  }

  /** The heart of agreement: if a set of round j-1 witnesses as large as the round j
      threshold votes v, then v is the majority seen by every event of round j. */
  lemma {:induction false} VotesTransfer(ps: PeerSets, V: set<Event>, x: Event, y: Event, v: bool, A: set<Event>)
    requires View(V) && y in V && Round(ps, y) > 0
    requires A <= WitnessesIn(ps, V, Round(ps, y) - 1)
    requires forall w :: w in A ==> Vote(ps, w, x) == v
    requires 2 * |A| + Threshold(ps(Round(ps, y) - 1)) > 2 * |ps(Round(ps, y) - 1)|
    ensures Majority(ps, y, x) == v
  {
    hide Round, Witness, Vote, Electors, View, Majority;
    var W := WitnessesIn(ps, V, Round(ps, y) - 1);
    var B := Electors(ps, y);
    ElectorsAreQuorum(ps, V, y);
    WitnessCount(ps, V, Round(ps, y) - 1);
    Overlap(A, B, W);
    SubsetSize(A * B, Supporters(ps, y, x, v));
    SubsetSize(Supporters(ps, y, x, !v), W - A);
    assert |W - A| == |W| - |A|;
    MajorityIs(ps, y, x, v);
  }

  // ----- Unanimity

  ghost predicate Unanimous(ps: PeerSets, V: set<Event>, x: Event, j: nat, v: bool) {
    forall w :: w in WitnessesIn(ps, V, j) ==> Vote(ps, w, x) == v
  }

  /** After a unanimous round, everybody counts only that vote, and enough of it. */
  lemma {:induction false} UnanimousCount(ps: PeerSets, V: set<Event>, x: Event, y: Event, v: bool)
    requires View(V) && y in V && Round(ps, y) > 0
    requires Unanimous(ps, V, x, Round(ps, y) - 1, v)
    ensures Majority(ps, y, x) == v && Tally(ps, y, x) >= Threshold(ps(Round(ps, y) - 1))
  {
    hide Round, Witness, Vote, Electors;
    ElectorsAreQuorum(ps, V, y);
    assert Supporters(ps, y, x, v) == Electors(ps, y);
    assert Supporters(ps, y, x, !v) == {};
    MajorityIs(ps, y, x, v);
  }

  /** A unanimous vote is taken over, except exactly where a coin round asks for more votes than are counted and the
      coin falls on the other side. */
  lemma {:induction false} CoinOverturns(ps: PeerSets, V: set<Event>, x: Event, y: Event, v: bool)
    requires View(V) && y in V && Round(ps, y) >= Round(ps, x) + 2 && Unanimous(ps, V, x, Round(ps, y) - 1, v)
    ensures Vote(ps, y, x) != v <==>
              && CoinRound(Round(ps, y) - Round(ps, x)) && |Electors(ps, y)| < Threshold(ps(Round(ps, y)))
              && MiddleBit(y) != v
  {
    hide Round, Witness, Vote, Electors;
    VoteUnfolded(ps, y, x);
    UnanimousCount(ps, V, x, y, v);
    ElectorsAreQuorum(ps, V, y);
    assert Supporters(ps, y, x, v) == Electors(ps, y);
  }

  lemma {:induction false} UnanimousVote(ps: PeerSets, V: set<Event>, x: Event, y: Event, v: bool)
    requires View(V) && y in V && Round(ps, y) >= Round(ps, x) + 2
    requires SafeStep(ps, Round(ps, x), Round(ps, y))
    requires Unanimous(ps, V, x, Round(ps, y) - 1, v)
    ensures Vote(ps, y, x) == v
  {
    hide Round, Witness, Vote, Majority, Tally;
    VoteUnfolded(ps, y, x);
    UnanimousCount(ps, V, x, y, v);
  }

  /** Unanimity lasts, through coin rounds too. */
  lemma {:induction false} UnanimityLasts(ps: PeerSets, V: set<Event>, x: Event, j: nat, k: nat, v: bool)
    requires View(V) && SafeElection(ps, Round(ps, x))
    requires Round(ps, x) < j <= k && Unanimous(ps, V, x, j, v)
    ensures Unanimous(ps, V, x, k, v)
    decreases k - j
  {
    hide Round, Witness, Vote;
    if j < k {
      forall y | y in WitnessesIn(ps, V, j + 1)
        ensures Vote(ps, y, x) == v
      {
        assert SafeStep(ps, Round(ps, x), j + 1);
        UnanimousVote(ps, V, x, y, v);
      }
      UnanimityLasts(ps, V, x, j + 1, k, v);
    }
  }

  /** Once y decides, all witnesses of its round and of every later round vote that value. */
  lemma {:induction false} DecisionBinds(ps: PeerSets, V: set<Event>, x: Event, y: Event, k: nat)
    requires View(V) && y in V && Decides(ps, y, x) && k >= Round(ps, y)
    requires SafeElection(ps, Round(ps, x))
    ensures Unanimous(ps, V, x, k, Majority(ps, y, x))
  {
    hide Round, Witness, Vote, Majority, Tally;
    var j, v := Round(ps, y), Majority(ps, y, x);
    forall y' | y' in WitnessesIn(ps, V, j)
      ensures Vote(ps, y', x) == v
    {
      DecisionSpreads(ps, V, x, y, y');
      VoteUnfolded(ps, y', x);
    }
    UnanimityLasts(ps, V, x, j, k, v);
  }

  lemma {:induction false} DecisionSpreads(ps: PeerSets, V: set<Event>, x: Event, y: Event, y': Event)
    requires View(V) && y in V && y' in V && Decides(ps, y, x) && Round(ps, y') == Round(ps, y)
    requires SafeElection(ps, Round(ps, x))
    ensures Majority(ps, y', x) == Majority(ps, y, x)
  {
    hide Round, Witness, Vote, Electors, Majority;
    assert SafeStep(ps, Round(ps, x), Round(ps, y));
    ElectorsAreQuorum(ps, V, y);
    VotesTransfer(ps, V, x, y', Majority(ps, y, x), Supporters(ps, y, x, Majority(ps, y, x)));
  }

  /** Fame agreement: whichever events close the election of x, in whichever rounds,
      they close it with the same value. */
  lemma {:induction false} FameAgreement(ps: PeerSets, V: set<Event>, x: Event, y: Event, y': Event)
    requires View(V) && y in V && y' in V
    requires Decides(ps, y, x) && Decides(ps, y', x)
    requires SafeElection(ps, Round(ps, x))
    ensures Majority(ps, y, x) == Majority(ps, y', x)
  {
    hide Round, Witness, Vote, Majority, Tally;
    if Round(ps, y) == Round(ps, y') {
      DecisionSpreads(ps, V, x, y, y');
    } else if Round(ps, y) < Round(ps, y') {
      DecisionBinds(ps, V, x, y, Round(ps, y') - 1);
      UnanimousCount(ps, V, x, y', Majority(ps, y, x));
    } else {
      DecisionBinds(ps, V, x, y', Round(ps, y) - 1);
      UnanimousCount(ps, V, x, y, Majority(ps, y', x));
    }
  }

  // ----- Decided rounds and their famous witnesses

  /** Some witness of V closes the election of x with value v. */
  ghost predicate FameDecided(ps: PeerSets, V: set<Event>, x: Event, v: bool) {
    exists y :: y in V && Witness(ps, y) && Decides(ps, y, x) && Majority(ps, y, x) == v
  }

  ghost function FamousWitnesses(ps: PeerSets, V: set<Event>, r: nat): set<Event> {
    set x | x in WitnessesIn(ps, V, r) && FameDecided(ps, V, x, true)
  }

  /** All the witnesses of round r in V are decided, and they are a super-majority. */
  ghost predicate RoundDecided(ps: PeerSets, V: set<Event>, r: nat) {
    && |WitnessesIn(ps, V, r)| >= Threshold(ps(r))
    && forall x :: x in WitnessesIn(ps, V, r) ==> FameDecided(ps, V, x, true) || FameDecided(ps, V, x, false)
  }

  /** A round is decided when more than two thirds of its peers have a known witness, and no known witness is
      undecided. */
  lemma RoundDecidedExactly(ps: PeerSets, V: set<Event>, r: nat)
    ensures RoundDecided(ps, V, r) <==>
              && 3 * |WitnessesIn(ps, V, r)| > 2 * |ps(r)|
              && !exists x :: x in WitnessesIn(ps, V, r) && forall y :: y in V && Witness(ps, y) ==> !Decides(ps, y, x)
  {
    hide Round, Witness, Majority, Decides;
    forall x | x in WitnessesIn(ps, V, r)
      ensures FameDecided(ps, V, x, true) || FameDecided(ps, V, x, false) <==>
              exists y :: y in V && Witness(ps, y) && Decides(ps, y, x)
    {
      if y :| y in V && Witness(ps, y) && Decides(ps, y, x) {
        assert Majority(ps, y, x) == Majority(ps, y, x);
      }
    }
  }

  /** A witness that was not known when its round was decided is never voted famous. */
  lemma {:induction false} LateWitnessNotFamous(ps: PeerSets, V0: set<Event>, V: set<Event>, r: nat, z: Event)
    requires View(V0) && View(V) && V0 <= V && RoundDecided(ps, V0, r)
    requires z in WitnessesIn(ps, V, r) && z !in V0
    requires SafeElection(ps, r)
    ensures !FameDecided(ps, V, z, true)
  {
    hide Round, Witness, Vote, Majority, Tally;
    LateWitnessRejected(ps, V0, V, r, z);
    forall y | y in V && Decides(ps, y, z)
      ensures !Majority(ps, y, z)
    {
      if Round(ps, y) > r + 2 {
        UnanimityLasts(ps, V, z, r + 2, Round(ps, y) - 1, false);
        UnanimousCount(ps, V, z, y, false);
      } else {
        LateWitnessMajority(ps, V0, V, r, z, y);
      }
    }
  }

  /** A round r+2 event known when round r was decided. */
  lemma {:induction false} DecidingEvent(ps: PeerSets, V: set<Event>, r: nat) returns (u: Event)
    requires View(V) && RoundDecided(ps, V, r)
    ensures u in V && Round(ps, u) == r + 2
  {
    hide Round, Witness, Vote, Majority, Tally;
    var x := Pick(WitnessesIn(ps, V, r));
    assert Round(ps, x) == r;
    var y :| y in V && Decides(ps, y, x) && Round(ps, y) >= Round(ps, x) + 2;
    u := AtRound(ps, V, y, r + 2);
  }

  lemma {:induction false} AtRound(ps: PeerSets, V: set<Event>, y: Event, k: nat) returns (u: Event)
    requires View(V) && y in V && k <= Round(ps, y)
    ensures u in V && Round(ps, u) == k
    decreases Round(ps, y)
  {
    hide Round, Witness;
    u := y;
    if k < Round(ps, y) {
      ElectorsAreQuorum(ps, V, y);
      var w := Pick(Electors(ps, y));
      assert w in WitnessesIn(ps, V, Round(ps, y) - 1);
      u := AtRound(ps, V, w, k);
    }
  }

  lemma {:induction false} LateWitnessMajority(ps: PeerSets, V0: set<Event>, V: set<Event>, r: nat, z: Event, y: Event)
    requires View(V0) && View(V) && V0 <= V && RoundDecided(ps, V0, r)
    requires z in WitnessesIn(ps, V, r) && z !in V0
    requires y in V && Round(ps, y) == r + 2
    ensures !Majority(ps, y, z)
  {
    hide Round, Witness, Vote, Majority;
    var u := DecidingEvent(ps, V0, r);
    ElectorsAreQuorum(ps, V0, u);
    var A := Electors(ps, u);
    forall w | w in A
      ensures !Vote(ps, w, z)
    {
      BlindVote(ps, V0, w, z);
    }
    VotesTransfer(ps, V, z, y, false, A);
  }

  /** A witness of the first voting round votes no on an event it cannot see. */
  lemma {:induction false} BlindVote(ps: PeerSets, V: set<Event>, w: Event, z: Event)
    requires View(V) && w in V && z !in V && Round(ps, w) == Round(ps, z) + 1
    ensures !Vote(ps, w, z)
  {
    VoteUnfolded(ps, w, z);
    AncestorsInside(V, w);
  }

  lemma {:induction false} LateWitnessRejected(ps: PeerSets, V0: set<Event>, V: set<Event>, r: nat, z: Event)
    requires View(V0) && View(V) && V0 <= V && RoundDecided(ps, V0, r)
    requires z in WitnessesIn(ps, V, r) && z !in V0
    requires SafeElection(ps, r)
    ensures Unanimous(ps, V, z, r + 2, false)
  {
    hide Round, Witness, Vote, Majority, Tally;
    forall y | y in WitnessesIn(ps, V, r + 2)
      ensures !Vote(ps, y, z)
    {
      LateWitnessMajority(ps, V0, V, r, z, y);
      VoteUnfolded(ps, y, z);
    }
  }

  /** Frozen famous set: once a round is decided its famous witnesses never change. */
  lemma {:induction false} FamousFrozen(ps: PeerSets, V0: set<Event>, V: set<Event>, r: nat)
    requires View(V0) && View(V) && V0 <= V && RoundDecided(ps, V0, r)
    requires SafeElection(ps, r)
    ensures FamousWitnesses(ps, V, r) == FamousWitnesses(ps, V0, r)
  {
    hide Round, Witness, Vote, Majority, Tally;
    forall x | x in FamousWitnesses(ps, V, r)
      ensures x in FamousWitnesses(ps, V0, r)
    {
      if x !in V0 {
        LateWitnessNotFamous(ps, V0, V, r, x);
      } else if FameDecided(ps, V0, x, false) {
        var y :| y in V0 && Witness(ps, y) && Decides(ps, y, x) && !Majority(ps, y, x);
        var y' :| y' in V && Witness(ps, y') && Decides(ps, y', x) && Majority(ps, y', x);
        FameAgreement(ps, V, x, y, y');
      }
    }
    assert FamousWitnesses(ps, V0, r) <= FamousWitnesses(ps, V, r);
  }

  /** Two views that both decided a round have the same famous witnesses in it. */
  lemma {:induction false} FamousAgreement(ps: PeerSets, V1: set<Event>, V2: set<Event>, r: nat)
    requires View(V1) && View(V2) && View(V1 + V2)
    requires RoundDecided(ps, V1, r) && RoundDecided(ps, V2, r)
    requires SafeElection(ps, r)
    ensures FamousWitnesses(ps, V1, r) == FamousWitnesses(ps, V2, r)
  {
    FamousFrozen(ps, V1, V1 + V2, r);
    FamousFrozen(ps, V2, V1 + V2, r);
  }

  // ----- The map of votes filled in while deciding fame

  /** (y, x) => the vote of y on the fame of x */
  type Votes = map<(Event, Event), bool>

  ghost predicate VotesSound(ps: PeerSets, votes: Votes) {
    forall k :: k in votes ==> votes[k] == Vote(ps, k.0, k.1)
  }

  /** All the witnesses of V in round j have a vote on x. */
  ghost predicate Voted(ps: PeerSets, V: set<Event>, votes: Votes, x: Event, j: nat) {
    forall y :: y in WitnessesIn(ps, V, j) ==> (y, x) in votes
  }

  ghost predicate Undecided(ps: PeerSets, V: set<Event>, x: Event, j: nat) {
    forall y :: y in WitnessesIn(ps, V, j) ==> !Decides(ps, y, x)
  }

  /** The witnesses that y strongly sees among the known ones of the round before are its electors. */
  lemma ElectorsAmong(ps: PeerSets, V: set<Event>, y: Event, j: nat)
    requires View(V) && y in V && Round(ps, y) == j + 1
    ensures (set w | w in WitnessesIn(ps, V, j) && FastSees(ps, y, w, ps(j))) == Electors(ps, y)
  {
    hide Witness, FastSees;
    forall w
      ensures w in WitnessesIn(ps, V, j) && FastSees(ps, y, w, ps(j)) <==> w in Electors(ps, y)
    {
      if w in V && Round(ps, w) == j && FastSees(ps, y, w, ps(j)) {
        FastSeesSound(ps, y, w, ps(j));
      }
      AncestorsInside(V, y);
    }
  }

  /** Counting the recorded votes of the electors counts their votes. */
  lemma CountedSupporters(ps: PeerSets, y: Event, x: Event, votes: Votes, v: bool)
    requires VotesSound(ps, votes) && forall w :: w in Electors(ps, y) ==> (w, x) in votes
    ensures (set w | w in Electors(ps, y) && votes[(w, x)] == v) == Supporters(ps, y, x, v)
  {
    hide Vote, Electors;
  }
}
