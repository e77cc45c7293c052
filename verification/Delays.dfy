/** Why a change of the peer-set waits six rounds: rounds, votes and frames only look at the peer-sets of
    the rounds they reach (processAcceptedInternalTransactions in src/node/core.go, docs/dynamic_membership.rst). */
module Delays {
  import opened Events
  import opened Quorum
  import opened Rounds
  import opened Voting
  import opened Received
  import opened Ledger
  import opened PeerHistory
  import opened Medians
  import Fronts
  import Stalemate

  /** Two histories of peer-sets are the same up to round k. */
  ghost predicate AgreeTo(p: PeerSets, q: PeerSets, k: nat) {
    forall j: nat :: j <= k ==> p(j) == q(j)
  }

  // ----- Rounds and votes

  /** Then they give the events of rounds up to k the same round. */
  lemma {:induction false} RoundLocal(p: PeerSets, q: PeerSets, k: nat, x: Event)
    requires AgreeTo(p, q, k) && Round(p, x) <= k
    ensures Round(q, x) == Round(p, x) && (Witness(q, x) <==> Witness(p, x))
    decreases Lamport(x)
  {
    hide Round, StronglySees;
    LamportGrows(x);
    forall y | y in Parents(x)
      ensures Round(q, y) == Round(p, y)
    {
      ParentBelow(x, y);
      RoundMonotone(p, x, y);
      RoundLocal(p, q, k, y);
    }
    ParentsLocal(p, q, x);
    RoundUnfolded(p, x);
    RoundUnfolded(q, x);
    var r := ParentRound(p, x);
    if r >= 0 {
      forall w | w in ProperAncestors(x)
        ensures w in StronglySeen(p, x, r) <==> w in StronglySeen(q, x, r)
      {
        if Round(p, w) == r { RoundLocal(p, q, k, w); }
        if Round(q, w) == r { RoundLocal(q, p, k, w); }
      }
      assert StronglySeen(p, x, r) == StronglySeen(q, x, r);
    }
  }

  lemma ParentsLocal(p: PeerSets, q: PeerSets, x: Event)
    requires forall y :: y in Parents(x) ==> Round(q, y) == Round(p, y)
    ensures ParentRound(q, x) == ParentRound(p, x)
    ensures x.selfParent.Some? ==> Round(q, x.selfParent.value) == Round(p, x.selfParent.value)
  {
    hide Round;
  }

  lemma BelowLocal(p: PeerSets, q: PeerSets, k: nat, y: Event)
    requires AgreeTo(p, q, k) && Round(p, y) <= k
    ensures forall x :: x in Ancestors(y) ==>
            Round(p, x) <= k && Round(q, x) == Round(p, x) && (Witness(q, x) <==> Witness(p, x))
  {
    hide Round, Witness;
    forall x | x in Ancestors(y)
      ensures Round(p, x) <= k && Round(q, x) == Round(p, x) && (Witness(q, x) <==> Witness(p, x))
    {
      RoundMonotone(p, y, x);
      RoundLocal(p, q, k, x);
    }
  }

  lemma ElectorsLocal(p: PeerSets, q: PeerSets, k: nat, y: Event)
    requires AgreeTo(p, q, k) && Round(p, y) <= k
    ensures Electors(q, y) == Electors(p, y)
  {
    hide Round, Witness, FastSees;
    BelowLocal(p, q, k, y);
    forall w | w in ProperAncestors(y)
      ensures w in Electors(q, y) <==> w in Electors(p, y)
    {
      FastSeesLocal(p, q, y, w, p(Round(p, w)));
    }
  }

  lemma FastSeesLocal(p: PeerSets, q: PeerSets, y: Event, w: Event, peers: set<Peer>)
    requires forall x :: x in Ancestors(y) ==> (Witness(q, x) <==> Witness(p, x))
    ensures FastSees(q, y, w, peers) <==> FastSees(p, y, w, peers)
  {
    hide Witness;
    forall e | e in Ancestors(y)
      ensures Reaches(q, e, w) <==> Reaches(p, e, w)
    {
      AncestorsTransitive(y, e);
    }
    assert Linked(q, y, w) == Linked(p, y, w);
  }

  lemma {:induction false} VoteLocal(p: PeerSets, q: PeerSets, k: nat, y: Event, x: Event)
    requires AgreeTo(p, q, k) && Round(p, y) <= k && Round(p, x) <= k
    ensures Vote(q, y, x) == Vote(p, y, x)
    ensures Majority(q, y, x) == Majority(p, y, x) && (Decides(q, y, x) <==> Decides(p, y, x))
    decreases Lamport(y)
  {
    hide Round, Vote, Electors;
    LamportGrows(y);
    RoundLocal(p, q, k, y);
    RoundLocal(p, q, k, x);
    ElectorsLocal(p, q, k, y);
    ElectorsBelow(p, y);
    forall w | w in Electors(p, y)
      ensures Vote(q, w, x) == Vote(p, w, x)
    {
      VoteLocal(p, q, k, w, x);
    }
    assert Supporters(q, y, x, true) == Supporters(p, y, x, true);
    assert Supporters(q, y, x, false) == Supporters(p, y, x, false);
    VoteUnfolded(p, y, x);
    VoteUnfolded(q, y, x);
  }

  lemma ElectorsBelow(p: PeerSets, y: Event)
    ensures forall w :: w in Electors(p, y) ==> w in Ancestors(y) && w != y && Round(p, w) < Round(p, y)
  {
    hide Round, Witness, FastSees;
  }

  // ----- Fame, in a view of rounds up to k

  lemma FameLocal(p: PeerSets, q: PeerSets, k: nat, U: set<Event>, x: Event, v: bool)
    requires AgreeTo(p, q, k) && UpTo(p, U, k) && x in U
    ensures FameDecided(q, U, x, v) <==> FameDecided(p, U, x, v)
  {
    hide Round, Witness, Decides, Majority;
    forall y | y in U
      ensures (Witness(q, y) <==> Witness(p, y)) && (Decides(q, y, x) <==> Decides(p, y, x))
              && Majority(q, y, x) == Majority(p, y, x)
    {
      RoundLocal(p, q, k, y);
      VoteLocal(p, q, k, y, x);
    }
  }

  lemma FamousLocal(p: PeerSets, q: PeerSets, k: nat, U: set<Event>, i: nat)
    requires AgreeTo(p, q, k) && UpTo(p, U, k) && i <= k
    ensures WitnessesIn(q, U, i) == WitnessesIn(p, U, i) && FamousWitnesses(q, U, i) == FamousWitnesses(p, U, i)
    ensures RoundDecided(q, U, i) <==> RoundDecided(p, U, i)
  {
    hide Round, Witness, FameDecided;
    forall x | x in U
      ensures Round(q, x) == Round(p, x) && (Witness(q, x) <==> Witness(p, x))
      ensures FameDecided(q, U, x, true) <==> FameDecided(p, U, x, true)
      ensures FameDecided(q, U, x, false) <==> FameDecided(p, U, x, false)
    {
      RoundLocal(p, q, k, x);
      FameLocal(p, q, k, U, x, true);
      FameLocal(p, q, k, U, x, false);
    }
    assert WitnessesIn(q, U, i) == WitnessesIn(p, U, i);
    assert FamousWitnesses(q, U, i) == FamousWitnesses(p, U, i);
  }

  // ----- Elections that end within d rounds

  /** Round r was decided at some time by events of rounds up to r + d. */
  ghost predicate Timely(p: PeerSets, V: set<Event>, r: nat, d: nat) {
    Frozen(p, Part(p, V, r + d), r)
  }

  /** The steps of the first d rounds of every election are safe. */
  ghost predicate SafeWithin(p: PeerSets, d: nat) {
    forall r: nat, j: nat :: r + 2 <= j <= r + d ==> SafeStep(p, r, j)
  }

  lemma SafeHistoryWithin(p: PeerSets, d: nat)
    requires SafeHistory(p)
    ensures SafeWithin(p, d)
  {
    forall r: nat, j: nat | r + 2 <= j <= r + d
      ensures SafeStep(p, r, j)
    {
      assert SafeElection(p, r);
    }
  }

  /** The first three rounds of an election have no coin round: it is enough that the peers of the next round
      out-vote. When peers only join, they do. */
  lemma JoinsAreSafe(p: PeerSets)
    requires forall j: nat :: |p(j)| <= |p(j + 1)|
    ensures SafeWithin(p, 3)
  {
    forall r: nat, j: nat | r + 2 <= j <= r + 3
      ensures SafeStep(p, r, j)
    {
      assert |p(j - 1)| <= |p(j - 1 + 1)|;
    }
  }

  /** When one of n peers leaves, the step is safe if and only if n leaves no remainder of two. */
  lemma LeavingIsSafe(p: PeerSets, r: nat, j: nat)
    requires r + 2 <= j <= r + 3 && |p(j)| + 1 == |p(j - 1)|
    ensures SafeStep(p, r, j) <==> |p(j - 1)| % 3 != 2
  {
  }

  /** The history that stays as it is at round k. */
  ghost function Capped(p: PeerSets, k: nat): PeerSets {
    (j: nat) => if j <= k then p(j) else p(k)
  }

  lemma CappedIsSafe(p: PeerSets, r: nat, d: nat)
    requires SafeWithin(p, d) && d >= 2
    ensures SafeElection(Capped(p, r + d), r) && AgreeTo(p, Capped(p, r + d), r + d)
  {
    var c := Capped(p, r + d);
    forall j: nat | j >= r + 2
      ensures SafeStep(c, r, j)
    {
      if j <= r + d { assert SafeStep(p, r, j); }
    }
  }

  lemma UnionView(U: set<Event>, U': set<Event>, V: set<Event>)
    requires View(U) && View(U') && View(V) && U <= V && U' <= V
    ensures View(U + U')
  {
    forall x, y | x in U + U' && y in Parents(x)
      ensures y in U + U'
    {
    }
  }

  lemma DecisionTakesTwo(p: PeerSets, U: set<Event>, r: nat, d: nat)
    requires View(U) && UpTo(p, U, r + d) && RoundDecided(p, U, r)
    ensures d >= 2
  {
    hide Round, RoundDecided, View;
    var u := DecidingEvent(p, U, r);
  }

  /** What a node recorded for round r: the famous witnesses of a view in which the round was decided, made of events
      of rounds up to r + d. */
  ghost predicate RecordedInTime(p: PeerSets, V: set<Event>, ws: set<Event>, r: nat, d: nat) {
    exists U :: U <= Part(p, V, r + d) && View(U) && RoundDecided(p, U, r) && ws == FamousWitnesses(p, U, r)
  }

  /** Two nodes whose peer-sets agree up to round r + d, and that both decided round r by events of rounds up to there,
      recorded the same famous witnesses, whatever happens to the peer-sets later. */
  lemma FameConverges(p: PeerSets, V: set<Event>, ws: set<Event>, q: PeerSets, W: set<Event>, ws': set<Event>,
                      r: nat, d: nat)
    requires SafeWithin(p, d) && AgreeTo(p, q, r + d) && View(V) && View(W) && View(V + W)
    requires RecordedInTime(p, V, ws, r, d) && RecordedInTime(q, W, ws', r, d)
    ensures ws == ws'
  {
    hide Round, RoundDecided, FamousWitnesses, View, SafeElection, SafeWithin;
    var U :| U <= Part(p, V, r + d) && View(U) && RoundDecided(p, U, r) && ws == FamousWitnesses(p, U, r);
    var U' :| U' <= Part(q, W, r + d) && View(U') && RoundDecided(q, U', r) && ws' == FamousWitnesses(q, U', r);
    DecisionTakesTwo(p, U, r, d);
    CappedIsSafe(p, r, d);
    var c := Capped(p, r + d);
    FamousLocal(p, c, r + d, U, r);
    FamousLocal(q, c, r + d, U', r);
    UnionView(U, U', V + W);
    FamousAgreement(c, U, U', r);
  }

  /** What is recorded in time are the famous witnesses by all the events of rounds up to r + d that the node ever
      learns of. */
  lemma RecordedIsRight(p: PeerSets, V: set<Event>, ws: set<Event>, r: nat, d: nat)
    requires SafeWithin(p, d) && View(V) && RecordedInTime(p, V, ws, r, d)
    ensures ws == FamousWitnesses(p, Part(p, V, r + d), r)
  {
    hide Round, RoundDecided, FamousWitnesses, View, SafeElection, SafeWithin;
    var U :| U <= Part(p, V, r + d) && View(U) && RoundDecided(p, U, r) && ws == FamousWitnesses(p, U, r);
    var c, P := Capped(p, r + d), Part(p, V, r + d);
    DecisionTakesTwo(p, U, r, d);
    CappedIsSafe(p, r, d);
    PartView(p, V, r + d);
    FamousLocal(p, c, r + d, U, r);
    FamousLocal(p, c, r + d, P, r);
    FamousFrozen(c, U, P, r);
  }

  // ----- The frames that follow from the recorded witnesses

  ghost predicate SeenByAll(p: PeerSets, ws: set<Event>, x: Event, i: nat) {
    |ws| >= Threshold(p(i)) && forall w :: w in ws ==> x in Ancestors(w)
  }

  /** x is received in round i, by the famous witnesses recorded for the rounds up to i. */
  ghost predicate ReceivedBy(p: PeerSets, fame: seq<set<Event>>, x: Event, i: nat)
    requires i < |fame|
  {
    && Round(p, x) < i && SeenByAll(p, fame[i], x, i)
    && forall k :: Round(p, x) < k < i ==> !SeenByAll(p, fame[k], x, k)
  }

  /** f is the frame of round i, by the famous witnesses recorded for the rounds up to i. */
  ghost predicate FrameBy(p: PeerSets, fame: seq<set<Event>>, i: nat, f: Frame)
    requires i < |fame|
  {
    && f.round == i && f.peers == p(i) && Ordered(f.events)
    && (forall e :: e in f.events ==> IsFrameEvent(p, e))
    && (forall x :: ReceivedBy(p, fame, x, i) <==> exists e :: e in f.events && e.core == x)
    && IsMedian(Timestamps(fame[i]), f.timestamp)
  }

  /** The frames of a node that recorded the famous witnesses of every round it processed within d rounds. */
  ghost predicate TimelyLog(p: PeerSets, V: set<Event>, d: nat, fame: seq<set<Event>>, f: seq<Frame>) {
    |fame| == |f| && forall i: nat :: i < |f| ==> RecordedInTime(p, V, fame[i], i, d) && FrameBy(p, fame, i, f[i])
  }

  /** Under a safe history the log of a view is such a log, if the rounds were decided within d rounds. */
  lemma LogIsTimely(p: PeerSets, V: set<Event>, D: set<nat>, f: seq<Frame>, d: nat) returns (fame: seq<set<Event>>)
    requires SafeHistory(p) && View(V) && IsLog(p, V, D, f) && forall i: nat :: i < |f| ==> Timely(p, V, i, d)
    ensures TimelyLog(p, V, d, fame, f)
  {
    hide SafeHistory, View, IsFrame, Timely, FrameBy, FamousWitnesses, RecordedInTime;
    fame := seq(|f|, i requires 0 <= i < |f| => FamousWitnesses(p, V, i));
    forall i: nat | i < |f|
      ensures RecordedInTime(p, V, fame[i], i, d) && FrameBy(p, fame, i, f[i])
    {
      FameRecorded(p, V, i, d);
      FrameIsBy(p, V, D, i, f[i], fame);
    }
  }

  lemma FameRecorded(p: PeerSets, V: set<Event>, i: nat, d: nat)
    requires SafeHistory(p) && View(V) && Timely(p, V, i, d)
    ensures RecordedInTime(p, V, FamousWitnesses(p, V, i), i, d)
  {
    hide Round, RoundDecided, FamousWitnesses, View, SafeElection;
    assert SafeElection(p, i);
    var U :| U <= Part(p, V, i + d) && View(U) && RoundDecided(p, U, i);
    FamousFrozen(p, U, V, i);
  }

  lemma FrameIsBy(p: PeerSets, V: set<Event>, D: set<nat>, i: nat, f: Frame, fame: seq<set<Event>>)
    requires View(V) && IsFrame(p, V, D, i, f) && (forall k :: 0 <= k <= i ==> k in D)
    requires i < |fame| && forall k: nat :: k <= i ==> fame[k] == FamousWitnesses(p, V, k)
    ensures FrameBy(p, fame, i, f)
  {
    hide Round, View, FamousWitnesses, Ordered, IsFrameEvent;
    forall x
      ensures ReceivedBy(p, fame, x, i) <==> x in ReceivedEvents(p, V, D, i)
    {
      ReceivedIsBy(p, V, D, fame, x, i);
    }
  }

  lemma ReceivedIsBy(p: PeerSets, V: set<Event>, D: set<nat>, fame: seq<set<Event>>, x: Event, i: nat)
    requires View(V) && (forall k :: 0 <= k <= i ==> k in D)
    requires i < |fame| && forall k: nat :: k <= i ==> fame[k] == FamousWitnesses(p, V, k)
    ensures ReceivedBy(p, fame, x, i) <==> x in ReceivedEvents(p, V, D, i)
  {
    hide Round, View, FamousWitnesses, Ancestors;
    forall k: nat | k <= i
      ensures SeenByAll(p, fame[k], x, k) <==> SeenByFamous(p, V, x, k)
    {
    }
    if SeenByFamous(p, V, x, i) { SeenIsKnown(p, V, x, i); }
  }

  /** The same famous witnesses give the same frame. */
  lemma FrameConverges(p: PeerSets, fame: seq<set<Event>>, f: Frame, q: PeerSets, fame': seq<set<Event>>, g: Frame,
                       i: nat)
    requires AgreeTo(p, q, i) && i < |fame| && i < |fame'| && FrameBy(p, fame, i, f) && FrameBy(q, fame', i, g)
    requires forall k: nat :: k <= i ==> fame[k] == fame'[k]
    ensures SameContents(f, g)
  {
    hide Round, Witness, Ordered, Ancestors;
    forall x
      ensures ReceivedBy(p, fame, x, i) <==> ReceivedBy(q, fame', x, i)
    {
      ReceivedConverges(p, fame, q, fame', x, i);
    }
    MedianUnique(Timestamps(fame[i]), f.timestamp, g.timestamp);
    forall e
      ensures e in f.events <==> e in g.events
    {
      EventConverges(p, fame, f, q, fame', g, i, e);
      EventConverges(q, fame', g, p, fame, f, i, e);
    }
    OrderUnique(f.events, g.events);
  }

  lemma ReceivedConverges(p: PeerSets, fame: seq<set<Event>>, q: PeerSets, fame': seq<set<Event>>, x: Event, i: nat)
    requires AgreeTo(p, q, i) && i < |fame| && i < |fame'| && forall k: nat :: k <= i ==> fame[k] == fame'[k]
    ensures ReceivedBy(p, fame, x, i) <==> ReceivedBy(q, fame', x, i)
  {
    hide Round, Ancestors;
    if Round(p, x) <= i { RoundLocal(p, q, i, x); }
    if Round(q, x) <= i { RoundLocal(q, p, i, x); }
  }

  lemma EventConverges(p: PeerSets, fame: seq<set<Event>>, f: Frame, q: PeerSets, fame': seq<set<Event>>, g: Frame,
                       i: nat, e: FrameEvent)
    requires AgreeTo(p, q, i) && i < |fame| && i < |fame'| && FrameBy(p, fame, i, f) && FrameBy(q, fame', i, g)
    requires forall x :: ReceivedBy(p, fame, x, i) <==> ReceivedBy(q, fame', x, i)
    ensures e in f.events ==> e in g.events
  {
    hide Round, Witness, Ordered, Lamport, SeenByAll;
    if e in f.events {
      assert ReceivedBy(p, fame, e.core, i);
      var e' :| e' in g.events && e'.core == e.core;
      RoundLocal(p, q, i, e.core);
    }
  }

  // ----- Peer-sets that come from the blocks

  /** The commits of a chain of blocks, given what the application answers to each. */
  ghost function CommitsOf(blocks: seq<BlockBody>, receipts: BlockBody -> seq<Receipt>): (cs: seq<Commit>)
    ensures |cs| == |blocks|
    ensures forall k :: 0 <= k < |blocks| ==> cs[k] == Commit(blocks[k].roundReceived, receipts(blocks[k]))
  {
    seq(|blocks|, k requires 0 <= k < |blocks| => Commit(blocks[k].roundReceived, receipts(blocks[k])))
  }

  /** The peer-set of every round is the one that the node's own blocks put in force. */
  ghost predicate Derived(p: PeerSets, genesis: set<Peer>, blocks: seq<BlockBody>,
                          receipts: BlockBody -> seq<Receipt>) {
    var h := HistoryAfter(genesis, CommitsOf(blocks, receipts));
    forall j: nat, r :: InForce(h, j, r) ==> p(j) == h[r]
  }

  lemma {:induction false} GreatestBelow(s: set<int>, round: int) returns (r: int)
    requires exists q :: q in s && q <= round
    ensures r in s && r <= round && forall q :: q in s && q <= round ==> q <= r
    decreases |s|
  {
    var x :| x in s && x <= round;
    r := x;
    if y :| y in s && x < y && y <= round {
      assert y in s - {x};
      r := GreatestBelow(s - {x}, round);
      assert x < r && forall q :: q in s ==> q == x || q in s - {x};
    }
  }

  /** Some entry is in force at every round. */
  lemma SomeInForce(h: History, round: nat) returns (r: int)
    requires 0 in h
    ensures InForce(h, round, r)
  {
    assert 0 in h.Keys;
    r := GreatestBelow(h.Keys, round);
  }

  ghost predicate Ascending(blocks: seq<BlockBody>) {
    forall i, j :: 0 <= i < j < |blocks| ==> blocks[i].roundReceived < blocks[j].roundReceived
  }

  /** Peer-sets derived from chains that share the blocks received up to a round agree six rounds further. */
  lemma DerivedAgree(p: PeerSets, b: seq<BlockBody>, q: PeerSets, b': seq<BlockBody>, genesis: set<Peer>,
                     receipts: BlockBody -> seq<Receipt>, n: nat, k: nat)
    requires Derived(p, genesis, b, receipts) && Derived(q, genesis, b', receipts) && Ascending(b) && Ascending(b')
    requires n <= |b| && n <= |b'| && b[..n] == b'[..n]
    requires forall i :: n <= i < |b| ==> b[i].roundReceived + EFFECTIVE_AFTER > k
    requires forall i :: n <= i < |b'| ==> b'[i].roundReceived + EFFECTIVE_AFTER > k
    ensures AgreeTo(p, q, k)
  {
    hide InForce, HistoryAfter;
    var c, c' := CommitsOf(b, receipts), CommitsOf(b', receipts);
    forall i | 0 <= i < n
      ensures c[..n][i] == c'[..n][i]
    {
      assert b[..n][i] == b'[..n][i];
    }
    assert c[..n] == c'[..n];
    HistoryKeys(genesis, c);
    HistoryKeys(genesis, c');
    forall j: nat | j <= k
      ensures p(j) == q(j)
    {
      var r := SomeInForce(HistoryAfter(genesis, c), j);
      var r' := SomeInForce(HistoryAfter(genesis, c'), j);
      HistoryAgreement(genesis, c, c', n, j, r, r');
    }
  }

  /** The blocks of two logs with the same first m frames are the same up to round m - 1. */
  lemma SharedBlocks(f: seq<Frame>, g: seq<Frame>, m: nat)
    requires m <= |f| && m <= |g| && (forall i :: 0 <= i < |f| ==> f[i].round == i)
             && forall i :: 0 <= i < |g| ==> g[i].round == i
    requires forall i :: 0 <= i < m ==> SameContents(f[i], g[i])
    ensures Ascending(Blocks(f)) && Ascending(Blocks(g))
    ensures var n := |Blocks(f[..m])|;
            && n <= |Blocks(f)| && n <= |Blocks(g)| && Blocks(f)[..n] == Blocks(g)[..n]
            && (forall i :: n <= i < |Blocks(f)| ==> Blocks(f)[i].roundReceived >= m)
            && (forall i :: n <= i < |Blocks(g)| ==> Blocks(g)[i].roundReceived >= m)
  {
    hide Blocks;
    BlocksNumbered(f);
    BlocksNumbered(g);
    BlocksLater(f, m);
    BlocksLater(g, m);
    BlocksSame(f[..m], g[..m]);
  }

  /** What the delay of six rounds is for. Two nodes take their peer-sets from their own blocks, and decided all the
      rounds they processed within d rounds, at most five. Then their peer-sets are the same up to five rounds after
      the last round that both processed, and their frames agree. */
  lemma {:induction false} Converge(p: PeerSets, V: set<Event>, fame: seq<set<Event>>, f: seq<Frame>,
                                    q: PeerSets, W: set<Event>, fame': seq<set<Event>>, g: seq<Frame>,
                                    genesis: set<Peer>, receipts: BlockBody -> seq<Receipt>, d: nat, m: nat)
    requires SafeWithin(p, d) && d < EFFECTIVE_AFTER && View(V) && View(W) && View(V + W)
    requires TimelyLog(p, V, d, fame, f) && TimelyLog(q, W, d, fame', g) && m <= |f| && m <= |g|
    requires Derived(p, genesis, Blocks(f), receipts) && Derived(q, genesis, Blocks(g), receipts)
    ensures AgreeTo(p, q, m + 5) && forall i :: 0 <= i < m ==> SameContents(f[i], g[i])
  {
    hide SafeWithin, View, RecordedInTime, FrameBy, Derived, Blocks;
    if m > 0 {
      Converge(p, V, fame, f, q, W, fame', g, genesis, receipts, d, m - 1);
      forall k: nat | k < m
        ensures fame[k] == fame'[k]
      {
        FameConverges(p, V, fame[k], q, W, fame'[k], k, d);
      }
      FrameConverges(p, fame, f[m - 1], q, fame', g[m - 1], m - 1);
    }
    FramesInOrder(p, V, d, fame, f);
    FramesInOrder(q, W, d, fame', g);
    SharedBlocks(f, g, m);
    DerivedAgree(p, Blocks(f), q, Blocks(g), genesis, receipts, |Blocks(f[..m])|, m + 5);
  }

  lemma FramesInOrder(p: PeerSets, V: set<Event>, d: nat, fame: seq<set<Event>>, f: seq<Frame>)
    requires TimelyLog(p, V, d, fame, f)
    ensures forall i :: 0 <= i < |f| ==> f[i].round == i
  {
    hide RecordedInTime, ReceivedBy, Ordered, IsFrameEvent;
  }

  /** So of their chains of blocks one is a prefix of the other, and likewise their orders of committed events. */
  lemma LogsConverge(p: PeerSets, V: set<Event>, fame: seq<set<Event>>, f: seq<Frame>,
                     q: PeerSets, W: set<Event>, fame': seq<set<Event>>, g: seq<Frame>,
                     genesis: set<Peer>, receipts: BlockBody -> seq<Receipt>, d: nat)
    requires SafeWithin(p, d) && d < EFFECTIVE_AFTER && View(V) && View(W) && View(V + W)
    requires TimelyLog(p, V, d, fame, f) && TimelyLog(q, W, d, fame', g)
    requires Derived(p, genesis, Blocks(f), receipts) && Derived(q, genesis, Blocks(g), receipts)
    ensures AgreeTo(p, q, Least(|f|, |g|) + 5)
    ensures Blocks(f) <= Blocks(g) || Blocks(g) <= Blocks(f)
    ensures ConsensusOrder(f) <= ConsensusOrder(g) || ConsensusOrder(g) <= ConsensusOrder(f)
  {
    hide *;
    var m := Shorter(|f|, |g|);
    Converge(p, V, fame, f, q, W, fame', g, genesis, receipts, d, m);
    if |f| <= |g| {
      BlocksExtend(f, g);
      ConsensusExtend(f, g);
    } else {
      forall i | 0 <= i < m
        ensures SameContents(g[i], f[i])
      {
        SameBack(f[i], g[i]);
      }
      BlocksExtend(g, f);
      ConsensusExtend(g, f);
    }
  }

  lemma Shorter(a: nat, b: nat) returns (m: nat)
    ensures m == Least(a, b) && m <= a && m <= b && (m == a || m == b) && (a <= b ==> m == a)
  {
    m := Least(a, b);
  }

  lemma SameBack(f: Frame, g: Frame)
    requires SameContents(f, g)
    ensures SameContents(g, f)
  {
  }

  /** Rounds need not be decided within any number of rounds: not even one that receives events and is decided. */
  lemma NotAlwaysTimely(ps: PeerSets, peers: set<Peer>, n: Stalemate.Names, d: nat) returns (W: set<Event>)
    requires Fronts.FourPeers(ps, peers) && Stalemate.Named(peers, n)
    ensures View(W) && RoundDecided(ps, W, 1) && ReceivedEvents(ps, W, {0, 1}, 1) != {} && !Timely(ps, W, 1, d)
  {
    hide Round, View, RoundDecided, ReceivedEvents, Fronts.FourPeers, Stalemate.Named;
    W := Stalemate.LateRound(ps, peers, n, d);
    assert Part(ps, W, 1 + d) <= Part(ps, W, d + 3);
  }
}
