/** Round-received, the frames and blocks it yields, and agreement on them
    (src/hashgraph/hashgraph.go, src/hashgraph/block.go, src/hashgraph/event.go). */
module Received {
  import opened Events
  import opened Quorum
  import opened Rounds
  import opened Voting
  import opened Medians

  /** Every election is safe; a fixed peer-set gives such a history. */
  ghost predicate SafeHistory(ps: PeerSets) {
    forall r: nat :: SafeElection(ps, r)
  }

  /** Every round from four on is a coin round of some election: in a safe history the threshold does not grow then.
      One peer may join only a multiple of three, and leave only where no two are left over. */
  lemma SafeNeverGrows(ps: PeerSets, j: nat)
    requires SafeHistory(ps) && j >= 4
    ensures Threshold(ps(j)) <= Threshold(ps(j - 1))
    ensures |ps(j)| == |ps(j - 1)| + 1 ==> |ps(j - 1)| % 3 == 0
    ensures |ps(j)| + 1 == |ps(j - 1)| ==> |ps(j - 1)| % 3 != 2
  {
    assert SafeElection(ps, j - 4) && SafeStep(ps, j - 4, j);
  }

  // ----- What a node knows: its view and the rounds it has decided

  /** Round r was decided in some view inside V. A decided round stays decided. */
  ghost predicate Frozen(ps: PeerSets, V: set<Event>, r: nat) {
    exists V0 :: V0 <= V && View(V0) && RoundDecided(ps, V0, r)
  }

  ghost predicate Knows(ps: PeerSets, V: set<Event>, D: set<nat>) {
    View(V) && forall r :: r in D ==> Frozen(ps, V, r)
  }

  /** The famous witnesses of round i all see x, and they are a super-majority. */
  ghost predicate SeenByFamous(ps: PeerSets, V: set<Event>, x: Event, i: nat) {
    && |FamousWitnesses(ps, V, i)| >= Threshold(ps(i))
    && forall w :: w in FamousWitnesses(ps, V, i) ==> x in Ancestors(w)
  }

  lemma SeenInNumbers(ps: PeerSets, V: set<Event>, x: Event, i: nat)
    ensures SeenByFamous(ps, V, x, i) <==>
            && 3 * |FamousWitnesses(ps, V, i)| > 2 * |ps(i)|
            && forall w :: w in FamousWitnesses(ps, V, i) ==> x in Ancestors(w)
  {
    hide FamousWitnesses, Ancestors;
  }

  /** x is received in round i: the first round after its own that all famous witnesses of
      the round see it in, all rounds up to it being decided. */
  ghost predicate ReceivedIn(ps: PeerSets, V: set<Event>, D: set<nat>, x: Event, i: nat) {
    && Round(ps, x) < i
    && (forall k :: Round(ps, x) < k <= i ==> k in D)
    && SeenByFamous(ps, V, x, i)
    && (forall k :: Round(ps, x) < k < i ==> !SeenByFamous(ps, V, x, k))
  }

  /** An event seen by no round before an undecided one is not received at all. */
  lemma NotReceived(ps: PeerSets, V: set<Event>, D: set<nat>, x: Event, i: nat)
    requires Round(ps, x) < i && i !in D
    requires forall k :: Round(ps, x) < k < i ==> !SeenByFamous(ps, V, x, k)
    ensures forall m: nat :: !ReceivedIn(ps, V, D, x, m)
  {
    hide Round, SeenByFamous;
    forall m: nat
      ensures !ReceivedIn(ps, V, D, x, m)
    {
      if m >= i { assert Round(ps, x) < i <= m; }
    }
  }

  ghost function ReceivedEvents(ps: PeerSets, V: set<Event>, D: set<nat>, i: nat): set<Event> {
    set x | x in V && ReceivedIn(ps, V, D, x, i)
  }

  lemma FrozenFamous(ps: PeerSets, V1: set<Event>, V2: set<Event>, r: nat)
    requires View(V1) && View(V2) && View(V1 + V2) && SafeElection(ps, r)
    requires Frozen(ps, V1, r) && Frozen(ps, V2, r)
    ensures FamousWitnesses(ps, V1, r) == FamousWitnesses(ps, V2, r)
  {
    hide Round, Witness, FamousWitnesses, RoundDecided;
    var U1 :| U1 <= V1 && View(U1) && RoundDecided(ps, U1, r);
    var U2 :| U2 <= V2 && View(U2) && RoundDecided(ps, U2, r);
    FamousFrozen(ps, U1, V1, r);
    FamousFrozen(ps, U2, V2, r);
    FamousFrozen(ps, U1, V1 + V2, r);
    FamousFrozen(ps, U2, V1 + V2, r);
  }

  lemma SeenAgreement(ps: PeerSets, V1: set<Event>, V2: set<Event>, x: Event, i: nat)
    requires View(V1) && View(V2) && View(V1 + V2) && SafeElection(ps, i)
    requires Frozen(ps, V1, i) && Frozen(ps, V2, i)
    ensures SeenByFamous(ps, V1, x, i) == SeenByFamous(ps, V2, x, i)
  {
    hide Round, Witness, FamousWitnesses, RoundDecided;
    FrozenFamous(ps, V1, V2, i);
  }

  /** Round-received agreement: two nodes that assign a round-received to one event assign
      the same one. */
  lemma RoundReceivedAgreement(ps: PeerSets, V1: set<Event>, D1: set<nat>, V2: set<Event>, D2: set<nat>,
                               x: Event, i: nat, j: nat)
    requires SafeHistory(ps) && View(V1 + V2) && Knows(ps, V1, D1) && Knows(ps, V2, D2)
    requires ReceivedIn(ps, V1, D1, x, i) && ReceivedIn(ps, V2, D2, x, j)
    ensures i == j
  {
    hide Round, SeenByFamous, SafeElection;
    var k := if i < j then i else j;
    assert k in D1 && k in D2 && SafeElection(ps, k);
    SeenAgreement(ps, V1, V2, x, k);
  }

  /** Two nodes that have decided all rounds up to i receive the same events in round i. */
  lemma ReceivedAgreement(ps: PeerSets, V1: set<Event>, D1: set<nat>, V2: set<Event>, D2: set<nat>, i: nat)
    requires SafeHistory(ps) && View(V1 + V2) && Knows(ps, V1, D1) && Knows(ps, V2, D2)
    requires forall k :: 0 <= k <= i ==> k in D1 && k in D2
    ensures ReceivedEvents(ps, V1, D1, i) == ReceivedEvents(ps, V2, D2, i)
  {
    assert V1 + V2 == V2 + V1;
    forall x | x in ReceivedEvents(ps, V1, D1, i)
      ensures x in ReceivedEvents(ps, V2, D2, i)
    {
      ReceivedTransfers(ps, V1, D1, V2, D2, x, i);
    }
    forall x | x in ReceivedEvents(ps, V2, D2, i)
      ensures x in ReceivedEvents(ps, V1, D1, i)
    {
      ReceivedTransfers(ps, V2, D2, V1, D1, x, i);
    }
  }

  lemma ReceivedTransfers(ps: PeerSets, V1: set<Event>, D1: set<nat>, V2: set<Event>, D2: set<nat>, x: Event, i: nat)
    requires SafeHistory(ps) && View(V1 + V2) && Knows(ps, V1, D1) && Knows(ps, V2, D2)
    requires forall k :: 0 <= k <= i ==> k in D1 && k in D2
    requires ReceivedIn(ps, V1, D1, x, i)
    ensures x in V2 && ReceivedIn(ps, V2, D2, x, i)
  {
    hide Round, SafeElection, SeenByFamous;
    forall k | Round(ps, x) < k <= i
      ensures SeenByFamous(ps, V1, x, k) == SeenByFamous(ps, V2, x, k)
    {
      assert k in D1 && k in D2 && SafeElection(ps, k);
      SeenAgreement(ps, V1, V2, x, k);
    }
    SeenIsKnown(ps, V2, x, i);
  }

  lemma SeenIsKnown(ps: PeerSets, V: set<Event>, x: Event, i: nat)
    requires View(V) && SeenByFamous(ps, V, x, i)
    ensures x in V
  {
    hide Round, Witness, FameDecided;
    var w := Pick(FamousWitnesses(ps, V, i));
    AncestorsInside(V, w);
  }

  // ----- Frames

  /** An event together with its consensus attributes. */
  datatype FrameEvent = FrameEvent(core: Event, round: nat, lamport: nat, isWitness: bool)

  /** `roots` holds, for each participant, the events on top of which the frame is planted. */
  datatype Frame = Frame(
    round: nat,
    peers: set<Peer>,
    events: seq<FrameEvent>,
    roots: map<Peer, seq<FrameEvent>>,
    timestamp: int)

  ghost predicate IsFrameEvent(ps: PeerSets, e: FrameEvent) {
    e.round == Round(ps, e.core) && e.lamport == Lamport(e.core) && (e.isWitness <==> Witness(ps, e.core))
  }

  /** Consensus order: Lamport timestamp, ties broken by the signature. */
  predicate Less(a: FrameEvent, b: FrameEvent) {
    if a.lamport != b.lamport then a.lamport < b.lamport
    else a.core.payload.signatureR < b.core.payload.signatureR
  }

  ghost predicate Ordered(s: seq<FrameEvent>) {
    forall i, j :: 0 <= i < j < |s| ==> Less(s[i], s[j])
  }

  /** One set of events has at most one order. */
  lemma {:induction false} OrderUnique(s: seq<FrameEvent>, t: seq<FrameEvent>)
    requires Ordered(s) && Ordered(t)
    requires forall e :: e in s <==> e in t
    ensures s == t
    decreases |s|
  {
    assert t != [] ==> t[0] in s;
    if s != [] {
      assert s[0] in t;
      assert s[0] == t[0];
      assert s == [s[0]] + s[1..] && t == [t[0]] + t[1..];
      forall e
        ensures e in s[1..] <==> e in t[1..]
      {
        TailMember(s, e);
        TailMember(t, e);
      }
      OrderUnique(s[1..], t[1..]);
    }
  }

  lemma TailMember(s: seq<FrameEvent>, e: FrameEvent)
    requires Ordered(s) && s != []
    ensures e in s[1..] <==> e in s && e != s[0]
  {
    assert s == [s[0]] + s[1..];
    if e in s[1..] {
      var k :| 0 <= k < |s[1..]| && s[1..][k] == e;
      assert Less(s[0], s[k + 1]);
    }
  }

  /** The timestamps of a set of witnesses. */
  ghost function Timestamps(ws: set<Event>): multiset<int> {
    if ws == {} then multiset{}
    else
      var w :| w in ws;
      multiset{w.payload.timestamp} + Timestamps(ws - {w})
  }

  lemma {:induction false} TimestampsSplit(ws: set<Event>, w: Event)
    requires w in ws
    ensures Timestamps(ws) == multiset{w.payload.timestamp} + Timestamps(ws - {w})
    decreases |ws|
  {
    var u :| u in ws && Timestamps(ws) == multiset{u.payload.timestamp} + Timestamps(ws - {u});
    if u != w {
      TimestampsSplit(ws - {u}, w);
      TimestampsSplit(ws - {w}, u);
      assert ws - {u} - {w} == ws - {w} - {u};
    }
  }

  /** f is the frame of round i, as known from view V with rounds D decided. */
  ghost predicate IsFrame(ps: PeerSets, V: set<Event>, D: set<nat>, i: nat, f: Frame) {
    && f.round == i && f.peers == ps(i)
    && Ordered(f.events)
    && (forall e :: e in f.events ==> IsFrameEvent(ps, e))
    && (forall x :: x in ReceivedEvents(ps, V, D, i) <==> exists e :: e in f.events && e.core == x)
    && IsMedian(Timestamps(FamousWitnesses(ps, V, i)), f.timestamp)
  }

  /** What enters a block: everything but the roots. */
  predicate SameContents(f: Frame, g: Frame) {
    f.round == g.round && f.peers == g.peers && f.events == g.events && f.timestamp == g.timestamp
  }

  lemma FrameAgreement(ps: PeerSets, V1: set<Event>, D1: set<nat>, V2: set<Event>, D2: set<nat>,
                       i: nat, f1: Frame, f2: Frame)
    requires SafeHistory(ps) && View(V1 + V2) && Knows(ps, V1, D1) && Knows(ps, V2, D2)
    requires forall k :: 0 <= k <= i ==> k in D1 && k in D2
    requires IsFrame(ps, V1, D1, i, f1) && IsFrame(ps, V2, D2, i, f2)
    ensures SameContents(f1, f2)
  {
    hide Round, Witness, SafeElection, ReceivedEvents, FamousWitnesses;
    ReceivedAgreement(ps, V1, D1, V2, D2, i);
    assert SafeElection(ps, i) && i in D1 && i in D2;
    FrozenFamous(ps, V1, V2, i);
    MedianUnique(Timestamps(FamousWitnesses(ps, V1, i)), f1.timestamp, f2.timestamp);
    forall e
      ensures e in f1.events <==> e in f2.events
    {
      SameFrameEvents(ps, ReceivedEvents(ps, V1, D1, i), f1.events, f2.events, e);
    }
    OrderUnique(f1.events, f2.events);
  }

  lemma SameFrameEvents(ps: PeerSets, S: set<Event>, s: seq<FrameEvent>, t: seq<FrameEvent>, e: FrameEvent)
    requires forall a :: a in s || a in t ==> IsFrameEvent(ps, a)
    requires forall x :: x in S <==> exists a :: a in s && a.core == x
    requires forall x :: x in S <==> exists a :: a in t && a.core == x
    ensures e in s <==> e in t
  {
    hide Round, Witness;
    if e in s {
      assert e.core in S;
      var a :| a in t && a.core == e.core && IsFrameEvent(ps, a);
      assert a == e;
    }
    if e in t {
      assert e.core in S;
      var a :| a in s && a.core == e.core && IsFrameEvent(ps, a);
      assert a == e;
    }
  }
}
