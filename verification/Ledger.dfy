/** The log of frames and the chain of blocks that a node derives from what it knows. */
module Ledger {
  import opened Events
  import opened Rounds
  import opened Voting
  import opened Received

  /** The frames of rounds 0, 1, ... as known from view V with rounds D decided. */
  ghost predicate IsLog(ps: PeerSets, V: set<Event>, D: set<nat>, frames: seq<Frame>) {
    forall i :: 0 <= i < |frames| ==> i in D && IsFrame(ps, V, D, i, frames[i])
  }

  lemma FramesNumbered(ps: PeerSets, V: set<Event>, D: set<nat>, frames: seq<Frame>)
    requires IsLog(ps, V, D, frames)
    ensures forall i :: 0 <= i < |frames| ==> frames[i].round == i
  {
  }

  // ----- Blocks

  datatype BlockBody = BlockBody(
    index: nat,
    roundReceived: nat,
    timestamp: int,
    peers: set<Peer>,
    transactions: seq<Bytes>,
    internalTransactions: seq<InternalTransaction>)

  function Transactions(events: seq<FrameEvent>): seq<Bytes> {
    if events == [] then []
    else Transactions(events[..|events| - 1]) + events[|events| - 1].core.payload.transactions
  }

  function InternalTransactions(events: seq<FrameEvent>): seq<InternalTransaction> {
    if events == [] then []
    else InternalTransactions(events[..|events| - 1]) + events[|events| - 1].core.payload.internalTransactions
  }

  function BlockOf(index: nat, f: Frame): BlockBody {
    BlockBody(index, f.round, f.timestamp, f.peers, Transactions(f.events), InternalTransactions(f.events))
  }

  predicate HasPayload(b: BlockBody) {
    |b.transactions| > 0 || |b.internalTransactions| > 0
  }

  /** The blocks of a log: one per frame that carries a payload, numbered consecutively. */
  function Blocks(frames: seq<Frame>): seq<BlockBody> {
    if frames == [] then []
    else
      var before := Blocks(frames[..|frames| - 1]);
      var b := BlockOf(|before|, frames[|frames| - 1]);
      if HasPayload(b) then before + [b] else before
  }

  // ----- What a block holds

  /** `whole` is made of the parts, one after the other: the i-th lies between o[i] and o[i + 1]. */
  ghost predicate Joined<T>(whole: seq<T>, o: seq<nat>, parts: seq<seq<T>>) {
    && |o| == |parts| + 1 && o[0] == 0 && o[|parts|] == |whole|
    && forall i :: 0 <= i < |parts| ==> Piece(whole, o[i], o[i + 1], parts[i])
  }

  ghost predicate Piece<T>(whole: seq<T>, lo: nat, hi: nat, part: seq<T>) {
    lo <= hi <= |whole| && whole[lo..hi] == part
  }

  ghost function TransactionLists(events: seq<FrameEvent>): seq<seq<Bytes>> {
    seq(|events|, i requires 0 <= i < |events| => events[i].core.payload.transactions)
  }

  ghost function InternalLists(events: seq<FrameEvent>): seq<seq<InternalTransaction>> {
    seq(|events|, i requires 0 <= i < |events| => events[i].core.payload.internalTransactions)
  }

  lemma JoinedMore<T>(whole: seq<T>, o: seq<nat>, parts: seq<seq<T>>, part: seq<T>)
    requires Joined(whole, o, parts)
    ensures Joined(whole + part, o + [|whole| + |part|], parts + [part])
  {
    var o', parts', all := o + [|whole| + |part|], parts + [part], whole + part;
    forall i | 0 <= i < |parts'|
      ensures Piece(all, o'[i], o'[i + 1], parts'[i])
    {
      if i < |parts| {
        assert Piece(whole, o[i], o[i + 1], parts[i]);
        assert all[o[i]..o[i + 1]] == whole[o[i]..o[i + 1]];
      }
    }
  }

  /** The transactions of a frame are those of its events, event by event in their order. */
  lemma {:induction false} TransactionsInOrder(events: seq<FrameEvent>) returns (o: seq<nat>)
    ensures Joined(Transactions(events), o, TransactionLists(events))
  {
    o := [0];
    if events != [] {
      var n := |events| - 1;
      o := TransactionsInOrder(events[..n]);
      JoinedMore(Transactions(events[..n]), o, TransactionLists(events[..n]), events[n].core.payload.transactions);
      o := o + [|Transactions(events)|];
      assert TransactionLists(events) == TransactionLists(events[..n]) + [events[n].core.payload.transactions];
    }
  }

  lemma {:induction false} InternalsInOrder(events: seq<FrameEvent>) returns (o: seq<nat>)
    ensures Joined(InternalTransactions(events), o, InternalLists(events))
  {
    o := [0];
    if events != [] {
      var n := |events| - 1;
      o := InternalsInOrder(events[..n]);
      JoinedMore(InternalTransactions(events[..n]), o, InternalLists(events[..n]),
                 events[n].core.payload.internalTransactions);
      o := o + [|InternalTransactions(events)|];
      assert InternalLists(events) == InternalLists(events[..n]) + [events[n].core.payload.internalTransactions];
    }
  }

  /** Some event of the frame carries a transaction or an internal transaction. */
  ghost predicate BearsPayload(f: Frame) {
    exists e :: e in f.events && (e.core.payload.transactions != [] || e.core.payload.internalTransactions != [])
  }

  lemma {:induction false} PayloadSomewhere(events: seq<FrameEvent>)
    ensures |Transactions(events)| > 0 <==> exists e :: e in events && e.core.payload.transactions != []
    ensures |InternalTransactions(events)| > 0 <==> exists e :: e in events && e.core.payload.internalTransactions != []
  {
    if events != [] {
      var n := |events| - 1;
      PayloadSomewhere(events[..n]);
      assert events == events[..n] + [events[n]];
    }
  }

  /** b is the block of f: its round, timestamp and peers, and the transactions of its events, event by event. */
  ghost predicate MadeFrom(b: BlockBody, f: Frame) {
    && b.roundReceived == f.round && b.timestamp == f.timestamp && b.peers == f.peers
    && (exists o :: Joined(b.transactions, o, TransactionLists(f.events)))
    && (exists o :: Joined(b.internalTransactions, o, InternalLists(f.events)))
  }

  lemma BlockIsMadeFrom(index: nat, f: Frame)
    ensures MadeFrom(BlockOf(index, f), f)
  {
    var o := TransactionsInOrder(f.events);
    var o' := InternalsInOrder(f.events);
  }

  /** A frame adds one block if one of its events carries a transaction or an internal transaction, and else none. */
  lemma FrameAddsBlock(frames: seq<Frame>, f: Frame)
    ensures if BearsPayload(f)
            then exists b ::
                   Blocks(frames + [f]) == Blocks(frames) + [b] && b.index == |Blocks(frames)| && MadeFrom(b, f)
            else Blocks(frames + [f]) == Blocks(frames)
  {
    hide MadeFrom, Transactions, InternalTransactions;
    assert (frames + [f])[..|frames|] == frames;
    PayloadSomewhere(f.events);
    BlockIsMadeFrom(|Blocks(frames)|, f);
    if BearsPayload(f) {
      assert Blocks(frames + [f]) == Blocks(frames) + [BlockOf(|Blocks(frames)|, f)];
    }
  }

  /** Every block is made from the frame of the round it was received in. */
  lemma {:induction false} BlocksMadeFrom(frames: seq<Frame>, k: nat)
    requires (forall i :: 0 <= i < |frames| ==> frames[i].round == i) && k < |Blocks(frames)|
    ensures var b := Blocks(frames)[k]; b.roundReceived < |frames| && MadeFrom(b, frames[b.roundReceived])
    decreases |frames|
  {
    hide MadeFrom, BlockOf, HasPayload;
    var n := |frames| - 1;
    if k < |Blocks(frames[..n])| {
      BlocksMadeFrom(frames[..n], k);
    } else {
      BlockIsMadeFrom(|Blocks(frames[..n])|, frames[n]);
      assert MadeFrom(Blocks(frames)[k], frames[n]);
      MadeInRound(Blocks(frames)[k], frames[n]);
    }
  }

  lemma MadeInRound(b: BlockBody, f: Frame)
    requires MadeFrom(b, f)
    ensures b.roundReceived == f.round && b.peers == f.peers
  {
  }

  /** Block indices are consecutive from 0 and rounds-received strictly increase. */
  lemma {:induction false} BlocksNumbered(frames: seq<Frame>)
    requires forall i :: 0 <= i < |frames| ==> frames[i].round == i
    ensures forall k :: 0 <= k < |Blocks(frames)| ==> Blocks(frames)[k].index == k
    ensures forall k :: 0 <= k < |Blocks(frames)| ==> Blocks(frames)[k].roundReceived < |frames|
    ensures forall k, l :: 0 <= k < l < |Blocks(frames)| ==>
              Blocks(frames)[k].roundReceived < Blocks(frames)[l].roundReceived
  {
    if frames != [] { BlocksNumbered(frames[..|frames| - 1]); }
  }

  lemma {:induction false} BlocksSame(f: seq<Frame>, g: seq<Frame>)
    requires |f| == |g| && forall i :: 0 <= i < |f| ==> SameContents(f[i], g[i])
    ensures Blocks(f) == Blocks(g)
  {
    if f != [] { BlocksSame(f[..|f| - 1], g[..|g| - 1]); }
  }

  lemma {:induction false} BlocksExtend(f: seq<Frame>, g: seq<Frame>)
    requires |f| <= |g| && forall i :: 0 <= i < |f| ==> SameContents(f[i], g[i])
    ensures Blocks(f) <= Blocks(g)
    decreases |g|
  {
    if |f| < |g| {
      BlocksExtend(f, g[..|g| - 1]);
    } else {
      BlocksSame(f, g);
    }
  }

  /** The blocks that a longer log adds come from its later rounds. */
  lemma {:induction false} BlocksLater(frames: seq<Frame>, n: nat)
    requires n <= |frames| && forall i :: 0 <= i < |frames| ==> frames[i].round == i
    ensures Blocks(frames[..n]) <= Blocks(frames)
    ensures forall k :: |Blocks(frames[..n])| <= k < |Blocks(frames)| ==> Blocks(frames)[k].roundReceived >= n
    decreases |frames|
  {
    if n < |frames| {
      var m := |frames| - 1;
      BlocksLater(frames[..m], n);
      assert frames[..m][..n] == frames[..n];
    } else {
      assert frames[..n] == frames;
    }
  }

  // ----- Agreement

  lemma LogAgreement(ps: PeerSets, V1: set<Event>, D1: set<nat>, f1: seq<Frame>,
                     V2: set<Event>, D2: set<nat>, f2: seq<Frame>, i: nat)
    requires SafeHistory(ps) && View(V1 + V2) && Knows(ps, V1, D1) && Knows(ps, V2, D2)
    requires IsLog(ps, V1, D1, f1) && IsLog(ps, V2, D2, f2)
    requires i < |f1| && i < |f2|
    ensures SameContents(f1[i], f2[i])
  {
    hide IsFrame, Knows, SafeHistory;
    FrameAgreement(ps, V1, D1, V2, D2, i, f1[i], f2[i]);
  }

  /** Block agreement: of the chains of any two nodes, one is a prefix of the other. */
  lemma BlockAgreement(ps: PeerSets, V1: set<Event>, D1: set<nat>, f1: seq<Frame>,
                       V2: set<Event>, D2: set<nat>, f2: seq<Frame>)
    requires SafeHistory(ps) && View(V1 + V2) && Knows(ps, V1, D1) && Knows(ps, V2, D2)
    requires IsLog(ps, V1, D1, f1) && IsLog(ps, V2, D2, f2)
    ensures |f1| <= |f2| ==> Blocks(f1) <= Blocks(f2) && ConsensusOrder(f1) <= ConsensusOrder(f2)
    ensures |f2| <= |f1| ==> Blocks(f2) <= Blocks(f1) && ConsensusOrder(f2) <= ConsensusOrder(f1)
  {
    hide IsFrame, Knows, SafeHistory, IsLog;
    forall i: nat | i < |f1| && i < |f2|
      ensures SameContents(f1[i], f2[i])
    {
      LogAgreement(ps, V1, D1, f1, V2, D2, f2, i);
    }
    if |f1| <= |f2| { BlocksExtend(f1, f2); ConsensusExtend(f1, f2); }
    if |f2| <= |f1| { BlocksExtend(f2, f1); ConsensusExtend(f2, f1); }
  }

  /** A node that learns more keeps the log it has. */
  lemma LogStable(ps: PeerSets, V: set<Event>, D: set<nat>, V': set<Event>, D': set<nat>, frames: seq<Frame>)
    requires SafeHistory(ps) && V <= V' && D <= D' && Knows(ps, V, D) && Knows(ps, V', D')
    requires IsLog(ps, V, D, frames)
    ensures IsLog(ps, V', D', frames)
  {
    hide Round, Witness, Ordered, SafeElection, ReceivedEvents, FamousWitnesses;
    assert V + V' == V';
    forall i | 0 <= i < |frames|
      ensures IsFrame(ps, V', D', i, frames[i])
    {
      assert forall k :: 0 <= k <= i ==> k in D && k in D';
      ReceivedAgreement(ps, V, D, V', D', i);
      assert SafeElection(ps, i) && Frozen(ps, V', i) && Frozen(ps, V, i);
      FrozenFamous(ps, V, V', i);
    }
  }

  // ----- The consensus order is causal and commits each event once

  function Cores(events: seq<FrameEvent>): (s: seq<Event>)
    ensures |s| == |events| && forall i :: 0 <= i < |s| ==> s[i] == events[i].core
  {
    seq(|events|, i requires 0 <= i < |events| => events[i].core)
  }

  /** All committed events, in consensus order. */
  function ConsensusOrder(frames: seq<Frame>): seq<Event> {
    if frames == [] then []
    else ConsensusOrder(frames[..|frames| - 1]) + Cores(frames[|frames| - 1].events)
  }

  lemma {:induction false} ConsensusExtend(f: seq<Frame>, g: seq<Frame>)
    requires |f| <= |g| && forall i :: 0 <= i < |f| ==> SameContents(f[i], g[i])
    ensures ConsensusOrder(f) <= ConsensusOrder(g)
    ensures |f| == |g| ==> ConsensusOrder(f) == ConsensusOrder(g)
    decreases |g|
  {
    if |f| < |g| {
      ConsensusExtend(f, g[..|g| - 1]);
    } else if f != [] {
      ConsensusExtend(f[..|f| - 1], g[..|g| - 1]);
    }
  }

  lemma {:induction false} MinReceived(ps: PeerSets, V: set<Event>, D: set<nat>, y: Event, i: nat, k: nat)
    returns (j: nat)
    requires Round(ps, y) < k <= i && (forall r :: 0 <= r <= i ==> r in D)
    requires SeenByFamous(ps, V, y, i)
    requires forall r :: Round(ps, y) < r < k ==> !SeenByFamous(ps, V, y, r)
    ensures j <= i && ReceivedIn(ps, V, D, y, j)
    decreases i - k
  {
    hide Round, SeenByFamous;
    if SeenByFamous(ps, V, y, k) {
      j := k;
    } else {
      j := MinReceived(ps, V, D, y, i, k + 1);
    }
  }

  /** An ancestor of a received event is received, no later. */
  lemma AncestorReceived(ps: PeerSets, V: set<Event>, D: set<nat>, x: Event, i: nat, y: Event) returns (j: nat)
    requires View(V) && x in V && y in Ancestors(x)
    requires (forall r :: 0 <= r <= i ==> r in D) && ReceivedIn(ps, V, D, x, i)
    ensures j <= i && y in ReceivedEvents(ps, V, D, j)
  {
    hide Round, FamousWitnesses;
    RoundMonotone(ps, x, y);
    AncestorsInside(V, x);
    assert SeenByFamous(ps, V, y, i) by {
      forall w | w in FamousWitnesses(ps, V, i)
        ensures y in Ancestors(w)
      {
        AncestorsTransitive(w, x);
      }
    }
    j := MinReceived(ps, V, D, y, i, Round(ps, y) + 1);
  }

  lemma {:induction false} CommittedMember(ps: PeerSets, V: set<Event>, D: set<nat>, frames: seq<Frame>, x: Event)
    requires IsLog(ps, V, D, frames)
    ensures x in ConsensusOrder(frames) <==> exists i :: 0 <= i < |frames| && x in ReceivedEvents(ps, V, D, i)
  {
    hide IsFrame, ReceivedEvents, Cores;
    if frames != [] {
      var n := |frames| - 1;
      CommittedMember(ps, V, D, frames[..n], x);
      FrameMember(ps, V, D, n, frames[n], x);
    }
  }

  lemma FrameMember(ps: PeerSets, V: set<Event>, D: set<nat>, i: nat, f: Frame, x: Event)
    requires IsFrame(ps, V, D, i, f)
    ensures x in Cores(f.events) <==> x in ReceivedEvents(ps, V, D, i)
  {
    hide Round, ReceivedEvents, Ordered, FamousWitnesses;
    var s := Cores(f.events);
    if x in s {
      var k :| 0 <= k < |s| && s[k] == x;
      assert f.events[k] in f.events;
    }
    if x in ReceivedEvents(ps, V, D, i) {
      var e :| e in f.events && e.core == x;
      var k :| 0 <= k < |f.events| && f.events[k] == e;
      assert s[k] == x;
    }
  }

  /** No event occurs twice, and all ancestors of an event occur before it. */
  ghost predicate Causal(s: seq<Event>) {
    && (forall i, j :: 0 <= i < j < |s| ==> s[i] != s[j])
    && (forall k, y :: 0 <= k < |s| && y in ProperAncestors(s[k]) ==> y in s[..k])
  }

  lemma OneRound(ps: PeerSets, V: set<Event>, D: set<nat>, x: Event, i: nat, j: nat)
    requires SafeHistory(ps) && Knows(ps, V, D)
    requires x in ReceivedEvents(ps, V, D, i) && x in ReceivedEvents(ps, V, D, j)
    ensures i == j
  {
    hide ReceivedIn, SafeHistory;
    assert V + V == V;
    RoundReceivedAgreement(ps, V, D, V, D, x, i, j);
  }

  lemma FrameOrder(ps: PeerSets, s: seq<FrameEvent>, a: nat, b: nat)
    requires Ordered(s) && (forall e :: e in s ==> IsFrameEvent(ps, e))
    requires a < |s| && b < |s|
    ensures s[a].core == s[b].core ==> a == b
    ensures Lamport(s[a].core) < Lamport(s[b].core) ==> a < b
  {
    hide Round, Witness;
    assert s[a] in s && s[b] in s;
    if s[a].core == s[b].core { assert s[a] == s[b]; }
    if b < a { assert Less(s[b], s[a]); }
    if a < b { assert Less(s[a], s[b]); }
  }

  /** Exactly-once, causal commit: every log flattens to a causal order, so each of its
      prefixes is ancestor-closed. */
  lemma {:induction false} CommitIsCausal(ps: PeerSets, V: set<Event>, D: set<nat>, frames: seq<Frame>)
    requires SafeHistory(ps) && Knows(ps, V, D) && IsLog(ps, V, D, frames)
    ensures Causal(ConsensusOrder(frames))
  {
    hide IsFrame, Knows, SafeHistory;
    if frames != [] {
      var n := |frames| - 1;
      CommitIsCausal(ps, V, D, frames[..n]);
      var s0, s1 := ConsensusOrder(frames[..n]), Cores(frames[n].events);
      forall a, b | 0 <= a < b < |s0 + s1|
        ensures (s0 + s1)[a] != (s0 + s1)[b]
      {
        CommitOnce(ps, V, D, frames, s0, s1, a, b);
      }
      forall k, y | 0 <= k < |s0 + s1| && y in ProperAncestors((s0 + s1)[k])
        ensures y in (s0 + s1)[..k]
      {
        CommitAfterAncestors(ps, V, D, frames, s0, s1, k, y);
      }
    }
  }

  lemma CommitOnce(ps: PeerSets, V: set<Event>, D: set<nat>, frames: seq<Frame>,
                   s0: seq<Event>, s1: seq<Event>, a: nat, b: nat)
    requires SafeHistory(ps) && Knows(ps, V, D) && IsLog(ps, V, D, frames) && frames != []
    requires s0 == ConsensusOrder(frames[..|frames| - 1]) && s1 == Cores(frames[|frames| - 1].events) && Causal(s0)
    requires a < b < |s0 + s1|
    ensures (s0 + s1)[a] != (s0 + s1)[b]
  {
    hide Knows, SafeHistory, ReceivedEvents, Causal, FamousWitnesses, ConsensusOrder;
    var n := |frames| - 1;
    if b < |s0| {
      assert s0[a] != s0[b] by { SelfDistinct(s0, a, b); }
    } else if a >= |s0| {
      assert IsFrame(ps, V, D, n, frames[n]);
      FrameOrder(ps, frames[n].events, a - |s0|, b - |s0|);
    } else {
      NotCommittedBefore(ps, V, D, frames, frames[n].events[b - |s0|]);
      assert s0[a] in s0;
    }
  }

  lemma NotCommittedBefore(ps: PeerSets, V: set<Event>, D: set<nat>, frames: seq<Frame>, e: FrameEvent)
    requires SafeHistory(ps) && Knows(ps, V, D) && IsLog(ps, V, D, frames) && frames != []
    requires e in frames[|frames| - 1].events
    ensures e.core !in ConsensusOrder(frames[..|frames| - 1])
  {
    hide Knows, SafeHistory, ReceivedEvents, FamousWitnesses, ConsensusOrder;
    var n := |frames| - 1;
    assert IsFrame(ps, V, D, n, frames[n]);
    assert e.core in ReceivedEvents(ps, V, D, n);
    if e.core in ConsensusOrder(frames[..n]) {
      CommittedMember(ps, V, D, frames[..n], e.core);
      var i :| 0 <= i < n && e.core in ReceivedEvents(ps, V, D, i);
      OneRound(ps, V, D, e.core, i, n);
    }
  }

  lemma SelfDistinct(s: seq<Event>, a: nat, b: nat)
    requires Causal(s) && a < b < |s|
    ensures s[a] != s[b]
  {
  }

  lemma CommitAfterAncestors(ps: PeerSets, V: set<Event>, D: set<nat>, frames: seq<Frame>,
                             s0: seq<Event>, s1: seq<Event>, k: nat, y: Event)
    requires SafeHistory(ps) && Knows(ps, V, D) && IsLog(ps, V, D, frames) && frames != []
    requires s0 == ConsensusOrder(frames[..|frames| - 1]) && s1 == Cores(frames[|frames| - 1].events) && Causal(s0)
    requires k < |s0 + s1| && y in ProperAncestors((s0 + s1)[k])
    ensures y in (s0 + s1)[..k]
  {
    hide Knows, SafeHistory, IsFrame, Causal;
    if k < |s0| {
      PrefixClosed(s0, k, y);
      assert s0[..k] == (s0 + s1)[..k];
    } else {
      assert (s0 + s1)[..k] == s0 + s1[..k - |s0|];
      LastFrameCausal(ps, V, D, frames, k - |s0|, y);
    }
  }

  lemma PrefixClosed(s: seq<Event>, k: nat, y: Event)
    requires Causal(s) && k < |s| && y in ProperAncestors(s[k])
    ensures y in s[..k]
  {
  }

  lemma LastFrameCausal(ps: PeerSets, V: set<Event>, D: set<nat>, frames: seq<Frame>, a: nat, y: Event)
    requires SafeHistory(ps) && Knows(ps, V, D) && IsLog(ps, V, D, frames) && frames != []
    requires a < |frames[|frames| - 1].events| && y in ProperAncestors(frames[|frames| - 1].events[a].core)
    ensures y in ConsensusOrder(frames[..|frames| - 1]) || y in Cores(frames[|frames| - 1].events)[..a]
  {
    hide SafeHistory, FamousWitnesses, Ordered, Round, Witness, ReceivedIn, ProperAncestors;
    var n := |frames| - 1;
    var events := frames[n].events;
    assert IsFrame(ps, V, D, n, frames[n]);
    assert events[a] in events;
    var x := events[a].core;
    assert x in ReceivedEvents(ps, V, D, n);
    ProperFacts(x, y);
    var j := AncestorReceived(ps, V, D, x, n, y);
    if j < n {
      CommittedMember(ps, V, D, frames[..n], y);
    } else {
      var e :| e in events && e.core == y;
      var b :| 0 <= b < |events| && events[b] == e;
      FrameOrder(ps, events, b, a);
      assert Cores(events)[..a][b] == y;
    }
  }

  lemma ProperFacts(x: Event, y: Event)
    requires y in ProperAncestors(x)
    ensures y in Ancestors(x) && Lamport(y) < Lamport(x)
  {
    LamportGrows(x);
  }
}
