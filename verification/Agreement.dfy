/** What holds between any two nodes, and of any one node, whatever events they have inserted. */
module Agreement {
  import opened Events
  import opened Quorum
  import opened Rounds
  import opened Voting
  import opened Received
  import opened Ledger
  import opened RoundInfos
  import opened Books
  import opened Hashgraphs
  import opened Coordinates
  import opened Frames
  import opened Replanting
  import opened PeerHistory
  import opened Delays

  /** What a node's state says of its view and its log, without its indexes. */
  lemma NodeKnows(h: Hashgraph)
    requires h.Valid()
    ensures SafeHistory(h.peerSets) && View(h.events) && Knows(h.peerSets, h.events, DecidedRounds(h.rounds))
    ensures IsLog(h.peerSets, h.events, DecidedRounds(h.rounds), h.frames)
    ensures ReceivedSound(h.peerSets, h.events, h.rounds, h.roundReceived)
    ensures Kept(h.peerSets, h.events, h.rounds, h.roundReceived, h.frames)
    ensures Elections(h.peerSets, h.events, h.rounds)
    ensures h.blocks == Blocks(h.frames) && h.consensusEvents == ConsensusOrder(h.frames)
  {
    hide SafeHistory, View, Elections, IsLog, ReceivedSound, Knows, Blocks, ConsensusOrder;
    ElectionsKnown(h.peerSets, h.events, h.rounds);
  }

  /** Of the chains of blocks of two nodes one is a prefix of the other, and so are their orders of
      committed events. */
  lemma NodesAgree(a: Hashgraph, b: Hashgraph)
    requires a.Valid() && b.Valid() && a.peerSets == b.peerSets && View(a.events + b.events)
    ensures a.blocks <= b.blocks || b.blocks <= a.blocks
    ensures a.consensusEvents <= b.consensusEvents || b.consensusEvents <= a.consensusEvents
  {
    hide *;
    NodeKnows(a);
    NodeKnows(b);
    BlockAgreement(a.peerSets, a.events, DecidedRounds(a.rounds), a.frames,
                   b.events, DecidedRounds(b.rounds), b.frames);
  }

  /** Two nodes that received an event received it in the same round. */
  lemma NodesReceiveAlike(a: Hashgraph, b: Hashgraph, x: Event)
    requires a.Valid() && b.Valid() && a.peerSets == b.peerSets && View(a.events + b.events)
    requires x in a.roundReceived && x in b.roundReceived
    ensures a.roundReceived[x] == b.roundReceived[x]
  {
    hide SafeHistory, View, Elections, IsLog, ReceivedIn, Knows, Blocks, ConsensusOrder, DecidedRounds;
    NodeKnows(a);
    NodeKnows(b);
    RoundReceivedAgreement(a.peerSets, a.events, DecidedRounds(a.rounds), b.events, DecidedRounds(b.rounds),
                           x, a.roundReceived[x], b.roundReceived[x]);
  }

  /** Two nodes that settled the fame of a witness settled it alike; two nodes that decided a round
      have the same famous witnesses for it. */
  lemma NodesElectAlike(a: Hashgraph, b: Hashgraph, r: nat)
    requires a.Valid() && b.Valid() && a.peerSets == b.peerSets && View(a.events + b.events)
    requires r in a.rounds && r in b.rounds
    ensures forall x :: x in a.rounds[r].created && x in b.rounds[r].created
              && a.rounds[r].created[x].famous != Undefined && b.rounds[r].created[x].famous != Undefined
              ==> a.rounds[r].created[x].famous == b.rounds[r].created[x].famous
    ensures a.rounds[r].decided && b.rounds[r].decided ==>
              a.rounds[r].FamousWitnesses() == b.rounds[r].FamousWitnesses()
  {
    hide *;
    NodeKnows(a);
    NodeKnows(b);
    ElectionsAgree(a.peerSets, a.events, a.rounds, b.events, b.rounds, r);
  }

  lemma ElectionsAgree(ps: PeerSets, V1: set<Event>, rounds1: map<nat, RoundInfo>,
                       V2: set<Event>, rounds2: map<nat, RoundInfo>, r: nat)
    requires SafeHistory(ps) && View(V1) && View(V2) && View(V1 + V2)
    requires Elections(ps, V1, rounds1) && Elections(ps, V2, rounds2)
    requires r in rounds1 && r in rounds2
    ensures forall x :: x in rounds1[r].created && x in rounds2[r].created
              && rounds1[r].created[x].famous != Undefined && rounds2[r].created[x].famous != Undefined
              ==> rounds1[r].created[x].famous == rounds2[r].created[x].famous
    ensures rounds1[r].decided && rounds2[r].decided ==> rounds1[r].FamousWitnesses() == rounds2[r].FamousWitnesses()
  {
    hide View, SafeElection, FameDecided, Frozen, FamousWitnesses;
    var f1, f2 := rounds1[r].created, rounds2[r].created;
    forall x | x in f1 && x in f2 && f1[x].famous != Undefined && f2[x].famous != Undefined
      ensures f1[x].famous == f2[x].famous
    {
      FameDecidedGrows(ps, V1, V1 + V2, x, f1[x].famous == True);
      FameDecidedGrows(ps, V2, V1 + V2, x, f2[x].famous == True);
      if f1[x].famous == True || f2[x].famous == True {
        FameFunctional(ps, V1 + V2, x);
      }
    }
    if rounds1[r].decided && rounds2[r].decided {
      assert SafeElection(ps, r);
      FrozenFamous(ps, V1, V2, r);
    }
  }

  /** A node commits each event once, after its ancestors, exactly when the round it is received in
      has been processed; its blocks are numbered from zero, in increasing rounds received. */
  lemma CommitsOnce(h: Hashgraph)
    requires h.Valid()
    ensures Causal(h.consensusEvents)
    ensures forall x :: x in h.consensusEvents <==> x in h.roundReceived && h.roundReceived[x] < |h.frames|
    ensures forall k :: 0 <= k < |h.blocks| ==> h.blocks[k].index == k
    ensures forall k, l :: 0 <= k < l < |h.blocks| ==> h.blocks[k].roundReceived < h.blocks[l].roundReceived
  {
    hide *;
    NodeKnows(h);
    CommitIsCausal(h.peerSets, h.events, DecidedRounds(h.rounds), h.frames);
    FramesNumbered(h.peerSets, h.events, DecidedRounds(h.rounds), h.frames);
    BlocksNumbered(h.frames);
    forall x
      ensures x in h.consensusEvents <==> x in h.roundReceived && h.roundReceived[x] < |h.frames|
    {
      CommittedWhenProcessed(h.peerSets, h.events, h.rounds, h.roundReceived, h.frames, x);
    }
  }

  lemma CommittedWhenProcessed(ps: PeerSets, V: set<Event>, rounds: map<nat, RoundInfo>, rr: map<Event, nat>,
                               frames: seq<Frame>, x: Event)
    requires SafeHistory(ps) && Knows(ps, V, DecidedRounds(rounds)) && Kept(ps, V, rounds, rr, frames)
    ensures x in ConsensusOrder(frames) <==> x in rr && rr[x] < |frames|
  {
    hide SafeHistory, Knows, ReceivedIn, IsLog, DecidedRounds, ConsensusOrder;
    var D := DecidedRounds(rounds);
    CommittedMember(ps, V, D, frames, x);
    if x in ConsensusOrder(frames) {
      var i :| 0 <= i < |frames| && x in ReceivedEvents(ps, V, D, i);
      assert x in rr && ReceivedIn(ps, V, D, x, rr[x]);
      OneRound(ps, V, D, x, i, rr[x]);
    }
    if x in rr {
      assert ReceivedIn(ps, V, D, x, rr[x]);
      assert x in ReceivedEvents(ps, V, D, rr[x]);
    }
  }

  /** Another node can be reset from any frame in a node's log. */
  lemma FramesReplantable(h: Hashgraph, i: nat)
    requires h.Valid() && i < |h.frames|
    ensures Genuine(h.peerSets, h.events, h.participantEvents, h.frames[i])
    ensures forall e :: Holds(h.frames[i], e) ==> e.core.creator in h.participantEvents
  {
    hide *;
    NodeKnows(h);
    NodeRoots(h);
    LogGenuine(h.peerSets, h.events, DecidedRounds(h.rounds), h.participantEvents, h.firstRounds, h.frames, i);
    HeldKnown(h.peerSets, h.events, h.participantEvents, h.frames[i]);
  }

  /** In a node's frames, the root of a participant without events in the frame ends at its newest event committed
      before, and is empty if there is none. */
  lemma RootsEndAtNewest(h: Hashgraph, i: nat, p: Peer)
    requires h.Valid() && i < |h.frames| && p in h.frames[i].roots
    requires forall e :: e in h.frames[i].events ==> e.core.creator != p
    ensures var order, root := ConsensusOrder(h.frames[..i]), Cores(h.frames[i].roots[p]);
            && (root == [] <==> forall x :: x in order ==> x.creator != p)
            && (root != [] ==> var last := root[|root| - 1];
                  last in order && last.creator == p &&
                  forall x :: x in order && x.creator == p ==> x.index <= last.index)
  {
    hide *;
    NodeKnows(h);
    NodeRoots(h);
    RootEndsAtNewest(h.peerSets, h.events, DecidedRounds(h.rounds), h.participantEvents, h.firstRounds, h.frames, i, p);
  }

  /** A node's blocks hold the transactions of the events of their frames, in order. */
  lemma BlocksHoldFrames(h: Hashgraph, k: nat)
    requires h.Valid() && k < |h.blocks|
    ensures var b := h.blocks[k]; b.index == k && b.roundReceived < |h.frames| && MadeFrom(b, h.frames[b.roundReceived])
  {
    hide *;
    NodeKnows(h);
    FramesNumbered(h.peerSets, h.events, DecidedRounds(h.rounds), h.frames);
    BlocksNumbered(h.frames);
    BlocksMadeFrom(h.frames, k);
  }

  lemma NodeRoots(h: Hashgraph)
    requires h.Valid()
    ensures Indexed(h.events, h.participantEvents) && DistinctKeys(h.events)
    ensures RootedLog(h.peerSets, h.participantEvents, h.firstRounds, h.frames)
  {
  }

  lemma HeldKnown(ps: PeerSets, V: set<Event>, pe: map<Peer, seq<Event>>, f: Frame)
    requires Genuine(ps, V, pe, f)
    ensures forall e :: Holds(f, e) ==> e.core.creator in pe
  {
    hide View, DistinctKeys, Ordered, IsFrameEvent, RootFits;
    forall e | Holds(f, e)
      ensures e.core.creator in pe
    {
      if e !in f.events {
        var p :| p in f.roots && e in f.roots[p];
        RootEvents(ps, V, pe, f, p);
      }
    }
  }

  /** After every insertion a node has recorded every fame and every round that its view decides, and has
      processed all the rounds before the first one that its view does not decide. */
  lemma NothingLeftUndone(h: Hashgraph)
    requires h.Valid() && h.UpToDate()
    ensures forall r: nat :: RoundDecided(h.peerSets, h.events, r) ==> r in h.rounds && h.rounds[r].decided
    ensures forall r :: r in h.rounds && r >= |h.frames| ==> FameComplete(h.peerSets, h.events, h.rounds[r])
    ensures !RoundDecided(h.peerSets, h.events, |h.frames|)
  {
    hide *;
    NodeQueue(h);
    forall r: nat | RoundDecided(h.peerSets, h.events, r)
      ensures r in h.rounds && h.rounds[r].decided
    {
      DecidedRecorded(h.peerSets, h.events, h.rounds, h.lastRound, h.pendingRounds, |h.frames|, r);
    }
    AllRecorded(h.peerSets, h.events, h.rounds, h.lastRound, |h.frames|);
    HeadUndecided(h.rounds, h.lastRound, h.pendingRounds, |h.frames|);
  }

  lemma NodeQueue(h: Hashgraph)
    requires h.Valid() && h.UpToDate()
    ensures Filed(h.peerSets, h.events, h.rounds) && InOrder(h.pendingRounds, |h.frames|, h.lastRound, h.rounds)
    ensures |h.frames| <= h.lastRound + 1
    ensures Concluded(h.peerSets, h.events, h.rounds, |h.frames|, h.lastRound + 1 - |h.frames|)
    ensures h.pendingRounds != [] ==> !h.pendingRounds[0].decided
  {
  }

  lemma AllRecorded(ps: PeerSets, V: set<Event>, rounds: map<nat, RoundInfo>, lastRound: int, n: nat)
    requires n <= lastRound + 1 && Concluded(ps, V, rounds, n, lastRound + 1 - n)
             && forall r :: r in rounds ==> r <= lastRound
    ensures forall r :: r in rounds && r >= n ==> FameComplete(ps, V, rounds[r])
  {
    hide FameComplete, RoundDecided;
  }

  /** A round that the view decides has witnesses, so it is known; and it is processed or recorded as decided. */
  lemma DecidedRecorded(ps: PeerSets, V: set<Event>, rounds: map<nat, RoundInfo>, lastRound: int,
                        queue: seq<PendingRound>, n: nat, r: nat)
    requires Filed(ps, V, rounds) && InOrder(queue, n, lastRound, rounds) && n <= lastRound + 1
    requires Concluded(ps, V, rounds, n, lastRound + 1 - n) && RoundDecided(ps, V, r)
    ensures r in rounds && rounds[r].decided
  {
    hide Round, Witness, FameDecided, FameComplete;
    var w := Pick(WitnessesIn(ps, V, r));
    assert Round(ps, w) in rounds;
  }

  lemma HeadUndecided(rounds: map<nat, RoundInfo>, lastRound: int, queue: seq<PendingRound>, n: nat)
    requires InOrder(queue, n, lastRound, rounds) && (queue != [] ==> !queue[0].decided)
    ensures n in rounds ==> !rounds[n].decided
  {
  }

  /** Two nodes with the same record of first rounds compute the same frames: they agree on rounds, peers, events,
      roots and timestamps. */
  lemma NodesFrameAlike(a: Hashgraph, b: Hashgraph)
    requires a.Valid() && b.Valid() && a.peerSets == b.peerSets && a.firstRounds == b.firstRounds
    requires View(a.events + b.events)
    ensures a.frames <= b.frames || b.frames <= a.frames
  {
    hide *;
    NodeKnows(a);
    NodeKnows(b);
    NodeRoots(a);
    NodeRoots(b);
    var D1, D2 := DecidedRounds(a.rounds), DecidedRounds(b.rounds);
    forall j: nat | j < |a.frames| && j < |b.frames|
      ensures SameContents(a.frames[j], b.frames[j])
    {
      LogAgreement(a.peerSets, a.events, D1, a.frames, b.events, D2, b.frames, j);
    }
    forall i: nat | i < |a.frames| && i < |b.frames|
      ensures a.frames[i] == b.frames[i]
    {
      FramesAlike(a.peerSets, a.events, a.participantEvents, a.firstRounds, a.frames, b.events, b.participantEvents,
                  b.frames, i);
    }
  }

  lemma FramesAlike(ps: PeerSets, V: set<Event>, pe: map<Peer, seq<Event>>, first: map<Peer, nat>, f: seq<Frame>,
                    W: set<Event>, pe': map<Peer, seq<Event>>, g: seq<Frame>, i: nat)
    requires View(V + W) && Indexed(V, pe) && Indexed(W, pe')
    requires RootedLog(ps, pe, first, f) && RootedLog(ps, pe', first, g)
    requires i < |f| && i < |g| && forall j: nat :: j < |f| && j < |g| ==> SameContents(f[j], g[j])
    ensures f[i] == g[i]
  {
    hide ConsensusOrder, LastByCreator, IsRoot, View, Indexed, KnownBy;
    assert SameContents(f[i], g[i]);
    assert Rooted(ps, pe, LastByCreator(ConsensusOrder(f[..i])), KnownBy(first, i), f[i]);
    assert Rooted(ps, pe', LastByCreator(ConsensusOrder(g[..i])), KnownBy(first, i), g[i]);
    assert f[i].roots.Keys == g[i].roots.Keys;
    forall p | p in f[i].roots
      ensures f[i].roots[p] == g[i].roots[p]
    {
      SameHeads(f, g, i, p);
      RootsAlike(ps, V, pe, first, f, W, pe', g, i, p);
    }
    assert f[i].roots == g[i].roots;
  }

  lemma SameHeads(f: seq<Frame>, g: seq<Frame>, i: nat, p: Peer)
    requires i < |f| && i < |g| && forall j: nat :: j < |f| && j < |g| ==> SameContents(f[j], g[j])
    ensures HeadAt(f, i, p) == HeadAt(g, i, p)
  {
    hide ConsensusOrder, LastByCreator, RootHead;
    ConsensusExtend(f[..i], g[..i]);
    assert SameContents(f[i], g[i]);
  }

  /** Where a participant's root ends in the i-th frame of a log. */
  ghost function HeadAt(frames: seq<Frame>, i: nat, p: Peer): Option<Event>
    requires i < |frames|
  {
    RootHead(frames[i].events, LastByCreator(ConsensusOrder(frames[..i])), p)
  }

  lemma RootsAlike(ps: PeerSets, V: set<Event>, pe: map<Peer, seq<Event>>, first: map<Peer, nat>, f: seq<Frame>,
                   W: set<Event>, pe': map<Peer, seq<Event>>, g: seq<Frame>, i: nat, p: Peer)
    requires View(V + W) && Indexed(V, pe) && Indexed(W, pe')
    requires RootedLog(ps, pe, first, f) && RootedLog(ps, pe', first, g)
    requires i < |f| && i < |g| && p in f[i].roots && p in g[i].roots && HeadAt(f, i, p) == HeadAt(g, i, p)
    ensures f[i].roots[p] == g[i].roots[p]
  {
    hide ConsensusOrder, LastByCreator, RootHead, IsFrameEvent, View, Indexed, RootCores;
    var r, r', head := f[i].roots[p], g[i].roots[p], HeadAt(f, i, p);
    assert IsRoot(ps, pe, p, head, r) && IsRoot(ps, pe', p, head, r');
    SameCores(V, pe, W, pe', p, head);
    forall k | 0 <= k < |r|
      ensures r[k] == r'[k]
    {
      assert r[k] in r && r'[k] in r' && Cores(r)[k] == Cores(r')[k];
      SameFrameEvent(ps, r[k], r'[k]);
    }
  }

  lemma SameFrameEvent(ps: PeerSets, e: FrameEvent, e': FrameEvent)
    requires IsFrameEvent(ps, e) && IsFrameEvent(ps, e') && e.core == e'.core
    ensures e == e'
  {
    hide Round, Witness, Lamport;
  }

  /** Below a shared head two nodes know the same events of a participant. */
  lemma SameCores(V: set<Event>, pe: map<Peer, seq<Event>>, W: set<Event>, pe': map<Peer, seq<Event>>, p: Peer,
                  head: Option<Event>)
    requires View(V + W) && Indexed(V, pe) && Indexed(W, pe') && p in pe && p in pe'
    requires head.Some? ==> 0 <= head.value.index < |pe[p]| && head.value.index < |pe'[p]|
    ensures RootCores(pe[p], head) == RootCores(pe'[p], head)
  {
    hide Closed, WellIndexed;
    if head.Some? {
      var h := head.value.index;
      forall k | 0 <= k <= h
        ensures pe[p][k] == pe'[p][k]
      {
        assert SameSlot(pe[p][k], pe'[p][k]);
      }
      var lo := if h > ROOT_DEPTH then h - ROOT_DEPTH else 0;
      assert pe[p][lo..h + 1] == pe'[p][lo..h + 1];
    }
  }

  // ----- Changes of the peer-set

  /** Two nodes that take their peer-sets from their own blocks, and decided all the rounds they processed within d
      rounds, at most five, have the same peer-sets up to five rounds after the last round that both processed, and
      the same blocks. What Valid() asks of the peer-sets is needed for d above three only; see LogsConverge. */
  lemma NodesConverge(a: Hashgraph, b: Hashgraph, genesis: set<Peer>, receipts: BlockBody -> seq<Receipt>, d: nat)
    requires a.Valid() && b.Valid() && View(a.events + b.events) && d < EFFECTIVE_AFTER
    requires Derived(a.peerSets, genesis, a.blocks, receipts) && Derived(b.peerSets, genesis, b.blocks, receipts)
    requires forall i: nat :: i < |a.frames| ==> Timely(a.peerSets, a.events, i, d)
    requires forall i: nat :: i < |b.frames| ==> Timely(b.peerSets, b.events, i, d)
    ensures AgreeTo(a.peerSets, b.peerSets, Least(|a.frames|, |b.frames|) + 5)
    ensures a.blocks <= b.blocks || b.blocks <= a.blocks
    ensures a.consensusEvents <= b.consensusEvents || b.consensusEvents <= a.consensusEvents
  {
    hide *;
    NodeKnows(a);
    NodeKnows(b);
    var fame := LogIsTimely(a.peerSets, a.events, DecidedRounds(a.rounds), a.frames, d);
    var fame' := LogIsTimely(b.peerSets, b.events, DecidedRounds(b.rounds), b.frames, d);
    SafeHistoryWithin(a.peerSets, d);
    LogsConverge(a.peerSets, a.events, fame, a.frames, b.peerSets, b.events, fame', b.frames, genesis, receipts, d);
  }

  /** A node that holds the k-th view of a stalemate on round r processes round r only after it has learnt of an
      event of round r + k + 3: blocks received in round r can be committed as late as one likes. */
  lemma NodeWaits(h: Hashgraph, peers: set<Peer>, V: set<Event>, q: Fronts.Front, r: nat, k: nat)
    requires h.Valid() && Fronts.IsFront(h.peerSets, peers, q, r) && Fronts.Tops(V, q)
    requires Stalemate.Views(V, q, k) <= h.events && |h.frames| > r
    ensures exists e :: e in h.events && Round(h.peerSets, e) >= r + k + 3
  {
    hide *;
    NodeKnows(h);
    LogFrozen(h.peerSets, h.events, DecidedRounds(h.rounds), h.frames, r);
    if UpTo(h.peerSets, h.events, r + k + 2) {
      WholePart(h.peerSets, h.events, r + k + 2);
      Stalemate.RoundCanWait(h.peerSets, peers, V, q, r, k, h.events);
    } else {
      LaterEvent(h.peerSets, h.events, r + k + 2);
    }
  }

  lemma LogFrozen(ps: PeerSets, V: set<Event>, D: set<nat>, frames: seq<Frame>, r: nat)
    requires Knows(ps, V, D) && IsLog(ps, V, D, frames) && r < |frames|
    ensures Frozen(ps, V, r)
  {
    hide View, IsFrame, Frozen;
  }

  lemma WholePart(ps: PeerSets, V: set<Event>, k: nat)
    requires UpTo(ps, V, k)
    ensures Part(ps, V, k) == V
  {
    hide Round;
  }

  lemma LaterEvent(ps: PeerSets, V: set<Event>, k: nat)
    requires !UpTo(ps, V, k)
    ensures exists e :: e in V && Round(ps, e) >= k + 1
  {
    hide Round;
  }
}
