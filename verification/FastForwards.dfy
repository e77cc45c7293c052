/** Catching up from a block and its frame (fastForward and commit in src/node/core.go). */
module FastForwards {
  import opened Events
  import opened Rounds
  import opened Received
  import opened Ledger
  import opened Coordinates
  import opened RoundInfos
  import opened Hashgraphs
  import opened Replanting
  import opened Regrowth
  import opened Resets
  import opened Anchors
  import Agreement

  // ----- A node and the blocks that it signs

  /** The stored blocks and frames are those of the chain and the log. */
  ghost predicate Mirrors(blocks: map<int, Block>, frames: map<nat, Frame>, chain: seq<BlockBody>, log: seq<Frame>) {
    && (forall i :: i in blocks ==> 0 <= i < |chain| && blocks[i].signed.body == chain[i])
    && (forall r :: r in frames ==> r < |log| && frames[r] == log[r])
  }

  /** They stay so as the log grows. */
  lemma MirrorsGrow(blocks: map<int, Block>, frames: map<nat, Frame>, chain: seq<BlockBody>, log: seq<Frame>,
                    chain': seq<BlockBody>, log': seq<Frame>)
    requires Mirrors(blocks, frames, chain, log) && chain <= chain' && log <= log'
    ensures Mirrors(blocks, frames, chain', log')
  {
  }

  /** A notary that keeps the blocks of a hashgraph. */
  ghost predicate Follows(n: Notary, h: Hashgraph)
    reads n, h
  {
    n.Valid() && h.Valid() && n.peerSets == h.peerSets && Mirrors(n.blocks, n.frames, h.blocks, h.frames)
  }

  lemma ChainFacts(h: Hashgraph, k: nat)
    requires h.Valid() && k < |h.blocks|
    ensures var b := h.blocks[k];
            b.index == k && b.roundReceived < |h.frames| && b.peers == h.peerSets(b.roundReceived)
  {
    hide *;
    Agreement.NodeKnows(h);
    LogFacts(h.peerSets, h.events, DecidedRounds(h.rounds), h.frames, k);
  }

  lemma LogFacts(ps: PeerSets, V: set<Event>, D: set<nat>, frames: seq<Frame>, k: nat)
    requires IsLog(ps, V, D, frames) && k < |Blocks(frames)|
    ensures var b := Blocks(frames)[k];
            b.index == k && b.roundReceived < |frames| && b.peers == ps(b.roundReceived)
  {
    hide Blocks, Ordered, IsFrameEvent, ReceivedEvents, MadeFrom;
    FramesNumbered(ps, V, D, frames);
    BlocksNumbered(frames);
    BlocksMadeFrom(frames, k);
    MadeInRound(Blocks(frames)[k], frames[Blocks(frames)[k].roundReceived]);
  }

  /** Commits a block of the node's chain: the notary goes on following the hashgraph. */
  method CommitNext(n: Notary, h: Hashgraph, k: nat, response: Option<CommitResponse>, validator: Peer,
                    sign: SignedBody -> string)
    returns (own: Option<BlockSignature>)
    requires Follows(n, h) && k < |h.blocks| && k !in n.blocks
    requires forall s :: n.verify(s, validator, sign(s)) == Some(true)
    modifies n`frames, n`blocks, n`anchor, n`issued
    ensures Follows(n, h) && n.blocks.Keys == old(n.blocks.Keys) + {k}
    ensures forall i :: i in old(n.blocks) ==> n.blocks[i] == old(n.blocks)[i]
    ensures own.Some? <==> response.Some? && validator in h.blocks[k].peers
    ensures own.Some? ==> own.value == BlockSignature(validator, k, sign(n.blocks[k].signed))
    ensures n.issued == old(n.issued) + if own.Some? then {(n.blocks[k].signed, own.value.signature)} else {}
    ensures own.Some? ==> validator in n.blocks[k].signatures && Honest(n, validator, n.blocks[k])
  {
    hide Notary.Valid, Hashgraph.Valid;
    ChainFacts(h, k);
    own := n.Commit(h.blocks[k], h.frames[h.blocks[k].roundReceived], response, validator, sign);
  }

  /** The notary keeps all the blocks of the chain. */
  ghost predicate CaughtUp(n: Notary, h: Hashgraph)
    reads n`blocks, h`blocks
  {
    forall i :: i in n.blocks <==> 0 <= i < |h.blocks|
  }

  /** Inserts an event, and commits the blocks that consensus makes of it. */
  method InsertAndCommit(n: Notary, h: Hashgraph, e: Event, application: BlockBody -> Option<CommitResponse>,
                         validator: Peer, sign: SignedBody -> string)
    returns (result: InsertResult)
    requires Follows(n, h) && CaughtUp(n, h) && (h.Outcome(e) == Inserted ==> h.WellMade(e))
    requires forall s :: n.verify(s, validator, sign(s)) == Some(true)
    modifies n, h
    ensures Follows(n, h) && CaughtUp(n, h) && result == old(h.Outcome(e))
    ensures old(h.blocks) <= h.blocks && old(n.issued) <= n.issued
    ensures forall i :: i in old(n.blocks) ==> i in n.blocks && n.blocks[i] == old(n.blocks)[i]
  {
    hide Hashgraph.Valid, Hashgraph.WellMade, Hashgraph.UpToDate, Notary.Valid, Lasting;
    ghost var chain, log := h.blocks, h.frames;
    var k := |h.blocks|;
    result := h.InsertEventAndRunConsensus(e);
    MirrorsGrow(n.blocks, n.frames, chain, log, h.blocks, h.frames);
    while k < |h.blocks|
      invariant Follows(n, h) && |chain| <= k <= |h.blocks| && chain <= h.blocks && old(n.issued) <= n.issued
      invariant forall i :: i in n.blocks <==> 0 <= i < k
      invariant forall i :: i in old(n.blocks) ==> i in n.blocks && n.blocks[i] == old(n.blocks)[i]
    {
      var own := CommitNext(n, h, k, application(h.blocks[k]), validator, sign);
      k := k + 1;
    }
  }

  // ----- Whose block it is

  /** If p's signature on a block is valid, p made it. */
  ghost predicate Honest(n: Notary, p: Peer, b: Block)
    reads n
  {
    p in b.signatures && n.verify(b.signed, p, b.signatures[p]) == Some(true) ==>
      (b.signed, b.signatures[p]) in n.issued
  }

  /** A block with an honest peer's signature, and a frame with the hash that the block carries, are that peer's. */
  lemma HonestFrame(n: Notary, h: Hashgraph, p: Peer, b: Block, f: Frame)
    requires Follows(n, h) && Honest(n, p, b) && (forall g :: n.hash(g) == n.hash(f) ==> g == f)
    requires p in b.signatures && n.verify(b.signed, p, b.signatures[p]) == Some(true)
    requires b.signed.frameHash == n.hash(f)
    ensures var r := b.signed.body.roundReceived;
            b.signed.body in h.blocks && r < |h.frames| && f == h.frames[r]
  {
    hide Hashgraph.Valid, Sealed;
    var i := b.signed.body.index;
    assert n.Stored(n.blocks[i], i);
  }

  // ----- Fast-forward

  datatype Outcome = Accepted | BadSignatures | BadFrameHash | UnknownCreator

  /** These peers keep the blocks of a hashgraph of theirs, and nobody else made their signatures on b. */
  ghost predicate HonestPeers(verify: Verifier, hash: Frame -> Bytes, peers: set<Peer>, b: Block,
                              notaries: map<Peer, Notary>, nodes: map<Peer, Hashgraph>)
    reads set p | p in notaries :: notaries[p]
    reads set p | p in nodes :: nodes[p]
  {
    forall p :: p in peers ==>
      && p in notaries && p in nodes && notaries[p].verify == verify && notaries[p].hash == hash
      && Follows(notaries[p], nodes[p]) && Honest(notaries[p], p, b)
  }

  /** The node holds the frame's events and no others, with the ancestry and the attributes that h gives them. */
  ghost predicate StandsOn(node: Replanted, f: Frame, h: Hashgraph)
    reads node, h
  {
    && node.Ancestral(h.events) && node.Attributed(h.peerSets, node.events)
    && (forall x :: x in node.events <==> exists e :: Holds(f, e) && e.core == x)
    && forall x, y :: x in node.events && y in node.events ==>
         x in node.lastAncestors && (Covers(node.lastAncestors[x], y) <==> y in StoredBelow(node.events, x))
  }

  /** Resets the hashgraph from a frame of h. */
  method ResetFrom(f: Frame, node: Replanted, participants: set<Peer>, ghost h: Hashgraph, ghost r: nat)
    returns (unknown: bool)
    requires h.Valid() && r < |h.frames| && f == h.frames[r]
    modifies node
    ensures unknown <==> exists e :: Holds(f, e) && e.core.creator !in participants
    ensures !unknown ==> StandsOn(node, f, h)
  {
    hide *;
    Agreement.FramesReplantable(h, r);
    var error, order := node.Reset(f, participants, h.peerSets, h.events, h.participantEvents);
    unknown := error.Some?;
    if !unknown { Stands(node, f, h, order); }
  }

  lemma Stands(node: Replanted, f: Frame, h: Hashgraph, order: seq<FrameEvent>)
    requires node.Ancestral(h.events) && node.Attributed(h.peerSets, node.events)
    requires (forall e :: e in order <==> Holds(f, e)) && forall x :: x in node.events <==> x in Cores(order)
    requires forall x, y :: x in node.events && y in node.events ==>
               x in node.lastAncestors && (Covers(node.lastAncestors[x], y) <==> y in StoredBelow(node.events, x))
    ensures StandsOn(node, f, h)
  {
    hide Holds, Covers, StoredBelow, Replanted.Ancestral, Replanted.Attributed, Cores;
    CoresOf(order);
  }

  lemma CoresOf(s: seq<FrameEvent>)
    ensures forall x :: x in Cores(s) <==> exists e :: e in s && e.core == x
  {
    forall e | e in s
      ensures e.core in Cores(s)
    {
      var k :| 0 <= k < |s| && s[k] == e;
      assert Cores(s)[k] == e.core;
    }
  }

  /** Checks a block and its frame, and resets the hashgraph from the frame. With fewer than a third of faulty peers,
      what passes the checks is a block and a frame of an honest node p; then the reset fails only for a creator that
      is not a participant, and the new hashgraph is sound for p's view. */
  method FastForward(verify: Verifier, hash: Frame -> Bytes, b: Block, f: Frame, node: Replanted,
                     participants: set<Peer>, ghost faulty: set<Peer>, ghost notaries: map<Peer, Notary>,
                     ghost nodes: map<Peer, Hashgraph>)
    returns (outcome: Outcome, ghost p: Peer)
    requires HonestPeers(verify, hash, f.peers - faulty, b, notaries, nodes)
    requires Proven(verify, b, f.peers) ==> 3 * |faulty * f.peers| < |f.peers|
    requires forall g :: hash(g) == hash(f) ==> g == f
    modifies node
    ensures outcome == BadSignatures <==> !Proven(verify, b, f.peers)
    ensures outcome == BadFrameHash <==> Proven(verify, b, f.peers) && b.signed.frameHash != hash(f)
    ensures outcome == BadSignatures || outcome == BadFrameHash ==> unchanged(node)
    ensures outcome == Accepted || outcome == UnknownCreator ==>
              && p in f.peers && p !in faulty && p in nodes
              && b.signed.body in nodes[p].blocks && b.signed.body.roundReceived < |nodes[p].frames|
              && f == nodes[p].frames[b.signed.body.roundReceived]
    ensures outcome == UnknownCreator ==> exists e :: Holds(f, e) && e.core.creator !in participants
    ensures outcome == Accepted ==>
              && (forall e :: Holds(f, e) ==> e.core.creator in participants)
              && StandsOn(node, f, nodes[p])
  {
    hide Holds, StandsOn, Hashgraph.Valid, Notary.Valid;
    p := "";
    var ok := CheckBlock(verify, b, f.peers);
    if !ok {
      return BadSignatures, p;
    }
    if b.signed.frameHash != hash(f) {
      return BadFrameHash, p;
    }
    p := HonestSigner(verify, b, f.peers, faulty);
    HonestFrame(notaries[p], nodes[p], p, b, f);
    var unknown := ResetFrom(f, node, participants, nodes[p], b.signed.body.roundReceived);
    if unknown {
      return UnknownCreator, p;
    }
    return Accepted, p;
  }
}
