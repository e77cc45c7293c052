/** Signed blocks and the anchor from which other nodes may fast-forward (ProcessSigPool, SetAnchorBlock and
    CheckBlock in src/hashgraph/hashgraph.go, commit in src/node/core.go, src/hashgraph/block.go). */
module Anchors {
  import opened Events
  import opened Quorum
  import opened Rounds
  import opened Received
  import opened Ledger

  /** A block as it is signed: what consensus and then the application put in it. */
  datatype SignedBody = SignedBody(body: BlockBody, frameHash: Bytes, stateHash: Bytes, receipts: seq<bool>)

  datatype Block = Block(signed: SignedBody, signatures: map<Peer, string>) {
    function SetSignature(bs: BlockSignature): Block {
      this.(signatures := signatures[bs.validator := bs.signature])
    }
  }

  /** What the application answers when a block is committed. */
  datatype CommitResponse = CommitResponse(stateHash: Bytes, receipts: seq<bool>)

  /** Some(whether a signature is valid), or None for a signature that cannot be decoded. */
  type Verifier = (SignedBody, Peer, string) -> Option<bool>

  /** The peers whose signatures on a block are valid and count. */
  ghost function Signers(verify: Verifier, b: Block, peers: set<Peer>): set<Peer> {
    set p | p in b.signatures && p in peers && verify(b.signed, p, b.signatures[p]) == Some(true)
  }

  /** What CheckBlock accepts. */
  ghost predicate Proven(verify: Verifier, b: Block, peers: set<Peer>) {
    b.signed.body.peers == peers && |Signers(verify, b, peers)| > TrustCount(|peers|)
  }

  /** An accepted block has one valid signature more than a third of its peers. */
  lemma ProvenInNumbers(verify: Verifier, b: Block, peers: set<Peer>)
    ensures Proven(verify, b, peers) <==>
            && b.signed.body.peers == peers
            && if |peers| > 1 then 3 * (|Signers(verify, b, peers)| - 1) >= |peers| else Signers(verify, b, peers) != {}
  {
  }

  /** More than a third of the peers is what the threshold asks for, as documented, exactly when their number is a
      multiple of three or at most one: else it asks for one more. */
  lemma MoreThanAThird(n: nat)
    ensures (forall s: nat :: s > TrustCount(n) <==> 3 * s > n) <==> n <= 1 || n % 3 == 0
    ensures n > 1 && n % 3 != 0 ==> 3 * TrustCount(n) > n
    ensures forall s: nat :: s > TrustCount(n) ==> 3 * s > n
  {
    var t := TrustCount(n);
    if n > 1 && n % 3 != 0 { assert 3 * t > n && !(t > t); }
  }

  /** With fewer than a third of faulty peers, an accepted block carries an honest peer's signature. */
  lemma HonestSigner(verify: Verifier, b: Block, peers: set<Peer>, faulty: set<Peer>) returns (p: Peer)
    requires Proven(verify, b, peers) && 3 * |faulty * peers| < |peers|
    ensures p in peers && p !in faulty && p in b.signatures && verify(b.signed, p, b.signatures[p]) == Some(true)
  {
    var s := Signers(verify, b, peers);
    SubsetSize(s - faulty, peers);
    SubsetSize(s * faulty, faulty * peers);
    assert s == (s - faulty) + (s * faulty);
    p := Pick(s - faulty);
  }

  /** Every signature on a stored block is valid for its body, by a peer of its round. */
  ghost predicate Sealed(verify: Verifier, peerSets: PeerSets, b: Block) {
    && b.signed.body.peers == peerSets(b.signed.body.roundReceived)
    && forall p :: p in b.signatures ==> p in b.signed.body.peers && verify(b.signed, p, b.signatures[p]) == Some(true)
  }

  lemma SealedProven(verify: Verifier, peerSets: PeerSets, b: Block)
    requires Sealed(verify, peerSets, b)
    ensures Signers(verify, b, b.signed.body.peers) == b.signatures.Keys
    ensures Proven(verify, b, b.signed.body.peers) <==> |b.signatures| > TrustCount(|b.signed.body.peers|)
  {
    assert |b.signatures| == |b.signatures.Keys|;
  }

  lemma SealedMore(verify: Verifier, peerSets: PeerSets, b: Block, bs: BlockSignature)
    requires Sealed(verify, peerSets, b) && bs.validator in b.signed.body.peers
    requires verify(b.signed, bs.validator, bs.signature) == Some(true)
    ensures Sealed(verify, peerSets, b.SetSignature(bs)) && |b.signatures| <= |b.SetSignature(bs).signatures|
  {
    SubsetSize(b.signatures.Keys, b.SetSignature(bs).signatures.Keys);
    assert |b.signatures| == |b.signatures.Keys|;
    assert |b.SetSignature(bs).signatures| == |b.SetSignature(bs).signatures.Keys|;
  }

  /** Whether a block carries enough valid signatures from a peer-set, which must be its own. */
  method CheckBlock(verify: Verifier, b: Block, peers: set<Peer>) returns (ok: bool)
    ensures ok <==> Proven(verify, b, peers)
  {
    if peers != b.signed.body.peers {
      return false;
    }
    var validSignatures := 0;
    var todo := b.signatures.Keys;
    ghost var counted: set<Peer> := {};
    while todo != {}
      invariant todo <= b.signatures.Keys && validSignatures == |counted|
      invariant counted == set p | p in Signers(verify, b, peers) && p !in todo
      decreases todo
    {
      var p :| p in todo;
      todo := todo - {p};
      if p in peers {
        if verify(b.signed, p, b.signatures[p]) == Some(true) {
          validSignatures := validSignatures + 1;
          counted := counted + {p};
        }
      }
    }
    assert counted == Signers(verify, b, peers);
    ok := validSignatures > TrustCount(|peers|);
  }

  class Notary {
    const verify: Verifier
    const peerSets: PeerSets
    const hash: Frame -> Bytes

    var frames: map<nat, Frame>
    var blocks: map<int, Block>
    var anchor: Option<int>

    /** Signatures gathered from events, by block index and validator. */
    var pending: map<(int, Peer), BlockSignature>

    /** The signatures that this node has made. */
    ghost var issued: set<(SignedBody, string)>

    ghost predicate Valid()
      reads this
    {
      && (forall i :: i in blocks ==> Stored(blocks[i], i))
      && (forall k :: k in pending ==> k == (pending[k].index, pending[k].validator))
      && (anchor.Some? ==>
            anchor.value in blocks
            && Proven(verify, blocks[anchor.value], blocks[anchor.value].signed.body.peers))
      && (forall s :: s in issued ==> s.0.body.index in blocks && blocks[s.0.body.index].signed == s.0)
    }

    ghost predicate Stored(b: Block, i: int)
      reads this`frames
    {
      && b.signed.body.index == i && Sealed(verify, peerSets, b)
      && b.signed.body.roundReceived in frames && b.signed.frameHash == hash(frames[b.signed.body.roundReceived])
    }

    constructor (verify: Verifier, peerSets: PeerSets, hash: Frame -> Bytes)
      ensures Valid() && blocks == map[] && anchor == None && pending == map[] && frames == map[] && issued == {}
      ensures this.verify == verify && this.peerSets == peerSets && this.hash == hash
    {
      this.verify, this.peerSets, this.hash := verify, peerSets, hash;
      frames, blocks, anchor, pending, issued := map[], map[], None, map[], {};
    }

    /** A block that has more signatures than the trust count becomes the anchor, if it is above it. */
    method SetAnchorBlock(b: Block)
      requires Valid() && b.signed.body.index in blocks && blocks[b.signed.body.index] == b
      modifies this`anchor
      ensures Valid()
      ensures anchor == if |b.signatures| > TrustCount(|peerSets(b.signed.body.roundReceived)|) &&
                           (old(anchor).None? || b.signed.body.index > old(anchor).value)
                        then Some(b.signed.body.index) else old(anchor)
    {
      hide Sealed, Proven;
      assert Stored(b, b.signed.body.index);
      SealedProven(verify, peerSets, b);
      SealedPeers(b);
      if |b.signatures| > TrustCount(|peerSets(b.signed.body.roundReceived)|) &&
         (anchor.None? || b.signed.body.index > anchor.value)
      {
        anchor := Some(b.signed.body.index);
      }
    }

    lemma SealedPeers(b: Block)
      requires Sealed(verify, peerSets, b)
      ensures b.signed.body.peers == peerSets(b.signed.body.roundReceived)
    {
    }

    /** Commits a block made from a frame: the application completes it, and the node signs it if it
        is among the round's peers. */
    method Commit(body: BlockBody, frame: Frame, response: Option<CommitResponse>, validator: Peer,
                  sign: SignedBody -> string)
      returns (own: Option<BlockSignature>)
      requires Valid() && body.index !in blocks && body.peers == peerSets(body.roundReceived)
      requires body.roundReceived in frames ==> frames[body.roundReceived] == frame
      requires forall s :: verify(s, validator, sign(s)) == Some(true)
      modifies this`frames, this`blocks, this`anchor, this`issued
      ensures Valid()
      ensures frames == old(frames)[body.roundReceived := frame] && blocks.Keys == old(blocks.Keys) + {body.index}
      ensures forall i :: i in old(blocks) ==> blocks[i] == old(blocks)[i]
      ensures blocks[body.index].signed.body == body && blocks[body.index].signed.frameHash == hash(frame)
      ensures response.Some? ==> blocks[body.index].signed.stateHash == response.value.stateHash
                                 && blocks[body.index].signed.receipts == response.value.receipts
      ensures response.None? ==> blocks[body.index].signed.stateHash == [] && blocks[body.index].signed.receipts == []
      ensures own.Some? <==> response.Some? && validator in peerSets(body.roundReceived)
      ensures own.Some? ==> blocks[body.index].signatures == map[validator := own.value.signature]
                            && own.value == BlockSignature(validator, body.index, sign(blocks[body.index].signed))
      ensures own.None? ==> blocks[body.index].signatures == map[]
      ensures issued == old(issued) +
                        if own.Some? then {(blocks[body.index].signed, own.value.signature)} else {}
      ensures anchor != old(anchor) ==> anchor == Some(body.index)
    {
      hide Valid, Sealed;
      var b;
      b, own := Complete(body, frame, response, validator, sign);
      SetBlock(b, frame, own);
      if response.Some? {
        SetAnchorBlock(b);
      }
    }

    /** The block as the application completes it and the node signs it. */
    method Complete(body: BlockBody, frame: Frame, response: Option<CommitResponse>, validator: Peer,
                    sign: SignedBody -> string)
      returns (b: Block, own: Option<BlockSignature>)
      requires body.peers == peerSets(body.roundReceived)
      requires forall s :: verify(s, validator, sign(s)) == Some(true)
      ensures Sealed(verify, peerSets, b)
      ensures b.signed == SignedBody(body, hash(frame), if response.Some? then response.value.stateHash else [],
                                     if response.Some? then response.value.receipts else [])
      ensures own.Some? <==> response.Some? && validator in body.peers
      ensures own.Some? ==> b.signatures == map[validator := own.value.signature]
                            && own.value == BlockSignature(validator, body.index, sign(b.signed))
      ensures own.None? ==> b.signatures == map[]
    {
      b := Block(SignedBody(body, hash(frame), [], []), map[]);
      own := None;
      if response.Some? {
        b := b.(signed := b.signed.(stateHash := response.value.stateHash, receipts := response.value.receipts));
        if validator in b.signed.body.peers {
          var bs := BlockSignature(validator, body.index, sign(b.signed));
          b := b.SetSignature(bs);
          own := Some(bs);
        }
      }
    }

    /** Stores a new block and the frame it was made from. */
    method SetBlock(b: Block, frame: Frame, ghost own: Option<BlockSignature>)
      requires Valid() && b.signed.body.index !in blocks && Sealed(verify, peerSets, b)
               && b.signed.frameHash == hash(frame)
      requires b.signed.body.roundReceived in frames ==> frames[b.signed.body.roundReceived] == frame
      modifies this`frames, this`blocks, this`issued
      ensures Valid() && blocks == old(blocks)[b.signed.body.index := b]
      ensures frames == old(frames)[b.signed.body.roundReceived := frame]
      ensures issued == old(issued) + if own.Some? then {(b.signed, own.value.signature)} else {}
    {
      hide Proven, Sealed;
      frames := frames[b.signed.body.roundReceived := frame];
      blocks := blocks[b.signed.body.index := b];
      issued := issued + if own.Some? then {(b.signed, own.value.signature)} else {};
    }

    /** Whether a gathered signature can be put on its block. */
    ghost predicate Acceptable(blocks: map<int, Block>, bs: BlockSignature) {
      && bs.index in blocks && bs.validator in peerSets(blocks[bs.index].signed.body.roundReceived)
      && verify(blocks[bs.index].signed, bs.validator, bs.signature) == Some(true)
    }

    ghost predicate SignedIn(blocks: map<int, Block>, bs: BlockSignature) {
      && bs.index in blocks && bs.validator in blocks[bs.index].signatures
      && blocks[bs.index].signatures[bs.validator] == bs.signature
    }

    /** Blocks keep their bodies and gather signatures. */
    ghost predicate GatheredFrom(before: map<int, Block>, after: map<int, Block>) {
      && before.Keys == after.Keys
      && forall i :: i in before ==>
           after[i].signed == before[i].signed && before[i].signatures.Keys <= after[i].signatures.Keys
    }

    ghost predicate Above(anchor0: Option<int>)
      reads this`anchor
    {
      anchor0.Some? ==> anchor.Some? && anchor0.value <= anchor.value
    }

    /** Puts the signatures that were gathered on their blocks. It stops at one that cannot be decoded. */
    method ProcessSigPool() returns (error: bool)
      requires Valid()
      modifies this`blocks, this`anchor, this`pending
      ensures Valid() && GatheredFrom(old(blocks), blocks) && Above(old(anchor))
      ensures forall k :: k in pending ==> k in old(pending) && pending[k] == old(pending)[k]
      ensures forall k :: k in old(pending) && k !in pending ==>
                Acceptable(old(blocks), old(pending)[k]) && SignedIn(blocks, old(pending)[k])
      ensures !error ==> forall k :: k in pending ==> !Acceptable(old(blocks), pending[k])
    {
      hide Valid, Acceptable, SignedIn, GatheredFrom;
      var items := pending;
      var todo := items.Keys;
      PoolKeys();
      assert GatheredFrom(blocks, blocks) by { GatheredNone(); }
      while todo != {}
        invariant Valid() && GatheredFrom(old(blocks), blocks) && Above(old(anchor))
        invariant todo <= pending.Keys && pending.Keys <= items.Keys
        invariant forall k :: k in pending ==> pending[k] == items[k]
        invariant forall k :: k in items && k !in pending ==>
                  Acceptable(old(blocks), items[k]) && SignedIn(blocks, items[k])
        invariant forall k :: k in pending && k !in todo ==> !Acceptable(old(blocks), items[k])
        decreases todo
      {
        var k :| k in todo;
        todo := todo - {k};
        AcceptableStays(old(blocks), items[k]);
        ghost var was := blocks;
        var accepted;
        accepted, error := ProcessSignature(items[k]);
        assert GatheredFrom(old(blocks), blocks) by { GatheredMore(old(blocks), was); }
        if error {
          return;
        }
        OthersSigned(items, pending, k, was, accepted);
        if accepted {
          RemovePending(k);
        }
      }
      error := false;
    }

    method RemovePending(k: (int, Peer))
      requires Valid()
      modifies this`pending
      ensures Valid() && pending == old(pending) - {k}
    {
      pending := pending - {k};
    }

    /** Signatures under different keys do not disturb each other. */
    lemma OthersSigned(items: map<(int, Peer), BlockSignature>, left: map<(int, Peer), BlockSignature>, k: (int, Peer),
                       before: map<int, Block>, accepted: bool)
      requires k in left && k in items && forall l :: l in items ==> l == (items[l].index, items[l].validator)
      requires forall l :: l in items && l !in left ==> SignedIn(before, items[l])
      requires if accepted then items[k].index in before &&
                 blocks == before[items[k].index := before[items[k].index].SetSignature(items[k])]
               else blocks == before
      ensures forall l :: l in items && l !in left ==> SignedIn(blocks, items[l])
      ensures accepted ==> SignedIn(blocks, items[k])
    {
    }

    lemma PoolKeys()
      requires Valid()
      ensures forall k :: k in pending ==> k == (pending[k].index, pending[k].validator)
    {
    }

    lemma GatheredNone()
      ensures GatheredFrom(blocks, blocks)
    {
    }

    lemma AcceptableStays(blocks0: map<int, Block>, bs: BlockSignature)
      requires GatheredFrom(blocks0, blocks)
      ensures Acceptable(blocks0, bs) == Acceptable(blocks, bs)
    {
    }

    lemma GatheredMore(blocks0: map<int, Block>, blocks1: map<int, Block>)
      requires GatheredFrom(blocks1, blocks) && GatheredFrom(blocks0, blocks1)
      ensures GatheredFrom(blocks0, blocks)
    {
    }

    /** Puts one signature on its block. */
    method ProcessSignature(bs: BlockSignature) returns (accepted: bool, error: bool)
      requires Valid()
      modifies this`blocks, this`anchor
      ensures Valid() && GatheredFrom(old(blocks), blocks) && Above(old(anchor))
      ensures accepted ==> !error && Acceptable(old(blocks), bs) && bs.index in old(blocks)
      ensures accepted ==> blocks == old(blocks)[bs.index := old(blocks)[bs.index].SetSignature(bs)]
      ensures !accepted ==> !Acceptable(old(blocks), bs) && blocks == old(blocks)
    {
      accepted, error := false, false;
      if bs.index !in blocks {
        return;
      }
      var b := blocks[bs.index];
      if bs.validator !in peerSets(b.signed.body.roundReceived) {
        return;
      }
      var valid := verify(b.signed, bs.validator, bs.signature);
      if valid.None? {
        return false, true;
      }
      if !valid.value {
        return;
      }
      AddSignature(bs);
      SetAnchorBlock(blocks[bs.index]);
      accepted := true;
    }

    method AddSignature(bs: BlockSignature)
      requires Valid() && Acceptable(blocks, bs)
      modifies this`blocks
      ensures Valid() && GatheredFrom(old(blocks), blocks)
      ensures blocks == old(blocks)[bs.index := old(blocks)[bs.index].SetSignature(bs)]
    {
      hide Proven, Sealed;
      var b := blocks[bs.index];
      assert Stored(b, bs.index);
      SealedPeers(b);
      SealedMore(verify, peerSets, b, bs);
      SealedProven(verify, peerSets, b);
      SealedProven(verify, peerSets, b.SetSignature(bs));
      blocks := blocks[bs.index := b.SetSignature(bs)];
    }

    /** Keeps a signature found in an event, under its block index and validator. */
    method AddPending(bs: BlockSignature)
      requires Valid()
      modifies this`pending
      ensures Valid() && pending == old(pending)[(bs.index, bs.validator) := bs]
    {
      hide Stored, Proven;
      pending := pending[(bs.index, bs.validator) := bs];
    }

    /** The anchor and its frame, which any node will accept: the block passes CheckBlock against the
        peer-set of its round, and the frame has the hash that the block carries. */
    method GetAnchorBlockWithFrame() returns (result: Option<(Block, Frame)>)
      requires Valid()
      ensures result.Some? <==> anchor.Some?
      ensures result.Some? ==>
                && result.value.0.signed.body.index == anchor.value
                && Proven(verify, result.value.0, peerSets(result.value.0.signed.body.roundReceived))
                && result.value.0.signed.frameHash == hash(result.value.1)
    {
      if anchor.None? {
        return None;
      }
      var b := blocks[anchor.value];
      assert Stored(b, anchor.value);
      return Some((b, frames[b.signed.body.roundReceived]));
    }
  }
}
