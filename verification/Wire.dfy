/** Events as they travel between nodes (ToWire in src/hashgraph/event.go, ReadWireInfo in
    src/hashgraph/hashgraph.go). */
module Wire {
  import opened Events
  import opened Coordinates

  datatype WireBlockSignature = WireBlockSignature(index: int, signature: string)

  /** An event whose parents are named by creator and index. */
  datatype WireEvent = WireEvent(
    transactions: seq<Bytes>,
    internalTransactions: seq<InternalTransaction>,
    blockSignatures: seq<WireBlockSignature>,
    creatorID: nat,
    otherParentCreatorID: nat,
    index: int,
    selfParentIndex: int,
    otherParentIndex: int,
    timestamp: int,
    signatureR: int)

  datatype ReadError = CreatorNotFound | ParticipantNotFound | SelfParentNotFound | OtherParentNotFound

  datatype ReadResult = Read(event: Event) | Failed(error: ReadError)

  /** The digest of an event's body is a function of everything else. */
  type Digest = Event -> Bytes

  function Hashed(digest: Digest, e: Event): Event {
    var bare := e.(payload := e.payload.(hash := []));
    bare.(payload := bare.payload.(hash := digest(bare)))
  }

  ghost predicate WellHashed(digest: Digest, e: Event) {
    Hashed(digest, e) == e
  }

  function WireSignatures(bs: seq<BlockSignature>): (ws: seq<WireBlockSignature>)
    ensures |ws| == |bs|
  {
    seq(|bs|, i requires 0 <= i < |bs| => WireBlockSignature(bs[i].index, bs[i].signature))
  }

  function ReadSignatures(ws: seq<WireBlockSignature>, validator: Peer): (bs: seq<BlockSignature>)
    ensures |bs| == |ws|
  {
    seq(|ws|, i requires 0 <= i < |ws| => BlockSignature(validator, ws[i].index, ws[i].signature))
  }

  function ToWire(ids: Peer -> nat, e: Event): WireEvent {
    WireEvent(
      e.payload.transactions, e.payload.internalTransactions, WireSignatures(e.payload.blockSignatures),
      ids(e.creator), if e.otherParent.Some? then ids(e.otherParent.value.creator) else 0,
      e.index, if e.selfParent.Some? then e.selfParent.value.index else -1,
      if e.otherParent.Some? then e.otherParent.value.index else -1,
      e.payload.timestamp, e.payload.signatureR)
  }

  /** A participant's event at an index (Store.ParticipantEvent). */
  function ParticipantEvent(pe: map<Peer, seq<Event>>, p: Peer, index: int): Option<Event> {
    if p in pe && 0 <= index < |pe[p]| then Some(pe[p][index]) else None
  }

  /** Finds the parents of a wire event, by what the node knows. */
  function ReadWireInfo(repertoire: map<nat, Peer>, pe: map<Peer, seq<Event>>, digest: Digest,
                        w: WireEvent): ReadResult {
    if w.creatorID !in repertoire then Failed(CreatorNotFound)
    else
      var creator := repertoire[w.creatorID];
      var selfParent := if w.selfParentIndex >= 0 then ParticipantEvent(pe, creator, w.selfParentIndex) else None;
      if w.selfParentIndex >= 0 && selfParent.None? then Failed(SelfParentNotFound)
      else if w.otherParentIndex >= 0 && w.otherParentCreatorID !in repertoire then Failed(ParticipantNotFound)
      else
        var otherParent :=
          if w.otherParentIndex >= 0 then
            ParticipantEvent(pe, repertoire[w.otherParentCreatorID], w.otherParentIndex)
          else
            None;
        if w.otherParentIndex >= 0 && otherParent.None? then Failed(OtherParentNotFound)
        else
          Read(Hashed(digest, Event(creator, w.index, selfParent, otherParent,
            Payload(w.transactions, w.internalTransactions, ReadSignatures(w.blockSignatures, creator),
                    w.timestamp, [], w.signatureR))))
  }

  /** The repertoire names the participants by their ID. */
  ghost predicate Names(repertoire: map<nat, Peer>, ids: Peer -> nat, participants: set<Peer>) {
    && (forall p :: p in participants ==> ids(p) in repertoire && repertoire[ids(p)] == p)
    && (forall i :: i in repertoire ==> repertoire[i] in participants && ids(repertoire[i]) == i)
  }

  /** The signatures in an event are its creator's own. */
  ghost predicate OwnSignatures(e: Event) {
    forall i :: 0 <= i < |e.payload.blockSignatures| ==> e.payload.blockSignatures[i].validator == e.creator
  }

  /** A node that knows the parents of an event reads it from the wire; it reads the same event
      exactly when the block signatures in it are its creator's. */
  lemma WireRoundTrip(ids: Peer -> nat, repertoire: map<nat, Peer>, V: set<Event>, pe: map<Peer, seq<Event>>,
                      digest: Digest, e: Event)
    requires Indexed(V, pe) && Names(repertoire, ids, pe.Keys) && Parents(e) <= V && e.creator in pe
    requires WellIndexed(e) && WellHashed(digest, e)
    ensures ReadWireInfo(repertoire, pe, digest, ToWire(ids, e)).Read?
    ensures ReadWireInfo(repertoire, pe, digest, ToWire(ids, e)).event == e <==> OwnSignatures(e)
  {
    var w := ToWire(ids, e);
    if e.selfParent.Some? { assert e.selfParent.value in Parents(e); }
    if e.otherParent.Some? { assert e.otherParent.value in Parents(e); }
    var read := ReadWireInfo(repertoire, pe, digest, w).event;
    SignaturesRoundTrip(e);
    var bs := ReadSignatures(WireSignatures(e.payload.blockSignatures), e.creator);
    assert read == Hashed(digest, e.(payload := e.payload.(blockSignatures := bs)));
  }

  /** What is known by a creator's ID and an index. */
  ghost predicate Known(repertoire: map<nat, Peer>, V: set<Event>, id: nat, index: int, x: Event) {
    x in V && id in repertoire && x.creator == repertoire[id] && x.index == index
  }

  /** A wire event is read exactly when its creator and the parents it names are known; an index below zero names no
      parent, and any other the event of that creator with that index. */
  lemma ReadFindsParents(repertoire: map<nat, Peer>, V: set<Event>, pe: map<Peer, seq<Event>>, digest: Digest,
                         w: WireEvent)
    requires Indexed(V, pe)
    ensures var read := ReadWireInfo(repertoire, pe, digest, w);
            && (read.Read? <==>
                && w.creatorID in repertoire
                && (w.selfParentIndex >= 0 ==> exists x :: Known(repertoire, V, w.creatorID, w.selfParentIndex, x))
                && (w.otherParentIndex >= 0 ==>
                      exists x :: Known(repertoire, V, w.otherParentCreatorID, w.otherParentIndex, x)))
            && (read.Read? ==>
                  var e := read.event;
                  && e.creator == repertoire[w.creatorID]
                  && (e.selfParent.Some? <==> w.selfParentIndex >= 0)
                  && (e.selfParent.Some? ==>
                        Known(repertoire, V, w.creatorID, w.selfParentIndex, e.selfParent.value))
                  && (e.otherParent.Some? <==> w.otherParentIndex >= 0)
                  && (e.otherParent.Some? ==>
                        Known(repertoire, V, w.otherParentCreatorID, w.otherParentIndex, e.otherParent.value)))
  {
    if w.creatorID in repertoire { FoundAt(repertoire, V, pe, w.creatorID, w.selfParentIndex); }
    if w.otherParentCreatorID in repertoire { FoundAt(repertoire, V, pe, w.otherParentCreatorID, w.otherParentIndex); }
  }

  lemma FoundAt(repertoire: map<nat, Peer>, V: set<Event>, pe: map<Peer, seq<Event>>, id: nat, index: int)
    requires Indexed(V, pe) && id in repertoire
    ensures var found := ParticipantEvent(pe, repertoire[id], index);
            && (found.Some? <==> exists x :: Known(repertoire, V, id, index, x))
            && (found.Some? ==> Known(repertoire, V, id, index, found.value))
  {
    var found := ParticipantEvent(pe, repertoire[id], index);
    if found.Some? { assert Known(repertoire, V, id, index, found.value); }
  }

  /** What is read and sent on is what was received, if it names no parent only by index -1 and creator 0. */
  lemma ReadRoundTrip(ids: Peer -> nat, repertoire: map<nat, Peer>, V: set<Event>, pe: map<Peer, seq<Event>>,
                      digest: Digest, w: WireEvent)
    requires Indexed(V, pe) && Names(repertoire, ids, pe.Keys) && ReadWireInfo(repertoire, pe, digest, w).Read?
    ensures ToWire(ids, ReadWireInfo(repertoire, pe, digest, w).event) == w <==>
            w.selfParentIndex >= -1 && w.otherParentIndex >= -1 &&
            (w.otherParentIndex == -1 ==> w.otherParentCreatorID == 0)
  {
    ReadFindsParents(repertoire, V, pe, digest, w);
    var creator := repertoire[w.creatorID];
    assert WireSignatures(ReadSignatures(w.blockSignatures, creator)) == w.blockSignatures;
  }

  lemma SignaturesRoundTrip(e: Event)
    ensures ReadSignatures(WireSignatures(e.payload.blockSignatures), e.creator) == e.payload.blockSignatures <==>
            OwnSignatures(e)
  {
    var bs := e.payload.blockSignatures;
    var rs := ReadSignatures(WireSignatures(bs), e.creator);
    forall i | 0 <= i < |bs|
      ensures rs[i] == bs[i] <==> bs[i].validator == e.creator
    {
    }
  }
}
