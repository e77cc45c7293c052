/** A node's hashgraph: the DAG, its indexes and memos, and the consensus methods
    (src/hashgraph/hashgraph.go). */
module Hashgraphs {
  import opened Events
  import opened Quorum
  import opened Rounds
  import opened Voting
  import opened Received
  import opened Ledger
  import opened Coordinates
  import opened RoundInfos
  import opened Books
  import opened Frames
  import opened Memo
  import opened Lru
  import opened Medians

  datatype InsertResult =
    | Inserted
    | InvalidSignature
    | SelfParentError(normal: bool)
    | OtherParentUnknown

  /** Whether the self-parent of e is its creator's last known event. */
  function CheckSelfParent(pe: map<Peer, seq<Event>>, e: Event): InsertResult {
    if e.creator !in pe then SelfParentError(false)
    else
      var last := pe[e.creator];
      if last == [] then (if e.selfParent.None? then Inserted else SelfParentError(false))
      else if e.selfParent == Some(last[|last| - 1]) then Inserted
      else SelfParentError(true)
  }

  /** What becomes of an attempt to insert e: its signature, its self-parent and its other-parent are checked. */
  function CheckEvent(verify: Event -> bool, pe: map<Peer, seq<Event>>, events: set<Event>, e: Event): InsertResult {
    if !verify(e) then InvalidSignature
    else if CheckSelfParent(pe, e) != Inserted then CheckSelfParent(pe, e)
    else if e.otherParent.Some? && e.otherParent.value !in events then OtherParentUnknown
    else Inserted
  }

  class Hashgraph {
    /** The peer-set in force at each round (Store.GetPeerSet). */
    const peerSets: PeerSets

    /** The first round at which each peer appears in a peer-set (Store.FirstRound). */
    const firstRounds: map<Peer, nat>

    /** Whether an event and its internal transactions carry valid signatures. */
    const verify: Event -> bool

    // The store of events, and the order in which they were inserted
    var events: set<Event>
    var topologicalOrder: seq<Event>
    var participantEvents: map<Peer, seq<Event>>
    var lastAncestors: map<Event, CoordinatesMap>
    var firstDescendants: map<Event, CoordinatesMap>

    // The store of rounds, and the attributes that consensus gives to events
    var rounds: map<nat, RoundInfo>
    var lastRound: int
    var eventRounds: map<Event, nat>
    var eventLamports: map<Event, nat>
    var roundReceived: map<Event, nat>

    // Events whose consensus order is not determined yet, and rounds not processed yet
    var undetermined: seq<Event>
    var pendingRounds: seq<PendingRound>

    // The frames of processed rounds, by round, and what was committed
    var frames: seq<Frame>
    var blocks: seq<BlockBody>
    var consensusEvents: seq<Event>
    var lastConsensusEvents: map<Peer, Event>
    var pendingLoadedEvents: int

    // The memos
    var ancestorCache: Cache<(Event, Event), bool>
    var stronglySeeCache: Cache<(Event, Event, set<Peer>), bool>
    var roundCache: Cache<Event, nat>
    var witnessCache: Cache<Event, bool>
    var timestampCache: Cache<Event, nat>

    // ----- Invariants of the DAG

    /** Coordinates are reachability: last ancestors are exact, first descendants are sound,
        and complete for the events of C. */
    ghost predicate Located(C: set<Event>)
      reads this`events, this`lastAncestors, this`firstDescendants
    {
      && View(events) && Closed(C) && C <= events
      && lastAncestors.Keys == events && firstDescendants.Keys == events
      && (forall x :: x in events ==> LastAncestorsOf(x, lastAncestors[x]))
      && DescendantsSound(peerSets, events, firstDescendants)
      && DescendantsComplete(peerSets, C, firstDescendants)
    }

    /** Memo transparency: every cached answer is the value of the function it stands for,
        which does not depend on the state of the node. */
    ghost predicate Memos()
      reads this`ancestorCache, this`stronglySeeCache, this`roundCache, this`witnessCache, this`timestampCache
    {
      && AncestorMemo(ancestorCache)
      && StronglySeeMemo(peerSets, stronglySeeCache)
      && RoundMemo(peerSets, roundCache)
      && WitnessMemo(peerSets, witnessCache)
      && TimestampMemo(timestampCache)
    }

    /** The events of E are filed under their rounds, and nobody counts herself as a witness. */
    ghost predicate Divided(E: set<Event>)
      reads this`rounds
    {
      Filed(peerSets, E, rounds) && forall x :: x in E ==> !SelfCounts(peerSets, x)
    }

    /** The attributes stored with the events of E. */
    ghost predicate Assigned(E: set<Event>)
      reads this`eventRounds, this`eventLamports
    {
      && eventRounds.Keys == E && eventLamports.Keys == E
      && forall x :: x in E ==> eventRounds[x] == Round(peerSets, x) && eventLamports[x] == Lamport(x)
    }

    /** Elections, rounds-received and the log are right for view V, and rounds wait in order. */
    ghost predicate Accounts(V: set<Event>)
      reads this`rounds, this`lastRound, this`pendingRounds, this`roundReceived, this`frames
    {
      Balanced(peerSets, V, rounds, lastRound, pendingRounds, roundReceived, frames)
    }

    /** The chain of blocks and the committed events are those of the log, and the count of loaded
        events is of those not committed yet. */
    ghost predicate Committed()
      reads this`events, this`frames, this`blocks, this`consensusEvents, this`lastConsensusEvents,
            this`pendingLoadedEvents
    {
      && blocks == Blocks(frames)
      && consensusEvents == ConsensusOrder(frames)
      && lastConsensusEvents == LastByCreator(consensusEvents)
      && pendingLoadedEvents == |Unsettled(events, consensusEvents)|
    }

    /** All of the above for view V, its events being filed. */
    ghost predicate Sound(V: set<Event>)
      reads this
    {
      && SafeHistory(peerSets) && DistinctKeys(events)
      && Located(events) && Indexed(events, participantEvents) && Topological(events, topologicalOrder)
      && Memos() && Divided(V) && Assigned(V) && Accounts(V)
      && Committed() && RootedLog(peerSets, participantEvents, firstRounds, frames)
      && Waiting() && Verified()
    }

    ghost predicate Verified()
      reads this`events
    {
      forall x :: x in events ==> verify(x)
    }

    /** The undetermined events are those without a round-received. */
    ghost predicate Waiting()
      reads this`events, this`undetermined, this`roundReceived
    {
      NoDuplicates(undetermined) && forall x :: x in undetermined <==> x in events && x !in roundReceived
    }

    ghost predicate Valid()
      reads this
    {
      Sound(events)
    }

    /** A node that knows no event yet. */
    constructor (peerSets: PeerSets, firstRounds: map<Peer, nat>, verify: Event -> bool, participants: set<Peer>,
                 cacheSize: int)
      requires SafeHistory(peerSets) && firstRounds.Keys <= participants
      ensures Valid() && this.peerSets == peerSets && this.firstRounds == firstRounds && this.verify == verify
      ensures events == {} && blocks == [] && frames == [] && participantEvents.Keys == participants
    {
      this.peerSets, this.firstRounds, this.verify := peerSets, firstRounds, verify;
      events, topologicalOrder, participantEvents := {}, [], map p | p in participants :: [];
      lastAncestors, firstDescendants := map[], map[];
      rounds, lastRound, eventRounds, eventLamports, roundReceived := map[], -1, map[], map[], map[];
      undetermined, pendingRounds := [], [];
      frames, blocks, consensusEvents, lastConsensusEvents, pendingLoadedEvents := [], [], [], map[], 0;
      ancestorCache, stronglySeeCache := Empty(cacheSize), Empty(cacheSize);
      roundCache, witnessCache, timestampCache := Empty(cacheSize), Empty(cacheSize), Empty(cacheSize);
      new;
      StartsValid();
    }

    lemma StartsValid()
      requires SafeHistory(peerSets) && events == {} && topologicalOrder == [] && undetermined == []
      requires firstRounds.Keys <= participantEvents.Keys
               && forall p :: p in participantEvents ==> participantEvents[p] == []
      requires lastAncestors == map[] && firstDescendants == map[]
      requires rounds == map[] && lastRound == -1 && eventRounds == map[] && eventLamports == map[]
               && roundReceived == map[]
      requires pendingRounds == [] && frames == [] && blocks == [] && consensusEvents == []
               && lastConsensusEvents == map[]
      requires pendingLoadedEvents == 0 && ancestorCache.entries == [] && stronglySeeCache.entries == []
      requires roundCache.entries == [] && witnessCache.entries == [] && timestampCache.entries == []
      ensures Valid()
    {
      hide SafeHistory, Round, Witness, Ancestors;
      assert Unsettled(events, consensusEvents) == {};
      assert Located(events) && Indexed(events, participantEvents) && Topological(events, topologicalOrder);
      assert Memos();
    }

    /** Learns of a participant, who may then create events. */
    method AddParticipant(p: Peer)
      requires Valid()
      modifies this`participantEvents
      ensures Valid()
      ensures participantEvents
              == if p in old(participantEvents) then old(participantEvents) else old(participantEvents)[p := []]
    {
      hide SafeHistory, DistinctKeys, Located, Topological, Memos, Divided, Assigned, Accounts, Committed, RootedLog,
           Waiting, Verified;
      if p !in participantEvents {
        RootedLogGrows(peerSets, participantEvents, participantEvents[p := []], firstRounds, frames);
        participantEvents := participantEvents[p := []];
      }
    }

    // ----- Reading the DAG through the memos

    /** Whether x sees y, y being an ancestor of x. */
    method See(x: Event, y: Event) returns (sees: bool)
      requires Located({}) && AncestorMemo(ancestorCache) && x in events && y in events
      modifies this`ancestorCache
      ensures AncestorMemo(ancestorCache)
      ensures sees <==> y in Ancestors(x)
    {
      hide View, DescendantsSound, DescendantsComplete, LastAncestorsOf;
      var cached := ancestorCache.Lookup((x, y));
      if cached.Some? {
        ancestorCache := ancestorCache.Touch((x, y));
        return cached.value;
      }
      if x == y {
        assert x in Ancestors(x);
        sees := true;
      } else {
        AncestorTest(events, x, y, lastAncestors[x]);
        sees := y.creator in lastAncestors[x] && lastAncestors[x][y.creator].index >= y.index;
      }
      ancestorCache := ancestorCache.Insert((x, y), sees);
    }

    /** The peers whose first descendant of an event is not above their last ancestor of another. */
    method CountPeers(la: CoordinatesMap, fd: CoordinatesMap, peers: set<Peer>) returns (c: nat)
      ensures c == |Counted(la, fd, peers)|
    {
      c := 0;
      var todo := peers;
      while todo != {}
        invariant todo <= peers
        invariant c == |Counted(la, fd, peers - todo)|
        decreases todo
      {
        var p :| p in todo;
        ghost var before := Counted(la, fd, peers - todo);
        todo := todo - {p};
        if p in la && p in fd && la[p].index >= fd[p].index {
          assert Counted(la, fd, peers - todo) == before + {p};
          c := c + 1;
        } else {
          assert Counted(la, fd, peers - todo) == before;
        }
      }
      assert peers - todo == peers;
    }

    /** Whether x strongly sees w, by its coordinates. */
    method StronglySee(x: Event, w: Event, peers: set<Peer>, ghost C: set<Event>) returns (sees: bool)
      requires Located(C) && StronglySeeMemo(peerSets, stronglySeeCache) && x in C && w in events
      modifies this`stronglySeeCache
      ensures StronglySeeMemo(peerSets, stronglySeeCache)
      ensures sees <==> FastSees(peerSets, x, w, peers)
      ensures sees <==> 3 * |Linked(peerSets, x, w) * peers| > 2 * |peers|
    {
      hide View, DescendantsSound, DescendantsComplete, LastAncestorsOf, Linked, Counted;
      SeesExactly(peerSets, x, w, peers);
      var cached := stronglySeeCache.Lookup((x, w, peers));
      if cached.Some? {
        stronglySeeCache := stronglySeeCache.Touch((x, w, peers));
        return cached.value;
      }
      var c := CountPeers(lastAncestors[x], firstDescendants[w], peers);
      CountedIsLinked(peerSets, events, C, x, w, lastAncestors[x], firstDescendants, peers);
      sees := c >= Threshold(peers);
      stronglySeeCache := stronglySeeCache.Insert((x, w, peers), sees);
    }

    /** The witnesses among ws that x strongly sees. */
    method StronglySeenAmong(x: Event, ws: set<Event>, peers: set<Peer>, ghost C: set<Event>) returns (seen: set<Event>)
      requires Located(C) && StronglySeeMemo(peerSets, stronglySeeCache) && x in C && ws <= events
      modifies this`stronglySeeCache
      ensures StronglySeeMemo(peerSets, stronglySeeCache)
      ensures seen == set w | w in ws && FastSees(peerSets, x, w, peers)
    {
      hide Located, StronglySeeMemo, FastSees;
      seen := {};
      var todo := ws;
      while todo != {}
        invariant StronglySeeMemo(peerSets, stronglySeeCache) && todo <= ws
        invariant seen == set w | w in ws - todo && FastSees(peerSets, x, w, peers)
        decreases todo
      {
        var w :| w in todo;
        todo := todo - {w};
        var ss := StronglySee(x, w, peers, C);
        if ss {
          seen := seen + {w};
        }
      }
    }

    /** The round of x, from its parents' rounds and the filed witnesses of the greatest. */
    method RoundOf(x: Event, ghost C: set<Event>, ghost E: set<Event>) returns (r: nat)
      requires Located(C) && StronglySeeMemo(peerSets, stronglySeeCache) && RoundMemo(peerSets, roundCache)
      requires Divided(E) && x in C && E <= events && ProperAncestors(x) <= E
      modifies this`roundCache, this`stronglySeeCache
      ensures StronglySeeMemo(peerSets, stronglySeeCache) && RoundMemo(peerSets, roundCache)
      ensures r == Round(peerSets, x)
      decreases x
    {
      hide Located, Divided, Round, StronglySeeMemo, ProperAncestors;
      var cached := roundCache.Lookup(x);
      if cached.Some? {
        roundCache := roundCache.Touch(x);
        return cached.value;
      }
      var parentRound: int := -1;
      if x.selfParent.Some? {
        ParentsReady(x, x.selfParent.value, C, E);
        parentRound := RoundOf(x.selfParent.value, C, E);
      }
      if x.otherParent.Some? {
        ParentsReady(x, x.otherParent.value, C, E);
        var opRound := RoundOf(x.otherParent.value, C, E);
        if opRound > parentRound {
          parentRound := opRound;
        }
      }
      if parentRound == -1 {
        r := 0;
      } else {
        r := NextRound(x, parentRound, C, E);
      }
      RoundUnfolded(peerSets, x);
      roundCache := roundCache.Insert(x, r);
    }

    /** The parent round, or the next one when enough of its filed witnesses are strongly seen. */
    method NextRound(x: Event, parentRound: nat, ghost C: set<Event>, ghost E: set<Event>) returns (r: nat)
      requires Located(C) && StronglySeeMemo(peerSets, stronglySeeCache)
      requires Divided(E) && x in C && E <= events && ProperAncestors(x) <= E
      requires parentRound == ParentRound(peerSets, x)
      modifies this`stronglySeeCache
      ensures StronglySeeMemo(peerSets, stronglySeeCache)
      ensures r == Round(peerSets, x)
    {
      hide Located, Round, StronglySeeMemo, ProperAncestors, FastSees, Witness, SelfCounts, ParentRound;
      ParentRoundFiled(x, C, E);
      var peers := peerSets(parentRound);
      var seen := StronglySeenAmong(x, rounds[parentRound].Witnesses(), peers, C);
      assert seen == Recount(peerSets, E, x);
      RecountExact(peerSets, events, E, x);
      RoundMonotone(peerSets, x, x);
      r := parentRound;
      if |seen| >= Threshold(peers) {
        r := r + 1;
      }
    }

    /** Whether x is its creator's first event of its round, as a member of the round's peer-set. */
    method WitnessOf(x: Event, ghost C: set<Event>, ghost E: set<Event>) returns (w: bool)
      requires Located(C) && Memos() && Divided(E) && x in C && E <= events && ProperAncestors(x) <= E
      modifies this`witnessCache, this`roundCache, this`stronglySeeCache
      ensures Memos()
      ensures w <==> Witness(peerSets, x)
    {
      hide Located, Divided, Round, StronglySeeMemo, RoundMemo, AncestorMemo, TimestampMemo, ProperAncestors;
      var cached := witnessCache.Lookup(x);
      if cached.Some? {
        witnessCache := witnessCache.Touch(x);
        return cached.value;
      }
      var xRound := RoundOf(x, C, E);
      if x.creator !in peerSets(xRound) {
        w := false;
      } else {
        var spRound: int := -1;
        if x.selfParent.Some? {
          ParentsReady(x, x.selfParent.value, C, E);
          spRound := RoundOf(x.selfParent.value, C, E);
        }
        w := xRound > spRound;
      }
      witnessCache := witnessCache.Insert(x, w);
    }

    /** The Lamport timestamp of x: one more than the greatest among its parents. */
    method LamportOf(x: Event) returns (t: nat)
      requires TimestampMemo(timestampCache) && Closed(events) && x in events
      modifies this`timestampCache
      ensures TimestampMemo(timestampCache)
      ensures t == Lamport(x)
      decreases x
    {
      var cached := timestampCache.Lookup(x);
      if cached.Some? {
        timestampCache := timestampCache.Touch(x);
        return cached.value;
      }
      var plt: int := -1;
      if x.selfParent.Some? {
        assert x.selfParent.value in Parents(x);
        plt := LamportOf(x.selfParent.value);
      }
      if x.otherParent.Some? {
        assert x.otherParent.value in Parents(x);
        var opLT := LamportOf(x.otherParent.value);
        if opLT > plt {
          plt := opLT;
        }
      }
      t := plt + 1;
      timestampCache := timestampCache.Insert(x, t);
    }

    // ----- Inserting an event

    /** The parents of e are known, its self-parent is its creator's last event, and its index
        is the one its creator gives it. */
    ghost predicate Fits(e: Event)
      reads this`events, this`participantEvents
    {
      && WellIndexed(e) && Parents(e) <= events && e.creator in participantEvents
      && match e.selfParent
         case None => participantEvents[e.creator] == []
         case Some(s) => participantEvents[e.creator] != [] &&
                         s == participantEvents[e.creator][|participantEvents[e.creator]| - 1]
    }

    /** An event that fits is new and keeps the view unforked. */
    lemma FittingView(e: Event)
      requires View(events) && Indexed(events, participantEvents) && Fits(e)
      ensures e !in events && View(events + {e}) && e.index == |participantEvents[e.creator]|
    {
      var pe := participantEvents[e.creator];
      assert e.index == |pe| by {
        if e.selfParent.Some? { assert pe[|pe| - 1] == e.selfParent.value; }
      }
      forall x | x in events && SameSlot(x, e)
        ensures false
      {
      }
      forall x, p | x in events + {e} && p in Parents(x)
        ensures p in events + {e}
      {
      }
    }

    /** Computes the coordinates of e from its parents' and stores the event. */
    method Record(e: Event)
      requires Located(events) && Indexed(events, participantEvents) && Fits(e)
      modifies this`events, this`participantEvents, this`lastAncestors, this`firstDescendants
      ensures events == old(events) + {e} && e !in old(events)
      ensures Located(old(events)) && Indexed(events, participantEvents)
      ensures Appended(old(participantEvents), e, participantEvents)
      ensures Walked(peerSets, firstDescendants, e, {})
    {
      hide View, LastAncestorsOf, DescendantsSound, DescendantsComplete, Indexed, Walked;
      FittingView(e);
      NothingWalked(peerSets, events, e, firstDescendants);
      InitEventCoordinates(e);
      IndexedAppend(events, participantEvents, e);
      events := events + {e};
      participantEvents := participantEvents[e.creator := participantEvents[e.creator] + [e]];
    }

    /** Initializes the last ancestors and first descendants of e. */
    method InitEventCoordinates(e: Event)
      requires Located(events) && e !in events && View(events + {e}) && Parents(e) <= events
      modifies this`lastAncestors, this`firstDescendants
      ensures lastAncestors.Keys == events + {e} && firstDescendants == old(firstDescendants)[e := map[e.creator := e]]
      ensures forall x :: x in events + {e} ==> LastAncestorsOf(x, lastAncestors[x])
      ensures DescendantsSound(peerSets, events + {e}, firstDescendants)
      ensures DescendantsComplete(peerSets, events, firstDescendants)
    {
      hide LastAncestorsOf, DescendantsSound, DescendantsComplete, View;
      var a: CoordinatesMap, b: CoordinatesMap := map[], map[];
      if e.selfParent.Some? {
        a := lastAncestors[e.selfParent.value];
      }
      if e.otherParent.Some? {
        b := lastAncestors[e.otherParent.value];
      }
      MergedParents(events + {e}, e, a, b);
      var la := Merge(a, b);
      lastAncestors := lastAncestors[e := la[e.creator := e]];
      NewDescendants(peerSets, events, e, firstDescendants);
      firstDescendants := firstDescendants[e := map[e.creator := e]];
    }

    /** Records e as a descendant along each participant's chain below it, stopping at witnesses. */
    method UpdateAncestorFirstDescendant(e: Event, ghost E: set<Event>)
      requires events == E + {e} && e !in E && Located(E) && Memos() && Divided(E)
      requires Walked(peerSets, firstDescendants, e, {})
      requires forall x :: x in E && x.creator == e.creator ==> x.index < e.index
      modifies this`firstDescendants, this`witnessCache, this`roundCache, this`stronglySeeCache
      ensures Located(events) && Memos()
    {
      hide Divided, Memos, DescendantsSound, DescendantsComplete, Closed, ForkFree, Walked, LastAncestorsOf;
      var la := lastAncestors[e];
      var todo := la.Keys;
      assert la.Keys - todo == {};
      while todo != {}
        invariant Located(E) && Memos() && todo <= la.Keys
        invariant Walked(peerSets, firstDescendants, e, la.Keys - todo)
        decreases todo
      {
        var q :| q in todo;
        ghost var done := la.Keys - todo;
        todo := todo - {q};
        CoordinateIsLast(e, la, q);
        Walk(e, la[q], q, E, done);
        assert la.Keys - todo == done + {q};
      }
      assert la.Keys - todo == la.Keys;
      AllWalked(peerSets, events, E, firstDescendants, e, la);
    }

    /** Walks down q's chain from its last event below e. */
    method Walk(e: Event, last: Event, q: Peer, ghost E: set<Event>, ghost done: set<Peer>)
      requires events == E + {e} && e !in E && Located(E) && Memos() && Divided(E)
      requires Walked(peerSets, firstDescendants, e, done) && q !in done && IsLast(e, q, last)
      modifies this`firstDescendants, this`witnessCache, this`roundCache, this`stronglySeeCache
      ensures Located(E) && Memos()
      ensures Walked(peerSets, firstDescendants, e, done + {q})
    {
      hide Located, Divided, Memos, Walked, IsLast, Witness, Walking;
      var ah := last;
      WalkStarts(e, last, q, E, done);
      while true
        invariant Located(E) && Memos() && Walking(peerSets, firstDescendants, e, done, q, ah)
        invariant ah in firstDescendants
        decreases ah
      {
        if e.creator in firstDescendants[ah] {
          WalkStops(e, ah, q, E, done);
          break;
        }
        RecordAt(e, ah, q, E, done);
        var w := WitnessOf(ah, E, E);
        if w || ah.selfParent.None? {
          break;
        }
        ah := ah.selfParent.value;
      }
    }

    /** Records e at ah, where the walk is. */
    method RecordAt(e: Event, ah: Event, q: Peer, ghost E: set<Event>, ghost done: set<Peer>)
      requires events == E + {e} && e !in E && Located(E) && Walking(peerSets, firstDescendants, e, done, q, ah)
      requires ah in firstDescendants && e.creator !in firstDescendants[ah]
      modifies this`firstDescendants
      ensures firstDescendants == old(firstDescendants)[ah := old(firstDescendants)[ah][e.creator := e]]
      ensures Located(E) && ah in E && ProperAncestors(ah) <= E && E <= events
      ensures Witness(peerSets, ah) || ah.selfParent.None? ==> Walked(peerSets, firstDescendants, e, done + {q})
      ensures !Witness(peerSets, ah) && ah.selfParent.Some? ==>
                && Walking(peerSets, firstDescendants, e, done, q, ah.selfParent.value)
                && ah.selfParent.value in firstDescendants
    {
      hide View, DescendantsSound, DescendantsComplete, LastAncestorsOf, Witness, Reaches, Walked;
      AncestorsInside(E, ah);
      RecordDescendant(peerSets, events, E, firstDescendants, e, ah);
      StepDown(peerSets, events, firstDescendants, firstDescendants[ah := firstDescendants[ah][e.creator := e]],
               e, done, q, ah);
      firstDescendants := firstDescendants[ah := firstDescendants[ah][e.creator := e]];
    }

    lemma WalkStarts(e: Event, last: Event, q: Peer, E: set<Event>, done: set<Peer>)
      requires events == E + {e} && Located(E)
      requires Walked(peerSets, firstDescendants, e, done) && q !in done && IsLast(e, q, last)
      ensures Walking(peerSets, firstDescendants, e, done, q, last) && last in firstDescendants
    {
      hide View, DescendantsSound, DescendantsComplete, LastAncestorsOf, Walked, IsLast, Witness, Reaches;
      StartWalk(peerSets, events, firstDescendants, e, done, q, last);
    }

    lemma WalkStops(e: Event, ah: Event, q: Peer, E: set<Event>, done: set<Peer>)
      requires events == E + {e} && Located(E)
      requires Walking(peerSets, firstDescendants, e, done, q, ah) && q !in done
      requires ah in firstDescendants && e.creator in firstDescendants[ah]
      ensures Walked(peerSets, firstDescendants, e, done + {q})
    {
      hide View, DescendantsSound, DescendantsComplete, LastAncestorsOf, Walked, Walking, IsLast, Witness, Reaches;
      StopRecorded(peerSets, events, E, firstDescendants, e, done, q, ah);
    }

    // ----- Assigning rounds

    /** Assigns a round and a Lamport timestamp to the events that have none, files them, and queues
        new rounds. Consensus runs after every insert, so e is the only such event. */
    method DivideRounds(ghost e: Event, ghost E: set<Event>)
      requires SafeHistory(peerSets) && View(E) && events == E + {e} && e !in E && !SelfCounts(peerSets, e)
      requires Located(events) && Memos() && Divided(E) && Assigned(E) && Accounts(E)
      requires Waiting() && e in undetermined
      modifies this`rounds, this`lastRound, this`pendingRounds, this`eventRounds, this`eventLamports
      modifies this`witnessCache, this`roundCache, this`stronglySeeCache, this`timestampCache
      ensures Memos() && Divided(events) && Assigned(events) && Accounts(events)
      ensures DecidedRounds(rounds) == old(DecidedRounds(rounds))
    {
      hide Located, Memos, Divided, Accounts, Assigned, SafeHistory, SelfCounts, View, DecidedRounds;
      AssignedKeys(E);
      for i := 0 to |undetermined|
        invariant Memos() && DecidedRounds(rounds) == old(DecidedRounds(rounds))
        invariant e !in undetermined[..i] ==> Divided(E) && Assigned(E) && Accounts(E) && eventRounds.Keys == E
        invariant e in undetermined[..i] ==>
          Divided(events) && Assigned(events) && Accounts(events) && eventRounds.Keys == events
      {
        var x := undetermined[i];
        assert undetermined[..i + 1] == undetermined[..i] + [x];
        if x !in eventRounds {
          DivideEvent(x, E);
          AssignedKeys(events);
        }
      }
      assert undetermined[..|undetermined|] == undetermined;
    }

    lemma AssignedKeys(E: set<Event>)
      requires Assigned(E)
      ensures eventRounds.Keys == E
    {
    }

    /** Assigns the attributes of x, files it under its round, and queues the round if it is new. */
    method DivideEvent(x: Event, ghost E: set<Event>)
      requires SafeHistory(peerSets) && View(E) && events == E + {x} && x !in E && !SelfCounts(peerSets, x)
      requires Located(events) && Memos() && Divided(E) && Assigned(E) && Accounts(E)
      modifies this`rounds, this`lastRound, this`pendingRounds, this`eventRounds, this`eventLamports
      modifies this`witnessCache, this`roundCache, this`stronglySeeCache, this`timestampCache
      ensures Memos() && Divided(events) && Assigned(events) && Accounts(events)
      ensures DecidedRounds(rounds) == old(DecidedRounds(rounds))
    {
      hide Located, Divided, Accounts, Assigned, Round, Witness, SelfCounts, SafeHistory, View, StronglySeeMemo,
           RoundMemo, AncestorMemo, WitnessMemo, TimestampMemo, DecidedRounds;
      NewReady(x, E);
      var roundNumber := RoundOf(x, events, E);
      var isWitness := WitnessOf(x, events, E);
      FileEvent(x, roundNumber, isWitness, E);
      var lamportTimestamp := LamportOf(x);
      Assign(x, roundNumber, lamportTimestamp, E);
    }

    method Assign(x: Event, roundNumber: nat, lamportTimestamp: nat, ghost E: set<Event>)
      requires Assigned(E) && roundNumber == Round(peerSets, x) && lamportTimestamp == Lamport(x)
      modifies this`eventRounds, this`eventLamports
      ensures Assigned(E + {x})
    {
      hide Round, Lamport;
      eventRounds := eventRounds[x := roundNumber];
      eventLamports := eventLamports[x := lamportTimestamp];
    }

    /** Files x under its round, and queues the round if it is new. */
    method FileEvent(x: Event, roundNumber: nat, isWitness: bool, ghost E: set<Event>)
      requires SafeHistory(peerSets) && View(E) && View(E + {x}) && x !in E && !SelfCounts(peerSets, x)
      requires Divided(E) && Accounts(E) && roundNumber == Round(peerSets, x) && (isWitness <==> Witness(peerSets, x))
      modifies this`rounds, this`lastRound, this`pendingRounds
      ensures Divided(E + {x}) && Accounts(E + {x})
      ensures DecidedRounds(rounds) == old(DecidedRounds(rounds))
    {
      hide Balanced, Round, Witness, SelfCounts, SafeHistory, View, Filed, Queued, Enqueue, DecidedRounds;
      ghost var queue, last := pendingRounds, lastRound;
      var roundInfo := InfoOf(rounds, roundNumber);
      if !Queued(pendingRounds, roundNumber) && !roundInfo.decided {
        pendingRounds := Enqueue(pendingRounds, PendingRound(roundNumber, false));
      }
      if roundNumber > lastRound {
        lastRound := roundNumber;
      }
      FiledMore(peerSets, E, rounds, x);
      BalancedFiled(peerSets, E, rounds, last, queue, roundReceived, frames, x, pendingRounds, lastRound);
      rounds := rounds[roundNumber := roundInfo.AddCreatedEvent(x, isWitness)];
    }

    lemma NewReady(x: Event, E: set<Event>)
      requires Located(events) && events == E + {x}
      ensures ProperAncestors(x) <= E && View(events) && Closed(events)
    {
      AncestorsInside(events, x);
    }

    // ----- Deciding fame

    method CountVotes(ss: set<Event>, x: Event, votes: Votes) returns (yays: nat, nays: nat)
      requires forall w :: w in ss ==> (w, x) in votes
      ensures yays == |set w | w in ss && votes[(w, x)] == true|
      ensures nays == |set w | w in ss && votes[(w, x)] == false|
    {
      yays, nays := 0, 0;
      var todo := ss;
      ghost var yes: set<Event>, no: set<Event> := {}, {};
      while todo != {}
        invariant todo <= ss && yays == |yes| && nays == |no|
        invariant yes == set w | w in ss - todo && votes[(w, x)] == true
        invariant no == set w | w in ss - todo && votes[(w, x)] == false
        decreases todo
      {
        var w :| w in todo;
        todo := todo - {w};
        if votes[(w, x)] {
          yays, yes := yays + 1, yes + {w};
        } else {
          nays, no := nays + 1, no + {w};
        }
      }
      assert yes == set w | w in ss && votes[(w, x)] == true;
      assert no == set w | w in ss && votes[(w, x)] == false;
    }

    /** The vote of y, a witness of round j, on the fame of x, a witness of round roundIndex; and whether
        it closes the election. */
    method CastVote(y: Event, j: nat, x: Event, roundIndex: nat, votes: Votes) returns (v: bool, decides: bool)
      requires Located(events) && AncestorMemo(ancestorCache) && StronglySeeMemo(peerSets, stronglySeeCache)
      requires Divided(events) && x in events && y in WitnessesIn(peerSets, events, j)
      requires roundIndex == Round(peerSets, x) && j > roundIndex && (forall r :: 0 <= r <= j ==> r in rounds)
      requires VotesSound(peerSets, votes) && (j > roundIndex + 1 ==> Voted(peerSets, events, votes, x, j - 1))
      modifies this`ancestorCache, this`stronglySeeCache
      ensures AncestorMemo(ancestorCache) && StronglySeeMemo(peerSets, stronglySeeCache)
      ensures v == Vote(peerSets, y, x)
      ensures decides <==> Decides(peerSets, y, x)
      ensures decides ==> v == Majority(peerSets, y, x)
    {
      hide Located, AncestorMemo, StronglySeeMemo, Divided, Round, Witness, Vote, Electors, FastSees, Supporters;
      LocatedView(events);
      VoteUnfolded(peerSets, y, x);
      var diff := j - roundIndex;
      if diff == 1 {
        v := See(y, x);
        decides := false;
      } else {
        var yays, nays := TallyVotes(y, j, x, votes);
        v := yays >= nays;
        var t := if v then yays else nays;
        if diff % 4 > 0 { // normal round
          decides := t >= Threshold(peerSets(j));
        } else { // coin round
          decides := false;
          if t < Threshold(peerSets(j)) {
            v := MiddleBit(y);
          }
        }
      }
    }

    /** Counts the votes of the witnesses of round j - 1 that y strongly sees. */
    method TallyVotes(y: Event, j: nat, x: Event, votes: Votes) returns (yays: nat, nays: nat)
      requires Located(events) && StronglySeeMemo(peerSets, stronglySeeCache) && Divided(events)
      requires y in WitnessesIn(peerSets, events, j) && j > 0 && j - 1 in rounds
      requires VotesSound(peerSets, votes) && Voted(peerSets, events, votes, x, j - 1)
      modifies this`stronglySeeCache
      ensures StronglySeeMemo(peerSets, stronglySeeCache)
      ensures yays == |Supporters(peerSets, y, x, true)| && nays == |Supporters(peerSets, y, x, false)|
    {
      hide Located, StronglySeeMemo, Divided, Round, Witness, Vote, Electors, FastSees, Supporters;
      LocatedView(events);
      FiledRound(j - 1);
      var ss := StronglySeenAmong(y, rounds[j - 1].Witnesses(), peerSets(j - 1), events);
      ElectorsAmong(peerSets, events, y, j - 1);
      ElectorsInside(peerSets, events, y);
      yays, nays := CountVotes(ss, x, votes);
      CountedSupporters(peerSets, y, x, votes, true);
      CountedSupporters(peerSets, y, x, votes, false);
    }

    lemma LocatedView(C: set<Event>)
      requires Located(C)
      ensures View(events) && Located({})
    {
    }

    lemma FiledRound(r: nat)
      requires Divided(events) && r in rounds
      ensures rounds[r].Witnesses() == WitnessesIn(peerSets, events, r) && rounds[r].Witnesses() <= events
    {
      hide Round, Witness;
      FiledWitnesses(peerSets, events, rounds, r);
    }

    /** Lets the witnesses of round j vote on x until one of them decides. */
    method VoteRound(j: nat, x: Event, roundIndex: nat, votes: Votes) returns (fame: Trilean, votes': Votes)
      requires Located(events) && AncestorMemo(ancestorCache) && StronglySeeMemo(peerSets, stronglySeeCache)
      requires Divided(events) && x in events
      requires roundIndex == Round(peerSets, x) && j > roundIndex && (forall r :: 0 <= r <= j ==> r in rounds)
      requires VotesSound(peerSets, votes) && (j > roundIndex + 1 ==> Voted(peerSets, events, votes, x, j - 1))
      modifies this`ancestorCache, this`stronglySeeCache
      ensures AncestorMemo(ancestorCache) && StronglySeeMemo(peerSets, stronglySeeCache)
      ensures VotesSound(peerSets, votes')
      ensures fame == Undefined ==> Voted(peerSets, events, votes', x, j) && Undecided(peerSets, events, x, j)
      ensures fame != Undefined ==> FameDecided(peerSets, events, x, fame == True)
    {
      hide Located, AncestorMemo, StronglySeeMemo, Divided, Round, Witness, Vote, Decides, Majority;
      votes' := votes;
      FiledRound(j);
      var todo := rounds[j].Witnesses();
      while todo != {}
        invariant AncestorMemo(ancestorCache) && StronglySeeMemo(peerSets, stronglySeeCache)
        invariant todo <= WitnessesIn(peerSets, events, j) && VotesSound(peerSets, votes')
        invariant forall k :: k in votes ==> k in votes'
        invariant forall y :: y in WitnessesIn(peerSets, events, j) - todo ==>
          (y, x) in votes' && !Decides(peerSets, y, x)
        decreases todo
      {
        var y :| y in todo;
        todo := todo - {y};
        var v, decides := CastVote(y, j, x, roundIndex, votes');
        votes' := votes'[(y, x) := v];
        if decides {
          return if v then True else False, votes';
        }
      }
      fame := Undefined;
    }

    /** Runs the election of x over all the rounds after its own. */
    method Elect(x: Event, roundIndex: nat, votes: Votes) returns (fame: Trilean, votes': Votes)
      requires Located(events) && AncestorMemo(ancestorCache) && StronglySeeMemo(peerSets, stronglySeeCache)
      requires Divided(events) && x in events && roundIndex == Round(peerSets, x)
      requires (forall r :: r in rounds <==> 0 <= r <= lastRound) && VotesSound(peerSets, votes)
      modifies this`ancestorCache, this`stronglySeeCache
      ensures AncestorMemo(ancestorCache) && StronglySeeMemo(peerSets, stronglySeeCache)
      ensures VotesSound(peerSets, votes')
      ensures fame == Undefined ==> !FameDecided(peerSets, events, x, true) && !FameDecided(peerSets, events, x, false)
      ensures fame != Undefined ==> FameDecided(peerSets, events, x, fame == True)
    {
      hide Located, AncestorMemo, StronglySeeMemo, Divided, Round, Witness, Vote, Decides, Majority, FameDecided,
           Voted, Undecided, VotesSound;
      votes' := votes;
      var j := roundIndex + 1;
      while j <= lastRound
        invariant roundIndex < j && AncestorMemo(ancestorCache) && StronglySeeMemo(peerSets, stronglySeeCache)
        invariant VotesSound(peerSets, votes') && (j > roundIndex + 1 ==> Voted(peerSets, events, votes', x, j - 1))
        invariant forall k :: roundIndex < k < j ==> Undecided(peerSets, events, x, k)
      {
        fame, votes' := VoteRound(j, x, roundIndex, votes');
        if fame != Undefined {
          return;
        }
        j := j + 1;
      }
      fame := Undefined;
      NoDecision(x, roundIndex);
    }

    lemma NoDecision(x: Event, roundIndex: nat)
      requires Divided(events) && roundIndex == Round(peerSets, x) && (forall r :: r in rounds <==> 0 <= r <= lastRound)
      requires forall k :: roundIndex < k <= lastRound ==> Undecided(peerSets, events, x, k)
      ensures !FameDecided(peerSets, events, x, true) && !FameDecided(peerSets, events, x, false)
    {
      hide Round, Witness, Majority, Tally;
      forall y | y in events && Witness(peerSets, y)
        ensures !Decides(peerSets, y, x)
      {
        var k := Round(peerSets, y);
        assert k in rounds && y in WitnessesIn(peerSets, events, k);
        if k > roundIndex { assert Undecided(peerSets, events, x, k); }
      }
    }

    /** Runs the elections of the witnesses of a round that are not decided yet. */
    method DecideRound(roundIndex: nat, votes: Votes) returns (info: RoundInfo, votes': Votes)
      requires SafeHistory(peerSets) && Located(events) && Divided(events)
      requires AncestorMemo(ancestorCache) && StronglySeeMemo(peerSets, stronglySeeCache)
      requires (forall r :: r in rounds <==> 0 <= r <= lastRound) && roundIndex in rounds
      requires VotesSound(peerSets, votes) && FameSound(peerSets, events, rounds[roundIndex])
      modifies this`ancestorCache, this`stronglySeeCache
      ensures AncestorMemo(ancestorCache) && StronglySeeMemo(peerSets, stronglySeeCache)
      ensures VotesSound(peerSets, votes') && Progress(rounds[roundIndex], info)
      ensures FameSound(peerSets, events, info) && FameComplete(peerSets, events, info)
    {
      hide SafeHistory, Located, Divided, AncestorMemo, StronglySeeMemo, VotesSound, FameSound, Round, Witness,
           FameDecided, Elected;
      info, votes' := rounds[roundIndex], votes;
      LocatedView(events);
      FiledRound(roundIndex);
      NoneElected(info);
      var todo := info.Witnesses();
      ghost var done: set<Event> := {};
      while todo != {}
        invariant AncestorMemo(ancestorCache) && StronglySeeMemo(peerSets, stronglySeeCache)
        invariant VotesSound(peerSets, votes') && Progress(rounds[roundIndex], info)
        invariant todo <= info.Witnesses() == rounds[roundIndex].Witnesses() && done == info.Witnesses() - todo
        invariant FameSound(peerSets, events, info) && Elected(peerSets, events, info, done)
        decreases todo
      {
        var x :| x in todo;
        assert x in WitnessesIn(peerSets, events, roundIndex);
        todo := todo - {x};
        info, votes' := DecideWitness(x, roundIndex, info, votes', done);
        done := done + {x};
      }
      AllElected(info, done);
    }

    /** Runs the election of one witness, unless it is decided already, and records the outcome. */
    method DecideWitness(x: Event, roundIndex: nat, info: RoundInfo, votes: Votes, ghost done: set<Event>)
      returns (info': RoundInfo, votes': Votes)
      requires SafeHistory(peerSets) && Located(events) && Divided(events)
      requires AncestorMemo(ancestorCache) && StronglySeeMemo(peerSets, stronglySeeCache)
      requires (forall r :: r in rounds <==> 0 <= r <= lastRound) && roundIndex in rounds
      requires VotesSound(peerSets, votes) && FameSound(peerSets, events, info) && Elected(peerSets, events, info, done)
      requires Progress(rounds[roundIndex], info)
      requires x in info.Witnesses() && x in WitnessesIn(peerSets, events, roundIndex) && x !in done
      modifies this`ancestorCache, this`stronglySeeCache
      ensures AncestorMemo(ancestorCache) && StronglySeeMemo(peerSets, stronglySeeCache)
      ensures VotesSound(peerSets, votes') && Progress(rounds[roundIndex], info')
              && info'.Witnesses() == info.Witnesses()
      ensures FameSound(peerSets, events, info') && Elected(peerSets, events, info', done + {x})
    {
      hide SafeHistory, Located, Divided, AncestorMemo, StronglySeeMemo, VotesSound, FameSound, Round, Witness,
           FameDecided, Elected;
      info', votes' := info, votes;
      LocatedView(events);
      if !info.IsDecided(x) {
        var fame;
        fame, votes' := Elect(x, roundIndex, votes);
        if fame != Undefined {
          RecordFame(peerSets, events, info, done, x, fame == True);
          info' := info.SetFame(x, fame == True);
        }
      }
      RecordedElection(peerSets, events, info', done, x);
    }

    lemma NoneElected(info: RoundInfo)
      ensures Elected(peerSets, events, info, {})
    {
    }

    lemma AllElected(info: RoundInfo, done: set<Event>)
      requires Elected(peerSets, events, info, done) && done == info.Witnesses()
      ensures FameComplete(peerSets, events, info)
    {
      hide FameDecided;
    }

    /** Runs the elections of a round and marks it decided if they settle it. */
    method SettleRound(roundIndex: nat, votes: Votes) returns (decided: bool, votes': Votes)
      requires SafeHistory(peerSets) && Located(events) && Divided(events)
      requires AncestorMemo(ancestorCache) && StronglySeeMemo(peerSets, stronglySeeCache)
      requires (forall r :: r in rounds <==> 0 <= r <= lastRound) && roundIndex in rounds
      requires VotesSound(peerSets, votes) && Elections(peerSets, events, rounds)
      modifies this`rounds, this`ancestorCache, this`stronglySeeCache
      ensures AncestorMemo(ancestorCache) && StronglySeeMemo(peerSets, stronglySeeCache)
      ensures Divided(events) && VotesSound(peerSets, votes') && Elections(peerSets, events, rounds)
      ensures Advanced(old(rounds), rounds)
      ensures forall r :: r in rounds && r != roundIndex ==> rounds[r] == old(rounds)[r]
      ensures decided <==> rounds[roundIndex].decided
      ensures rounds[roundIndex].Settles(peerSets(roundIndex)) ==> decided
      ensures Conclusive(peerSets, events, roundIndex, rounds[roundIndex])
    {
      hide SafeHistory, Located, AncestorMemo, StronglySeeMemo, VotesSound, Filed, SelfCounts, FameSound, FameComplete,
           DecidedSound, Conclusive;
      var info;
      info, votes' := DecideRound(roundIndex, votes);
      LocatedView(events);
      ghost var before := info;
      decided, info := info.WitnessesDecided(peerSets(roundIndex));
      ElectionRecorded(peerSets, events, rounds, roundIndex, before, decided);
      SettlesUnmarked(before, decided, peerSets(roundIndex));
      rounds := rounds[roundIndex := info];
    }

    lemma SettlesUnmarked(info: RoundInfo, decided: bool, peers: set<Peer>)
      ensures info.(decided := decided).Settles(peers) == info.Settles(peers)
    {
      assert info.(decided := decided).Witnesses() == info.Witnesses();
    }

    /** Decides which witnesses of the pending rounds are famous, and which rounds are decided. */
    method DecideFame()
      requires SafeHistory(peerSets) && Located(events) && Divided(events) && Accounts(events) && Memos()
      modifies this`rounds, this`pendingRounds, this`ancestorCache, this`stronglySeeCache
      ensures Divided(events) && Accounts(events) && Memos()
      ensures Settled(peerSets, rounds) && Advanced(old(rounds), rounds)
      ensures Decisive()
    {
      hide SafeHistory, Located, Divided, AncestorMemo, StronglySeeMemo, RoundMemo, WitnessMemo, TimestampMemo,
           Elections, Kept, VotesSound, InOrder, Marked, Settled, RoundInfo.Settles, Concluded, Conclusive;
      var votes: Votes := map[];
      assert VotesSound(peerSets, votes) by { NoVotes(); }
      var decidedRounds: set<nat> := {};
      ghost var rounds0, n := rounds, |frames|;
      var queue := pendingRounds;
      MarkedNone(peerSets, rounds, lastRound, queue, n);
      assert Concluded(peerSets, events, rounds, n, 0) by { NoneConcluded(n); }
      for k := 0 to |queue|
        invariant Divided(events) && Memos() && pendingRounds == queue
        invariant Elections(peerSets, events, rounds) && VotesSound(peerSets, votes) && Advanced(rounds0, rounds)
        invariant Marked(peerSets, rounds, n, k, decidedRounds) && Concluded(peerSets, events, rounds, n, k)
      {
        var roundIndex := queue[k].index;
        ghost var before := rounds;
        var decided;
        decided, votes := SettleRound(roundIndex, votes);
        MarkedNext(peerSets, before, n, k, decidedRounds, rounds);
        ConcludedNext(peerSets, events, before, n, k, rounds);
        if decided {
          decidedRounds := decidedRounds + {roundIndex};
        }
      }
      LocatedView(events);
      MarkedAll(peerSets, rounds, n, |queue|, decidedRounds);
      BalancedAdvanced(peerSets, events, rounds0, lastRound, pendingRounds, roundReceived, frames, rounds,
                       decidedRounds);
      pendingRounds := MarkDecided(pendingRounds, decidedRounds);
    }

    /** Whatever the view decides of the rounds not processed yet is recorded. */
    ghost predicate Decisive()
      reads this`events, this`rounds, this`lastRound, this`frames
    {
      |frames| <= lastRound + 1 && Concluded(peerSets, events, rounds, |frames|, lastRound + 1 - |frames|)
    }

    lemma NoneConcluded(n: nat)
      ensures Concluded(peerSets, events, rounds, n, 0)
    {
    }

    lemma NoVotes()
      ensures VotesSound(peerSets, map[])
    {
    }

    // ----- Deciding rounds-received

    /** Whether all of ws see x. */
    method AllSee(ws: set<Event>, x: Event) returns (all: bool)
      requires Located({}) && AncestorMemo(ancestorCache) && ws <= events && x in events
      modifies this`ancestorCache
      ensures AncestorMemo(ancestorCache)
      ensures all <==> forall w :: w in ws ==> x in Ancestors(w)
    {
      hide Located, AncestorMemo;
      var s: set<Event> := {};
      var todo := ws;
      while todo != {}
        invariant AncestorMemo(ancestorCache) && todo <= ws
        invariant s == set w | w in ws - todo && x in Ancestors(w)
        decreases todo
      {
        var w :| w in todo;
        todo := todo - {w};
        var see := See(w, x);
        if see {
          s := s + {w};
        }
      }
      all := |s| == |ws|;
      SubsetEquality(s, ws);
    }

    /** The round in which x is received, as far as this node can tell. */
    method FindRoundReceived(x: Event) returns (received: Option<nat>)
      requires Located(events) && Memos() && Divided(events) && Accounts(events) && Settled(peerSets, rounds)
      requires x in events
      modifies this`ancestorCache, this`roundCache, this`stronglySeeCache
      ensures Memos()
      ensures received.Some? ==>
                received.value in rounds && ReceivedIn(peerSets, events, DecidedRounds(rounds), x, received.value)
      ensures received.None? ==> forall i: nat :: !ReceivedIn(peerSets, events, DecidedRounds(rounds), x, i)
    {
      hide Located, Divided, Accounts, AncestorMemo, StronglySeeMemo, RoundMemo, WitnessMemo, TimestampMemo, Round,
           SeenByFamous, Settled, FamousWitnesses;
      RoundsKnown();
      OldReady(x);
      var r := RoundOf(x, events, events);
      var i := r + 1;
      while i <= lastRound
        invariant r < i && Memos()
        invariant forall k :: r < k < i ==> k in DecidedRounds(rounds) && !SeenByFamous(peerSets, events, x, k)
      {
        var decided, seen := SeenInRound(x, i);
        if !decided {
          break;
        }
        if seen {
          return Some(i);
        }
        i := i + 1;
      }
      NotReceived(peerSets, events, DecidedRounds(rounds), x, i);
      received := None;
    }

    /** Whether round i is decided and then whether its famous witnesses, a super-majority, all see x. */
    method SeenInRound(x: Event, i: nat) returns (decided: bool, seen: bool)
      requires Located({}) && AncestorMemo(ancestorCache) && Accounts(events) && Settled(peerSets, rounds)
      requires x in events && i in rounds
      modifies this`ancestorCache
      ensures AncestorMemo(ancestorCache)
      ensures decided <==> i in DecidedRounds(rounds)
      ensures decided ==> (seen <==> SeenByFamous(peerSets, events, x, i))
    {
      hide Located, Accounts, AncestorMemo, Settled, FamousWitnesses, RoundInfo.Settles, RoundInfo.FamousWitnesses;
      var tr;
      decided, tr := rounds[i].WitnessesDecided(peerSets(i));
      DecidedSettled(i);
      seen := false;
      if decided {
        DecidedFamous(i);
        var fws := tr.FamousWitnesses();
        var all := AllSee(fws, x);
        seen := all && |fws| >= Threshold(peerSets(i));
      }
    }

    /** Assigns a round-received to the undetermined events that reach consensus. */
    method DecideRoundReceived()
      requires Located(events) && Memos() && Divided(events) && Accounts(events) && Settled(peerSets, rounds)
      requires Waiting() && Decisive()
      modifies this`undetermined, this`rounds, this`roundReceived
      modifies this`ancestorCache, this`roundCache, this`stronglySeeCache
      ensures Memos() && Divided(events) && Accounts(events)
      ensures Waiting() && Decisive() && undetermined == Remaining(old(undetermined), roundReceived)
      ensures ReceivedComplete(peerSets, events, rounds, roundReceived) && Settled(peerSets, rounds)
      ensures DecidedRounds(rounds) == old(DecidedRounds(rounds))
      ensures forall x :: x in old(roundReceived) ==> x in roundReceived && roundReceived[x] == old(roundReceived)[x]
    {
      hide Located, Divided, Accounts, Memos, Round, Settled, ReceivedIn, DecidedRounds, Decisive;
      var newUndetermined: seq<Event> := [];
      var waiting := undetermined;
      ghost var D := DecidedRounds(rounds);
      for k := 0 to |waiting|
        invariant Memos() && Divided(events) && Accounts(events) && Settled(peerSets, rounds)
        invariant undetermined == waiting && DecidedRounds(rounds) == D && Decisive()
        invariant forall x :: x in old(roundReceived) ==>
                  x in roundReceived && roundReceived[x] == old(roundReceived)[x]
        invariant forall x :: x in events && x !in roundReceived ==> x in waiting
        invariant forall j :: k <= j < |waiting| ==> waiting[j] !in roundReceived
        invariant newUndetermined == Remaining(waiting[..k], roundReceived)
        invariant forall x, i: nat :: x in waiting[..k] && x !in roundReceived ==>
                  !ReceivedIn(peerSets, events, D, x, i)
      {
        var x := waiting[k];
        RemainingNext(waiting, k, roundReceived);
        var received := FindRoundReceived(x);
        if received.Some? {
          RemainingReceive(waiting[..k], roundReceived, x, received.value);
          RemainingNext(waiting, k, roundReceived[x := received.value]);
          ReceiveEvent(x, received.value);
        } else {
          newUndetermined := newUndetermined + [x];
        }
      }
      assert waiting[..|waiting|] == waiting;
      RemainingMember(waiting, roundReceived);
      undetermined := newUndetermined;
    }

    /** Records the round-received of x and lists x under it. */
    method ReceiveEvent(x: Event, i: nat)
      requires Divided(events) && Accounts(events) && Settled(peerSets, rounds)
      requires i in rounds && x in events && x !in roundReceived
      requires ReceivedIn(peerSets, events, DecidedRounds(rounds), x, i) && Decisive()
      modifies this`rounds, this`roundReceived
      ensures Divided(events) && Accounts(events) && Settled(peerSets, rounds) && Decisive()
      ensures roundReceived == old(roundReceived)[x := i]
      ensures DecidedRounds(rounds) == old(DecidedRounds(rounds))
    {
      hide Balanced, Filed, Settled, ReceivedIn, SelfCounts, Concluded;
      ConcludedReceived(peerSets, events, rounds, x, i);
      BalancedReceived(peerSets, events, rounds, lastRound, pendingRounds, roundReceived, frames, x, i);
      ReceivedFiled(peerSets, events, rounds, x, i);
      roundReceived := roundReceived[x := i];
      rounds := rounds[i := rounds[i].AddReceivedEvent(x)];
    }

    lemma OldReady(x: Event)
      requires Located(events) && x in events
      ensures ProperAncestors(x) <= events && Located({}) && Closed(events)
    {
      hide LastAncestorsOf, DescendantsSound, Reaches, ForkFree, WellIndexed;
      AncestorsInside(events, x);
    }

    lemma RoundsKnown()
      requires Accounts(events)
      ensures forall r :: r in rounds <==> 0 <= r <= lastRound
    {
    }

    /** The decisions that this loop could make were made while deciding fame. */
    lemma DecidedSettled(i: nat)
      requires Settled(peerSets, rounds) && i in rounds
      ensures rounds[i].Settles(peerSets(i)) ==> rounds[i].decided
    {
    }

    lemma DecidedFamous(i: nat)
      requires Accounts(events) && i in rounds && rounds[i].decided
      ensures rounds[i].FamousWitnesses() == FamousWitnesses(peerSets, events, i)
      ensures FamousWitnesses(peerSets, events, i) <= events
    {
      hide Round, Witness, FameDecided, Frozen, Kept;
    }

    // ----- Frames

    /** x with its consensus attributes. */
    method CreateFrameEvent(x: Event) returns (e: FrameEvent)
      requires Located(events) && Memos() && Divided(events) && x in events
      modifies this`roundCache, this`stronglySeeCache, this`timestampCache
      ensures Memos()
      ensures e.core == x && IsFrameEvent(peerSets, e)
    {
      hide Located, AncestorMemo, StronglySeeMemo, RoundMemo, WitnessMemo, TimestampMemo, Round, Witness, Lamport;
      OldReady(x);
      var round := RoundOf(x, events, events);
      var isWitness := rounds[round].created[x].isWitness;
      var lamport := LamportOf(x);
      e := FrameEvent(x, round, lamport, isWitness);
    }

    /** The frame events of a list of events. */
    method CreateFrameEvents(xs: seq<Event>) returns (s: seq<FrameEvent>)
      requires Located(events) && Memos() && Divided(events) && forall x :: x in xs ==> x in events
      modifies this`roundCache, this`stronglySeeCache, this`timestampCache
      ensures Memos()
      ensures Cores(s) == xs && forall e :: e in s ==> IsFrameEvent(peerSets, e)
    {
      hide Located, Memos, Divided, IsFrameEvent;
      s := [];
      for i := 0 to |xs|
        invariant Memos() && |s| == i
        invariant forall k :: 0 <= k < i ==> s[k].core == xs[k] && IsFrameEvent(peerSets, s[k])
      {
        var e := CreateFrameEvent(xs[i]);
        s := s + [e];
      }
    }

    /** The root of a participant: the head and the events before it. */
    method CreateRoot(participant: Peer, head: Option<Event>) returns (root: seq<FrameEvent>)
      requires Located(events) && Memos() && Divided(events) && Indexed(events, participantEvents)
      requires participant in participantEvents
      requires head.Some? ==> head.value in events && head.value.creator == participant
      modifies this`roundCache, this`stronglySeeCache, this`timestampCache
      ensures Memos()
      ensures IsRoot(peerSets, participantEvents, participant, head, root)
      ensures if head.None? then root == []
              else
                && |root| == 1 + (if head.value.index < 10 then head.value.index else 10)
                && forall k :: 0 <= k < |root| ==>
                     root[k].core in events && root[k].core.creator == participant &&
                     root[k].core.index == head.value.index - (|root| - 1) + k
    {
      hide Located, Memos, Divided, IsFrameEvent;
      root := [];
      if head.Some? {
        var pe := participantEvents[participant];
        var index := head.value.index;
        var headEvent := CreateFrameEvent(head.value);
        root := [headEvent];
        var i := 0;
        while i < ROOT_DEPTH
          invariant 0 <= i <= ROOT_DEPTH && Memos()
          invariant 0 <= index == head.value.index - i && |root| == i + 1
          invariant forall k :: 0 <= k <= i ==> root[k].core == pe[index + k] && IsFrameEvent(peerSets, root[k])
        {
          if index - 1 < 0 {
            break;
          }
          index := index - 1;
          var rev := CreateFrameEvent(pe[index]);
          root := [rev] + root;
          i := i + 1;
        }
        assert Cores(root) == pe[index..head.value.index + 1];
      }
    }

    /** The roots of the participants that have events in a frame. */
    method CreatorRoots(evs: seq<FrameEvent>) returns (roots: map<Peer, seq<FrameEvent>>)
      requires Located(events) && Memos() && Divided(events) && Indexed(events, participantEvents)
      requires forall e :: e in evs ==> e.core in events
      modifies this`roundCache, this`stronglySeeCache, this`timestampCache
      ensures Memos()
      ensures forall p :: p in roots <==> exists e :: e in evs && e.core.creator == p
      ensures forall p :: p in roots ==>
                IsRoot(peerSets, participantEvents, p, RootHead(evs, lastConsensusEvents, p), roots[p])
    {
      hide Located, Memos, Divided, IsRoot, Indexed;
      roots := map[];
      for k := 0 to |evs|
        invariant Memos()
        invariant forall j :: 0 <= j < k ==> evs[j].core.creator in roots
        invariant forall p :: p in roots ==> exists e :: e in evs && e.core.creator == p
        invariant forall p :: p in roots ==>
          IsRoot(peerSets, participantEvents, p, RootHead(evs, lastConsensusEvents, p), roots[p])
      {
        var p := evs[k].core.creator;
        assert evs[k] in evs;
        if p !in roots {
          CreatorIndexed(evs[k].core);
          FirstByAt(evs, p, k);
          var root := CreateRoot(p, evs[k].core.selfParent);
          roots := roots[p := root];
        }
      }
    }

    /** The roots of a frame. */
    method CreateRoots(evs: seq<FrameEvent>, i: nat) returns (roots: map<Peer, seq<FrameEvent>>)
      requires Located(events) && Memos() && Divided(events) && Indexed(events, participantEvents)
      requires (forall e :: e in evs ==> e.core in events) && firstRounds.Keys <= participantEvents.Keys
      requires forall p :: p in lastConsensusEvents ==>
               lastConsensusEvents[p] in events && lastConsensusEvents[p].creator == p
      modifies this`roundCache, this`stronglySeeCache, this`timestampCache
      ensures Memos()
      ensures forall p :: p in roots <==>
                (p in firstRounds && firstRounds[p] <= i) || exists e :: e in evs && e.core.creator == p
      ensures forall p :: p in roots ==>
                IsRoot(peerSets, participantEvents, p, RootHead(evs, lastConsensusEvents, p), roots[p])
    {
      hide Located, Memos, Divided, IsRoot, Indexed;
      roots := CreatorRoots(evs);
      ghost var creators := roots.Keys;
      var todo := participantEvents.Keys;
      while todo != {}
        invariant Memos() && creators <= roots.Keys && todo <= participantEvents.Keys
        invariant forall p :: p in KnownBy(firstRounds, i) && p !in todo ==> p in roots
        invariant forall p :: p in roots ==> p in KnownBy(firstRounds, i) || p in creators
        invariant forall p :: p in todo && p in roots ==> p in creators
        invariant forall p :: p in roots ==>
          IsRoot(peerSets, participantEvents, p, RootHead(evs, lastConsensusEvents, p), roots[p])
        decreases todo
      {
        var p :| p in todo;
        todo := todo - {p};
        if p in firstRounds && firstRounds[p] <= i && p !in roots {
          FirstByNone(evs, p);
          var root := CreateRoot(p, if p in lastConsensusEvents then Some(lastConsensusEvents[p]) else None);
          roots := roots[p := root];
        }
      }
    }

    lemma CreatorIndexed(x: Event)
      requires Located(events) && Indexed(events, participantEvents) && x in events
      ensures x.creator in participantEvents
      ensures x.selfParent.Some? ==> x.selfParent.value in events && x.selfParent.value.creator == x.creator
    {
      if x.selfParent.Some? { assert x.selfParent.value in Parents(x); }
    }

    /** Computes the frame of a decided round. */
    method GetFrame(i: nat) returns (frame: Frame)
      requires Located(events) && Memos() && Divided(events) && Indexed(events, participantEvents)
      requires SafeHistory(peerSets) && DistinctKeys(events)
      requires Elections(peerSets, events, rounds) && ReceivedSound(peerSets, events, rounds, roundReceived)
      requires ReceivedComplete(peerSets, events, rounds, roundReceived) && i in rounds && rounds[i].decided
      requires firstRounds.Keys <= participantEvents.Keys
      requires forall p :: p in lastConsensusEvents ==>
               lastConsensusEvents[p] in events && lastConsensusEvents[p].creator == p
      modifies this`roundCache, this`stronglySeeCache, this`timestampCache
      ensures Memos()
      ensures IsFrame(peerSets, events, DecidedRounds(rounds), i, frame)
      ensures Rooted(peerSets, participantEvents, lastConsensusEvents, KnownBy(firstRounds, i), frame)
      ensures forall p :: p in frame.roots <==>
                (p in firstRounds && firstRounds[p] <= i) || exists e :: e in frame.events && e.core.creator == p
    {
      hide Located, Memos, Divided, Indexed, SafeHistory, DistinctKeys, Elections, ReceivedSound, ReceivedComplete,
           IsFrameEvent, IsRoot, IsMedian, RootHead, FamousWitnesses, ReceivedEvents;
      ListingReady(i);
      var evs := CreateFrameEvents(rounds[i].received);
      assert forall e :: e in evs ==> e.core in rounds[i].received;
      FrameComparable(peerSets, events, evs);
      var sorted := SortFrame(evs);
      var roots := CreateRoots(sorted, i);
      var timestamps := CollectTimestamps(rounds[i].FamousWitnesses());
      var timestamp := Median(timestamps);
      frame := Frame(i, peerSets(i), sorted, roots, timestamp);
      forall x
        ensures x in ReceivedEvents(peerSets, events, DecidedRounds(rounds), i) <==>
                exists e :: e in frame.events && e.core == x
      {
        SortedReceived(rounds[i].received, evs, sorted, x);
      }
    }

    lemma SortedReceived(xs: seq<Event>, evs: seq<FrameEvent>, sorted: seq<FrameEvent>, x: Event)
      requires Cores(evs) == xs && forall e :: e in sorted <==> e in evs
      ensures x in xs <==> exists e :: e in sorted && e.core == x
    {
      if x in xs {
        var k :| 0 <= k < |xs| && xs[k] == x;
        assert evs[k] in evs;
      }
      if e :| e in sorted && e.core == x {
        var k :| 0 <= k < |evs| && evs[k] == e;
        assert Cores(evs)[k] == x;
      }
    }

    lemma ListingReady(i: nat)
      requires Located(events) && SafeHistory(peerSets)
      requires Elections(peerSets, events, rounds) && ReceivedSound(peerSets, events, rounds, roundReceived)
      requires ReceivedComplete(peerSets, events, rounds, roundReceived) && i in rounds && rounds[i].decided
      ensures NoDuplicates(rounds[i].received)
      ensures forall x :: x in rounds[i].received ==> x in events
      ensures forall x :: x in rounds[i].received <==> x in ReceivedEvents(peerSets, events, DecidedRounds(rounds), i)
      ensures rounds[i].FamousWitnesses() == FamousWitnesses(peerSets, events, i)
    {
      hide Located, ReceivedIn, ReceivedEvents, DecidedRounds, FamousWitnesses, SafeHistory, Frozen, FameSound, Knows;
      LocatedView(events);
      ElectionsKnown(peerSets, events, rounds);
      ListedAsReceived(peerSets, events, rounds, roundReceived, i);
    }

    // ----- Processing decided rounds

    /** Commits the events of the next frame, and its block if it has a payload. */
    method CommitFrame(frame: Frame)
      requires Committed() && Causal(ConsensusOrder(frames + [frame]))
      requires forall e :: e in frame.events ==> e.core in events
      modifies this`frames, this`blocks, this`consensusEvents, this`lastConsensusEvents, this`pendingLoadedEvents
      ensures Committed() && frames == old(frames) + [frame]
      ensures !BearsPayload(frame) ==> blocks == old(blocks)
      ensures BearsPayload(frame) ==>
                exists b :: blocks == old(blocks) + [b] && b.index == |old(blocks)| && MadeFrom(b, frame)
    {
      hide Unsettled, BlockOf, HasPayload, LastByCreator, Causal, Cores, MadeFrom, BearsPayload;
      FrameAddsBlock(frames, frame);
      ghost var next := frames + [frame];
      assert next[..|frames|] == frames;
      if |frame.events| > 0 {
        CommitEvents(frame.events);
        var block := NewBlockFromFrame(|blocks|, frame);
        if HasPayload(block) {
          blocks := blocks + [block];
        }
      } else {
        EmptyFrame(|blocks|, frame);
        assert consensusEvents + Cores(frame.events) == consensusEvents;
      }
      frames := frames + [frame];
    }

    /** Adds events to the consensus order, in the order of their frame. */
    method CommitEvents(evs: seq<FrameEvent>)
      requires Causal(consensusEvents + Cores(evs)) && forall e :: e in evs ==> e.core in events
      requires lastConsensusEvents == LastByCreator(consensusEvents)
      requires pendingLoadedEvents == |Unsettled(events, consensusEvents)|
      modifies this`consensusEvents, this`lastConsensusEvents, this`pendingLoadedEvents
      ensures consensusEvents == old(consensusEvents) + Cores(evs)
      ensures lastConsensusEvents == LastByCreator(consensusEvents)
      ensures pendingLoadedEvents == |Unsettled(events, consensusEvents)|
    {
      hide Unsettled, Causal, LastByCreator;
      ghost var before, s := consensusEvents, Cores(evs);
      for k := 0 to |evs|
        invariant consensusEvents == before + s[..k]
        invariant lastConsensusEvents == LastByCreator(consensusEvents)
        invariant pendingLoadedEvents == |Unsettled(events, consensusEvents)|
      {
        assert evs[k] in evs && s[..k + 1] == s[..k] + [s[k]];
        NotYetCommitted(before, s, k);
        AddConsensusEvent(evs[k].core);
      }
      assert s[..|s|] == s;
    }

    method AddConsensusEvent(x: Event)
      requires x in events && x !in consensusEvents
      requires lastConsensusEvents == LastByCreator(consensusEvents)
      requires pendingLoadedEvents == |Unsettled(events, consensusEvents)|
      modifies this`consensusEvents, this`lastConsensusEvents, this`pendingLoadedEvents
      ensures consensusEvents == old(consensusEvents) + [x]
      ensures lastConsensusEvents == LastByCreator(consensusEvents)
      ensures pendingLoadedEvents == |Unsettled(events, consensusEvents)|
    {
      hide Unsettled, LastByCreator, IsLoaded;
      UnsettledCommit(events, consensusEvents, x);
      LastByCreatorNext(consensusEvents, x);
      consensusEvents := consensusEvents + [x];
      lastConsensusEvents := lastConsensusEvents[x.creator := x];
      if IsLoaded(x) {
        pendingLoadedEvents := pendingLoadedEvents - 1;
      }
    }

    lemma NotYetCommitted(before: seq<Event>, s: seq<Event>, k: nat)
      requires Causal(before + s) && k < |s|
      ensures s[k] !in before + s[..k]
    {
      var all := before + s;
      assert all[|before| + k] == s[k];
      assert forall j :: 0 <= j < |before| + k ==> (before + s[..k])[j] == all[j];
    }

    lemma EmptyFrame(index: nat, frame: Frame)
      requires frame.events == []
      ensures !HasPayload(BlockOf(index, frame))
    {
    }

    /** Processes the decided rounds at the head of the queue, in order: computes their frames, maps
        them to blocks and commits them. */
    method ProcessDecidedRounds()
      requires Located(events) && Memos() && Divided(events) && Indexed(events, participantEvents)
      requires SafeHistory(peerSets) && DistinctKeys(events)
      requires Accounts(events) && ReceivedComplete(peerSets, events, rounds, roundReceived)
      requires Committed() && RootedLog(peerSets, participantEvents, firstRounds, frames) && Decisive()
      modifies this`pendingRounds, this`frames, this`blocks, this`consensusEvents, this`lastConsensusEvents
      modifies this`pendingLoadedEvents, this`roundCache, this`stronglySeeCache, this`timestampCache
      ensures Memos() && Accounts(events) && Committed() && RootedLog(peerSets, participantEvents, firstRounds, frames)
      ensures old(frames) <= frames && old(blocks) <= blocks && old(consensusEvents) <= consensusEvents
      ensures Decisive() && (pendingRounds != [] ==> !pendingRounds[0].decided)
    {
      hide Located, Memos, Divided, Indexed, SafeHistory, DistinctKeys, Balanced, Committed, RootedLog,
           ReceivedComplete, Concluded;
      CommittedLog();
      var queue := pendingRounds;
      var processed: set<nat> := {};
      ghost var n := |frames|;
      QueueIndexes(queue);
      assert queue[0..] == queue;
      var k := 0;
      while k < |queue| && queue[k].decided
        invariant 0 <= k <= |queue| && Memos() && Committed()
                  && RootedLog(peerSets, participantEvents, firstRounds, frames)
        invariant pendingRounds == queue && |frames| == n + k && old(frames) <= frames
        invariant Balanced(peerSets, events, rounds, lastRound, queue[k..], roundReceived, frames)
        invariant forall r :: r in processed <==> n <= r < n + k
      {
        ProcessRound(queue[k].index, queue[k..]);
        assert queue[k..][1..] == queue[k + 1..];
        processed := processed + {queue[k].index};
        k := k + 1;
      }
      CleanPrefix(queue, k, processed);
      pendingRounds := Clean(queue, processed);
      StillDecisive(n);
      LogGrows(old(frames), old(blocks), old(consensusEvents));
    }

    lemma QueueIndexes(queue: seq<PendingRound>)
      requires Balanced(peerSets, events, rounds, lastRound, queue, roundReceived, frames)
      ensures forall j :: 0 <= j < |queue| ==> queue[j].index == |frames| + j
    {
      hide Elections, Kept;
    }

    /** Computes and commits the frame of round i, the first one not processed. */
    method ProcessRound(i: nat, ghost queue: seq<PendingRound>)
      requires Located(events) && Memos() && Divided(events) && Indexed(events, participantEvents)
      requires SafeHistory(peerSets) && DistinctKeys(events)
      requires Balanced(peerSets, events, rounds, lastRound, queue, roundReceived, frames)
      requires ReceivedComplete(peerSets, events, rounds, roundReceived)
      requires Committed() && RootedLog(peerSets, participantEvents, firstRounds, frames)
      requires i == |frames| && queue != [] && queue[0].decided
      modifies this`frames, this`blocks, this`consensusEvents, this`lastConsensusEvents, this`pendingLoadedEvents
      modifies this`roundCache, this`stronglySeeCache, this`timestampCache
      ensures Memos() && Committed() && RootedLog(peerSets, participantEvents, firstRounds, frames)
      ensures Balanced(peerSets, events, rounds, lastRound, queue[1..], roundReceived, frames)
      ensures |frames| == |old(frames)| + 1 && old(frames) <= frames
    {
      hide Located, Memos, Divided, Indexed, SafeHistory, DistinctKeys, Elections, ReceivedSound, IsLog, Rooted,
           ReceivedComplete, IsFrame, CommittedReceived, RootedLog, Committed;
      CommittedFacts();
      AllListed();
      var frame := GetFrame(i);
      BalancedProcessed(peerSets, events, rounds, lastRound, queue, roundReceived, frames, frame);
      NextFrameCausal(frame);
      RootedLogAppend(peerSets, participantEvents, firstRounds, frames, frame);
      CommitFrame(frame);
    }

    lemma AllListed()
      requires RootedLog(peerSets, participantEvents, firstRounds, frames)
      ensures firstRounds.Keys <= participantEvents.Keys
    {
    }

    lemma CommittedFacts()
      requires Committed() && Located(events) && IsLog(peerSets, events, DecidedRounds(rounds), frames)
      ensures lastConsensusEvents == LastByCreator(ConsensusOrder(frames))
      ensures forall p :: p in lastConsensusEvents ==>
              lastConsensusEvents[p] in events && lastConsensusEvents[p].creator == p
    {
      hide Located, IsLog, ConsensusOrder, LastByCreator, ReceivedIn;
      forall x | x in ConsensusOrder(frames)
        ensures x in events
      {
        CommittedMember(peerSets, events, DecidedRounds(rounds), frames, x);
      }
      LastByCreatorIn(ConsensusOrder(frames), events);
    }

    lemma NextFrameCausal(frame: Frame)
      requires Located(events) && SafeHistory(peerSets) && Elections(peerSets, events, rounds)
      requires IsLog(peerSets, events, DecidedRounds(rounds), frames + [frame])
      ensures Causal(ConsensusOrder(frames + [frame]))
      ensures forall e :: e in frame.events ==> e.core in events
    {
      hide Located, SafeHistory, Elections, ConsensusOrder, Causal, ReceivedIn, Ordered, Knows;
      LocatedView(events);
      ElectionsKnown(peerSets, events, rounds);
      CommitIsCausal(peerSets, events, DecidedRounds(rounds), frames + [frame]);
      assert IsFrame(peerSets, events, DecidedRounds(rounds), |frames|, (frames + [frame])[|frames|]);
      forall e | e in frame.events
        ensures e.core in events
      {
        assert e.core in ReceivedEvents(peerSets, events, DecidedRounds(rounds), |frames|);
      }
    }

    // ----- Inserting an event and running consensus

    function Outcome(e: Event): InsertResult
      reads this`participantEvents, this`events
    {
      CheckEvent(verify, participantEvents, events, e)
    }

    /** What is assumed of an event that passes these checks. */
    ghost predicate WellMade(e: Event)
      reads this`events
    {
      WellIndexed(e) && !SelfCounts(peerSets, e) && DistinctKeys(events + {e})
    }

    /** Attempts to insert an event: verifies it, checks that its parents are known and prevents forks. */
    method InsertEvent(e: Event) returns (result: InsertResult)
      requires Valid() && (Outcome(e) == Inserted ==> WellMade(e))
      modifies this`events, this`topologicalOrder, this`participantEvents, this`lastAncestors, this`firstDescendants,
               this`undetermined, this`pendingLoadedEvents, this`witnessCache, this`roundCache, this`stronglySeeCache
      ensures result == old(Outcome(e))
      ensures result != Inserted ==> unchanged(this)
      ensures result == Inserted ==>
                && Sound(old(events)) && View(old(events)) && e !in old(events) && events == old(events) + {e}
                && topologicalOrder == old(topologicalOrder) + [e]
                && Appended(old(participantEvents), e, participantEvents)
                && undetermined == old(undetermined) + [e]
    {
      hide Sound, WellIndexed, SelfCounts, DistinctKeys, View;
      result := Outcome(e);
      if result == Inserted {
        Attach(e);
      }
    }

    /** Adds an event that passed the checks to the DAG. */
    method Attach(e: Event)
      requires Valid() && Outcome(e) == Inserted && WellMade(e)
      modifies this`events, this`topologicalOrder, this`participantEvents, this`lastAncestors, this`firstDescendants,
               this`undetermined, this`pendingLoadedEvents, this`witnessCache, this`roundCache, this`stronglySeeCache
      ensures Sound(old(events)) && View(old(events)) && e !in old(events) && events == old(events) + {e}
      ensures topologicalOrder == old(topologicalOrder) + [e] && Appended(old(participantEvents), e, participantEvents)
      ensures undetermined == old(undetermined) + [e]
    {
      hide Located, Memos, Divided, Assigned, Accounts, RootedLog, DistinctKeys, SafeHistory, Indexed, Topological,
           WellIndexed, SelfCounts, View, Blocks, ConsensusOrder, LastByCreator, Unsettled, NoDuplicates, Fits,
           IsLoaded, Outcome;
      LocatedView(events);
      AcceptedFits(e);
      AcceptedOrder(e);
      AcceptedCounts(e);
      Connect(e);
      Enlist(e);
    }

    /** Numbers an event and leaves it to consensus. */
    method Enlist(e: Event)
      modifies this`topologicalOrder, this`undetermined, this`pendingLoadedEvents
      ensures topologicalOrder == old(topologicalOrder) + [e] && undetermined == old(undetermined) + [e]
      ensures pendingLoadedEvents == old(pendingLoadedEvents) + if IsLoaded(e) then 1 else 0
    {
      topologicalOrder := topologicalOrder + [e];
      undetermined := undetermined + [e];
      if IsLoaded(e) {
        pendingLoadedEvents := pendingLoadedEvents + 1;
      }
    }

    /** Stores an event and updates the coordinates around it. */
    method Connect(e: Event)
      requires Located(events) && Indexed(events, participantEvents) && Memos() && Divided(events) && Fits(e)
      modifies this`events, this`participantEvents, this`lastAncestors, this`firstDescendants,
               this`witnessCache, this`roundCache, this`stronglySeeCache
      ensures events == old(events) + {e} && e !in old(events) && Located(events) && Memos()
      ensures Indexed(events, participantEvents) && Appended(old(participantEvents), e, participantEvents)
    {
      hide Located, Memos, Divided, Indexed, Fits, Walked;
      ghost var E := events;
      LastByIndex(e);
      Record(e);
      UpdateAncestorFirstDescendant(e, E);
    }

    lemma LastByIndex(e: Event)
      requires Located(events) && Indexed(events, participantEvents) && Fits(e)
      ensures forall x :: x in events && x.creator == e.creator ==> x.index < e.index
    {
      LocatedView(events);
      FittingView(e);
    }

    /** An event that passes the checks fits at the end of its creator's chain. */
    lemma AcceptedFits(e: Event)
      requires View(events) && Indexed(events, participantEvents) && Outcome(e) == Inserted && WellIndexed(e)
      ensures Fits(e) && e !in events && View(events + {e}) && verify(e)
    {
      hide View;
      assert Parents(e) <= events;
      FittingView(e);
    }

    lemma AcceptedOrder(e: Event)
      requires Topological(events, topologicalOrder) && RootedLog(peerSets, participantEvents, firstRounds, frames)
      requires Fits(e) && e !in events && Accounts(events) && Waiting()
      ensures Topological(events + {e}, topologicalOrder + [e])
      ensures RootedLog(peerSets, participantEvents[e.creator := participantEvents[e.creator] + [e]],
                        firstRounds, frames)
      ensures NoDuplicates(undetermined + [e])
      ensures forall x :: x in undetermined + [e] <==> x in events + {e} && x !in roundReceived
    {
      hide Topological, RootedLog, Elections, ReceivedIn, IsLog, InOrder;
      TopologicalAppend(events, topologicalOrder, e);
      RootedLogGrows(peerSets, participantEvents, participantEvents[e.creator := participantEvents[e.creator] + [e]],
                     firstRounds, frames);
    }

    /** A new event is not committed yet. */
    lemma AcceptedCounts(e: Event)
      requires Committed() && Accounts(events) && e !in events
      ensures |Unsettled(events + {e}, consensusEvents)| == pendingLoadedEvents + if IsLoaded(e) then 1 else 0
    {
      hide Elections, ReceivedSound, InOrder, CommittedReceived, Blocks, ConsensusOrder, LastByCreator, Unsettled;
      if e in consensusEvents {
        CommittedMember(peerSets, events, DecidedRounds(rounds), frames, e);
      }
      UnsettledInsert(events, consensusEvents, e);
    }

    /** Inserts an event and, when it is accepted, brings consensus up to date with it. */
    method InsertEventAndRunConsensus(e: Event) returns (result: InsertResult)
      requires Valid() && (Outcome(e) == Inserted ==> WellMade(e))
      modifies this
      ensures Valid() && result == old(Outcome(e))
      ensures result != Inserted ==> unchanged(this)
      ensures result == Inserted ==>
                && e !in old(events) && events == old(events) + {e}
                && topologicalOrder == old(topologicalOrder) + [e]
                && Appended(old(participantEvents), e, participantEvents)
                && old(frames) <= frames && old(blocks) <= blocks && old(consensusEvents) <= consensusEvents
                && UpToDate()
      ensures Lasting(old(rounds), rounds)
      ensures forall x :: x in old(roundReceived) ==> x in roundReceived && roundReceived[x] == old(roundReceived)[x]
    {
      hide Sound, WellIndexed, DistinctKeys, SelfCounts, View, Settled, ReceivedComplete, Decisive;
      ghost var E := events;
      result := InsertEvent(e);
      if result != Inserted {
        return;
      }
      RunConsensus(e, E);
    }

    /** The consensus methods, after event e has joined those of E. */
    method RunConsensus(ghost e: Event, ghost E: set<Event>)
      requires Sound(E) && View(E) && events == E + {e} && e !in E && !SelfCounts(peerSets, e) && e in undetermined
      modifies this`rounds, this`lastRound, this`eventRounds, this`eventLamports, this`roundReceived, this`undetermined,
               this`pendingRounds, this`frames, this`blocks, this`consensusEvents, this`lastConsensusEvents,
               this`pendingLoadedEvents, this`ancestorCache, this`stronglySeeCache, this`roundCache, this`witnessCache,
               this`timestampCache
      ensures Valid() && UpToDate()
      ensures old(frames) <= frames && old(blocks) <= blocks && old(consensusEvents) <= consensusEvents
      ensures Lasting(old(rounds), rounds)
      ensures forall x :: x in old(roundReceived) ==> x in roundReceived && roundReceived[x] == old(roundReceived)[x]
    {
      hide Sound, SelfCounts, View, Settled, ReceivedComplete, Lasting, DecidedRounds, Decisive, Elections, SafeHistory;
      ghost var before := rounds;
      SoundElections(E);
      HoldElections(e, E);
      CommitRounds();
      SoundElections(events);
      DecisionsLast(peerSets, E, before, events, rounds);
    }

    lemma SoundElections(V: set<Event>)
      requires Sound(V)
      ensures SafeHistory(peerSets) && View(events) && Elections(peerSets, V, rounds)
    {
    }

    /** The consensus methods that look at the new event. */
    method HoldElections(ghost e: Event, ghost E: set<Event>)
      requires Sound(E) && View(E) && events == E + {e} && e !in E && !SelfCounts(peerSets, e) && e in undetermined
      modifies this`rounds, this`lastRound, this`pendingRounds, this`eventRounds, this`eventLamports,
               this`ancestorCache, this`witnessCache, this`roundCache, this`stronglySeeCache, this`timestampCache
      ensures Valid() && Settled(peerSets, rounds) && Decisive()
      ensures old(DecidedRounds(rounds)) <= DecidedRounds(rounds)
    {
      hide Located, Memos, Divided, Assigned, Accounts, Committed, RootedLog, DistinctKeys, SafeHistory, Indexed,
           Topological, SelfCounts, View, Waiting, Settled, Verified, Decisive;
      DivideRounds(e, E);
      DecideFame();
    }

    /** The consensus methods that follow from the elections. */
    method CommitRounds()
      requires Valid() && Settled(peerSets, rounds) && Decisive()
      modifies this`rounds, this`roundReceived, this`undetermined, this`pendingRounds, this`frames, this`blocks,
               this`consensusEvents, this`lastConsensusEvents, this`pendingLoadedEvents, this`ancestorCache,
               this`stronglySeeCache, this`roundCache, this`timestampCache
      ensures Valid() && UpToDate()
      ensures old(frames) <= frames && old(blocks) <= blocks && old(consensusEvents) <= consensusEvents
      ensures DecidedRounds(rounds) == old(DecidedRounds(rounds))
      ensures forall x :: x in old(roundReceived) ==> x in roundReceived && roundReceived[x] == old(roundReceived)[x]
    {
      hide Located, Memos, Divided, Assigned, Accounts, Committed, RootedLog, DistinctKeys, SafeHistory, Indexed,
           Topological, Waiting, Settled, ReceivedComplete, DecidedRounds, Verified, Decisive;
      DecideRoundReceived();
      ProcessDecidedRounds();
    }

    lemma StillDecisive(n: nat)
      requires n <= |frames| && Accounts(events) && n <= lastRound + 1
      requires Concluded(peerSets, events, rounds, n, lastRound + 1 - n)
      ensures Decisive()
    {
      hide Conclusive, Elections, Kept;
    }

    lemma LogGrows(frames0: seq<Frame>, blocks0: seq<BlockBody>, committed0: seq<Event>)
      requires Committed() && frames0 <= frames && blocks0 == Blocks(frames0) && committed0 == ConsensusOrder(frames0)
      ensures blocks0 <= blocks && committed0 <= consensusEvents
    {
      hide Blocks, ConsensusOrder;
      BlocksExtend(frames0, frames);
      ConsensusExtend(frames0, frames);
    }

    lemma CommittedLog()
      requires Committed()
      ensures blocks == Blocks(frames) && consensusEvents == ConsensusOrder(frames)
    {
    }

    /** Nothing more can be decided, received or committed with the events at hand. */
    ghost predicate UpToDate()
      reads this
    {
      && Settled(peerSets, rounds)
      && Decisive()
      && ReceivedComplete(peerSets, events, rounds, roundReceived)
      && (pendingRounds != [] ==> !pendingRounds[0].decided)
    }

    lemma ParentsReady(x: Event, p: Event, C: set<Event>, E: set<Event>)
      requires Located(C) && x in C && ProperAncestors(x) <= E && p in Parents(x)
      ensures p in C && p in E && ProperAncestors(p) <= E
    {
      ParentBelow(x, p);
    }

    lemma ParentRoundFiled(x: Event, C: set<Event>, E: set<Event>)
      requires Located(C) && Divided(E) && x in C && E <= events && ProperAncestors(x) <= E
      requires ParentRound(peerSets, x) >= 0
      ensures ParentRound(peerSets, x) in rounds && View(events) && x in events
      ensures rounds[ParentRound(peerSets, x)].Witnesses() == WitnessesIn(peerSets, E, ParentRound(peerSets, x))
      ensures rounds[ParentRound(peerSets, x)].Witnesses() <= events
    {
      hide Round, Witness, ParentRound;
      var p := HighestParent(peerSets, x);
      ParentsReady(x, p, C, E);
      FiledWitnesses(peerSets, E, rounds, ParentRound(peerSets, x));
    }
  }
}
