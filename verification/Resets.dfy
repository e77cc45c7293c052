/** A hashgraph reset from a frame (Reset and InsertFrameEvent in src/hashgraph/hashgraph.go, the
    Store's Reset, SetEvent and AddConsensusEvent in src/hashgraph/inmem_store.go). */
module Resets {
  import opened Events
  import opened Quorum
  import opened Rounds
  import opened Received
  import opened Ledger
  import opened Coordinates
  import opened Frames
  import opened RoundInfos
  import opened RollingIndexes
  import opened Replanting
  import opened Regrowth

  // ----- Sound coordinates

  /** Whatever la records are ancestors of x, under their creators. */
  ghost predicate LastSound(x: Event, la: CoordinatesMap) {
    forall p :: p in la ==> la[p] in Ancestors(x) && la[p].creator == p
  }

  /** Whatever fd records are descendants of a, under their creators. */
  ghost predicate FirstSound(V: set<Event>, a: Event, fd: CoordinatesMap) {
    forall p :: p in fd ==> fd[p] in V && fd[p].creator == p && a in Ancestors(fd[p])
  }

  /** The ancestor test on sound coordinates never answers yes for an event that is not an ancestor. */
  lemma SoundAncestorTest(V: set<Event>, x: Event, y: Event, la: CoordinatesMap)
    requires View(V) && x in V && y in V && LastSound(x, la) && Covers(la, y)
    ensures y in Ancestors(x)
  {
    var a := la[y.creator];
    AncestorsInside(V, x);
    Chain(V, a, y);
    AncestorsTransitive(x, a);
  }

  /** The strongly-see test on sound coordinates never over-counts. */
  lemma SoundStronglySee(V: set<Event>, x: Event, w: Event, la: CoordinatesMap, fd: CoordinatesMap, peers: set<Peer>)
    requires View(V) && x in V && w in V && LastSound(x, la) && FirstSound(V, w, fd)
    ensures Counted(la, fd, peers) <= Between(x, w)
    ensures |Counted(la, fd, peers)| >= Threshold(peers) ==> StronglySees(x, w, peers)
  {
    forall p | p in Counted(la, fd, peers)
      ensures p in Between(x, w)
    {
      AncestorsInside(V, x);
      Chain(V, la[p], fd[p]);
      AncestorsTransitive(x, la[p]);
    }
    SubsetSize(Counted(la, fd, peers), Between(x, w) * peers);
  }

  lemma MergedSound(x: Event, a: CoordinatesMap, b: CoordinatesMap)
    requires a == map[] || (x.selfParent.Some? && LastSound(x.selfParent.value, a))
    requires b == map[] || (x.otherParent.Some? && LastSound(x.otherParent.value, b))
    ensures LastSound(x, Merged(a, b)[x.creator := x])
  {
    var la := Merged(a, b)[x.creator := x];
    assert x in Ancestors(x);
    forall p | p in la && p != x.creator
      ensures la[p] in Ancestors(x) && la[p].creator == p
    {
      if p in a && la[p] == a[p] {
        assert x.selfParent.value in Parents(x);
        ParentBelow(x, x.selfParent.value);
      } else {
        assert x.otherParent.value in Parents(x);
        ParentBelow(x, x.otherParent.value);
      }
    }
  }

  // ----- Attributes

  ghost predicate Recorded(ps: PeerSets, E: set<Event>, rs: map<Event, nat>, ts: map<Event, nat>,
                           ws: map<Event, bool>) {
    && rs.Keys == E && ts.Keys == E && ws.Keys == E
    && (forall x :: x in E ==> rs[x] == Round(ps, x))
    && (forall x :: x in E ==> ts[x] == Lamport(x))
    && (forall x :: x in E ==> (ws[x] <==> Witness(ps, x)))
  }

  lemma RecordedMore(ps: PeerSets, E: set<Event>, rs: map<Event, nat>, ts: map<Event, nat>, ws: map<Event, bool>,
                     fe: FrameEvent)
    requires Recorded(ps, E, rs, ts, ws) && IsFrameEvent(ps, fe)
    ensures Recorded(ps, E + {fe.core}, rs[fe.core := fe.round], ts[fe.core := fe.lamport], ws[fe.core := fe.isWitness])
  {
    hide Round, Witness, Lamport;
  }

  // ----- A participant's window

  ghost function LogOf(t: seq<Event>): Log<Event>
    requires t != [] ==> t[0].index >= 0
  {
    if t == [] then Log(0, []) else Log(t[0].index, t)
  }

  /** The window on p's events shows those of s. */
  ghost predicate Windowed(w: Window<Event>, t: seq<Event>) {
    (t != [] ==> t[0].index >= 0) && Shows(w, LogOf(t))
  }

  lemma NextAccepted(w: Window<Event>, t: seq<Event>, x: Event)
    requires Windowed(w, t) && x.index >= 0 && (t != [] ==> x.index == t[0].index + |t|)
    ensures w.Denied(x.index).None? && Windowed(w.Put(x, x.index), t + [x])
  {
    hide Shows;
    ShowsLast(w, LogOf(t));
    PutShows(w, LogOf(t), x, x.index);
    assert LogOf(t).Write(x, x.index) == LogOf(t + [x]);
  }

  class Replanted {
    const cacheSize: nat
    var participantEvents: map<Peer, Window<Event>>
    var events: set<Event>
    var lastAncestors: map<Event, CoordinatesMap>
    var firstDescendants: map<Event, CoordinatesMap>
    var rounds: map<nat, RoundInfo>
    var eventRounds: map<Event, nat>
    var eventLamports: map<Event, nat>
    var witnesses: map<Event, bool>
    var consensusEvents: seq<Event>
    var lastConsensusEvents: map<Peer, Event>

    /** The rebuilt ancestry is an under-approximation of the ancestry in the full view V. */
    ghost predicate Ancestral(V: set<Event>)
      reads this`events, this`lastAncestors, this`firstDescendants
    {
      && View(V) && events <= V && lastAncestors.Keys == events && firstDescendants.Keys == events
      && (forall x :: x in events ==> LastSound(x, lastAncestors[x]))
      && (forall a :: a in events ==> FirstSound(V, a, firstDescendants[a]))
    }

    /** The rebuilt ancestry is complete, as far as the stored events reach. */
    ghost predicate Rebuilt()
      reads this`events, this`witnesses, this`lastAncestors, this`firstDescendants
    {
      Regrown(events, witnesses, lastAncestors, firstDescendants)
    }

    /** The attributes carried by the frame are the ones that the full view gives. */
    ghost predicate Attributed(ps: PeerSets, E: set<Event>)
      reads this`eventRounds, this`eventLamports, this`witnesses, this`rounds
    {
      Recorded(ps, E, eventRounds, eventLamports, witnesses) && Filed(ps, E, rounds)
    }

    constructor (cacheSize: nat)
      ensures this.cacheSize == cacheSize
    {
      this.cacheSize := cacheSize;
    }

    /** What the store answers to an event. */
    function SetEventError(x: Event): Option<StoreError>
      requires x.index >= 0
      reads this`events, this`participantEvents
    {
      if x in events then None
      else if x.creator !in participantEvents then Some(UnknownParticipant)
      else participantEvents[x.creator].Denied(x.index)
    }

    function Stored(x: Event): map<Peer, Window<Event>>
      requires x.index >= 0 && SetEventError(x).None?
      reads this`events, this`participantEvents
    {
      if x in events then participantEvents
      else participantEvents[x.creator := participantEvents[x.creator].Put(x, x.index)]
    }

    /** Inserts an event with the attributes it has in the frame, without checking its parents. */
    method InsertFrameEvent(fe: FrameEvent, ghost ps: PeerSets, ghost V: set<Event>) returns (error: Option<StoreError>)
      requires Ancestral(V) && Attributed(ps, events) && IsFrameEvent(ps, fe) && fe.core in V && fe.core.index >= 0
      modifies this
      ensures error == old(SetEventError(fe.core))
      ensures error.None? ==>
                && Ancestral(V) && Attributed(ps, events)
                && events == old(events) + {fe.core}
                && participantEvents == old(Stored(fe.core))
                && consensusEvents == old(consensusEvents) + [fe.core]
                && lastConsensusEvents == old(lastConsensusEvents)[fe.core.creator := fe.core]
      ensures error.None? && old(Rebuilt() && InTurn(events, fe.core)) ==> Rebuilt()
    {
      hide Ancestral, Attributed, IsFrameEvent, Regrown, InTurn, LastRebuilt, AllRebuilt;
      var x := fe.core;
      ghost var ws := witnesses;
      if Rebuilt() { RegrownLast(events, witnesses, lastAncestors, firstDescendants); }
      SetAttributes(fe, ps);
      var la := InitLastAncestors(x, V);
      error := SetEventError(x);
      if error.Some? {
        return;
      }
      participantEvents := Stored(x);
      Attach(x, la, V, ws, fe.isWitness);
      consensusEvents := consensusEvents + [x];
      lastConsensusEvents := lastConsensusEvents[x.creator := x];
    }

    /** The coordinates are rebuilt, and la are those x is to be stored with next. */
    ghost predicate Extends(x: Event, la: CoordinatesMap, ws: map<Event, bool>)
      reads this`events, this`lastAncestors, this`firstDescendants
    {
      Regrown(events, ws, lastAncestors, firstDescendants) && InTurn(events, x) && LastRebuilt(events, x, la)
    }

    /** Stores an event with its coordinates, and records it for its ancestors. */
    method Attach(x: Event, la: CoordinatesMap, ghost V: set<Event>, ghost ws: map<Event, bool>, ghost v: bool)
      requires Ancestral(V) && x in V && LastSound(x, la) && witnesses == ws[x := v]
      modifies this`events, this`lastAncestors, this`firstDescendants
      ensures Ancestral(V) && events == old(events) + {x}
      ensures old(Extends(x, la, ws)) ==> Rebuilt()
    {
      hide Ancestral, Regrown, InTurn, Updating, LastRebuilt, Downward, NoneNewer, LastSound, View;
      ghost var E, las, fd := events, lastAncestors, firstDescendants;
      ghost var inTurn := Regrown(E, ws, las, fd) && InTurn(E, x) && LastRebuilt(E, x, la);
      AncestralView(V);
      if inTurn { NewDownward(V, E, ws, las, fd, x, v); }
      SetEvent(x, la, V);
      UpdateAncestorFirstDescendant(x, V);
      if inTurn { Regrows(V, E, ws, las, fd, x, v, la, firstDescendants); }
    }

    method SetAttributes(fe: FrameEvent, ghost ps: PeerSets)
      requires Attributed(ps, events) && IsFrameEvent(ps, fe)
      modifies this`eventRounds, this`eventLamports, this`witnesses, this`rounds
      ensures Attributed(ps, events + {fe.core}) && witnesses == old(witnesses)[fe.core := fe.isWitness]
    {
      hide Recorded, IsFrameEvent, Filed, File;
      AttributesMore(fe, ps);
      RecordedMore(ps, events, eventRounds, eventLamports, witnesses, fe);
      var x := fe.core;
      eventRounds, witnesses, eventLamports :=
        eventRounds[x := fe.round], witnesses[x := fe.isWitness], eventLamports[x := fe.lamport];
      rounds := File(rounds, fe.round, x, fe.isWitness);
    }

    method SetEvent(x: Event, la: CoordinatesMap, ghost V: set<Event>)
      requires Ancestral(V) && x in V && LastSound(x, la)
      modifies this`events, this`lastAncestors, this`firstDescendants
      ensures Ancestral(V) && events == old(events) + {x}
      ensures lastAncestors == old(lastAncestors)[x := la]
      ensures firstDescendants == old(firstDescendants)[x := map[x.creator := x]]
    {
      hide View, LastSound, FirstSound;
      NewFirst(V, x);
      events := events + {x};
      lastAncestors := lastAncestors[x := la];
      firstDescendants := firstDescendants[x := map[x.creator := x]];
    }

    lemma AttributesMore(fe: FrameEvent, ps: PeerSets)
      requires Attributed(ps, events) && IsFrameEvent(ps, fe)
      ensures Filed(ps, events + {fe.core}, File(rounds, fe.round, fe.core, fe.isWitness))
    {
      hide Round, Witness;
      if fe.core in events {
        assert events + {fe.core} == events;
        assert File(rounds, fe.round, fe.core, fe.isWitness) == rounds;
      } else {
        FiledMore(ps, events, rounds, fe.core);
      }
    }

    /** The last ancestors of x, from those of its stored parents. */
    method InitLastAncestors(x: Event, ghost V: set<Event>) returns (la: CoordinatesMap)
      requires Ancestral(V) && x in V
      ensures LastSound(x, la)
      ensures AllRebuilt(events, lastAncestors) ==> LastRebuilt(events, x, la)
    {
      hide View, LastSound, FirstSound, LastRebuilt;
      var a: CoordinatesMap, b: CoordinatesMap := map[], map[];
      if x.selfParent.Some? && x.selfParent.value in events {
        a := lastAncestors[x.selfParent.value];
      }
      if x.otherParent.Some? && x.otherParent.value in events {
        b := lastAncestors[x.otherParent.value];
      }
      MergedSound(x, a, b);
      if AllRebuilt(events, lastAncestors) { MergedRebuilt(V, events, x, a, b); }
      la := Merge(a, b);
      la := la[x.creator := x];
    }

    lemma AncestralView(V: set<Event>)
      requires Ancestral(V)
      ensures View(V) && events <= V
    {
    }

    lemma RegrownLast(E: set<Event>, ws: map<Event, bool>, las: map<Event, CoordinatesMap>,
                      fd: map<Event, CoordinatesMap>)
      requires Regrown(E, ws, las, fd)
      ensures AllRebuilt(E, las)
    {
    }

    lemma NewFirst(V: set<Event>, x: Event)
      requires x in V
      ensures FirstSound(V, x, map[x.creator := x])
    {
      assert x in Ancestors(x);
    }

    /** Records x along each chain below it, as far down as events are stored. */
    method UpdateAncestorFirstDescendant(x: Event, ghost V: set<Event>)
      requires Ancestral(V) && x in events
      modifies this`firstDescendants
      ensures Ancestral(V)
      ensures old(Downward(events, witnesses, firstDescendants) && NoneNewer(events, firstDescendants, x)) ==>
                Updating(events, witnesses, old(firstDescendants), firstDescendants, x, lastAncestors[x], {})
    {
      hide Updating, Downward, NoneNewer, Descended, View, FirstSound;
      var la := lastAncestors[x];
      var todo := la.Keys;
      ghost var fd := firstDescendants;
      ghost var inOrder := Downward(events, witnesses, fd) && NoneNewer(events, fd, x);
      if inOrder { UpdateStarts(events, witnesses, fd, x, la); }
      while todo != {}
        invariant Ancestral(V) && todo <= la.Keys
        invariant inOrder ==> Updating(events, witnesses, fd, firstDescendants, x, la, todo)
        decreases todo
      {
        var p :| p in todo;
        ghost var before := firstDescendants;
        if inOrder { UpdatingOrder(fd, before, x, la, todo); }
        Walk(x, la[p], V);
        if inOrder { UpdateSteps(events, witnesses, fd, before, firstDescendants, x, la, todo, p); }
        todo := todo - {p};
      }
    }

    lemma UpdatingOrder(fd: map<Event, CoordinatesMap>, fd': map<Event, CoordinatesMap>, x: Event, la: CoordinatesMap,
                        todo: set<Peer>)
      requires Updating(events, witnesses, fd, fd', x, la, todo)
      ensures Downward(events, witnesses, fd') && NoneNewer(events, fd', x)
    {
    }

    method Walk(x: Event, last: Event, ghost V: set<Event>)
      requires Ancestral(V) && x in events && last in Ancestors(x)
      modifies this`firstDescendants
      ensures Ancestral(V)
      ensures old(Downward(events, witnesses, firstDescendants) && NoneNewer(events, firstDescendants, x)) ==>
                Descended(events, witnesses, old(firstDescendants), firstDescendants, x, last)
    {
      hide Ancestral, Descending, Descended, NoneNewer, Downward;
      ghost var fd := firstDescendants;
      ghost var inOrder := Downward(events, witnesses, fd) && NoneNewer(events, fd, x);
      AncestralKeys(V);
      WalkStarts(events, witnesses, fd, x, last);
      var ah := Some(last);
      while ah.Some?
        invariant Ancestral(V) && firstDescendants.Keys == events && (ah.Some? ==> ah.value in Ancestors(x))
        invariant Descending(events, witnesses, fd, firstDescendants, x, last, ah)
        decreases ah
      {
        var a := ah.value;
        if a !in events {
          WalkEnds(events, witnesses, fd, firstDescendants, x, last, ah);
          return;
        }
        if x.creator in firstDescendants[a] {
          if inOrder { WalkEndsRecorded(events, witnesses, fd, firstDescendants, x, last, a); }
          return;
        }
        if a in witnesses && witnesses[a] {
          WalkEndsAtWitness(events, witnesses, fd, firstDescendants, x, last, a);
          Mark(a, x, V);
          return;
        }
        WalkSteps(events, witnesses, fd, firstDescendants, x, last, a);
        Mark(a, x, V);
        ah := a.selfParent;
        if ah.Some? {
          BelowBelow(x, a, ah.value);
        }
      }
      WalkEnds(events, witnesses, fd, firstDescendants, x, last, ah);
    }

    method Mark(a: Event, x: Event, ghost V: set<Event>)
      requires Ancestral(V) && a in events && a in firstDescendants && x in events && a in Ancestors(x)
      modifies this`firstDescendants
      ensures Ancestral(V) && firstDescendants.Keys == events
      ensures firstDescendants == old(firstDescendants)[a := old(firstDescendants)[a][x.creator := x]]
    {
      hide View, LastSound, FirstSound;
      assert FirstSound(V, a, firstDescendants[a][x.creator := x]) by { FirstMore(V, a, firstDescendants[a], x); }
      firstDescendants := firstDescendants[a := firstDescendants[a][x.creator := x]];
    }

    lemma AncestralKeys(V: set<Event>)
      requires Ancestral(V)
      ensures firstDescendants.Keys == events && lastAncestors.Keys == events
    {
    }

    lemma FirstMore(V: set<Event>, a: Event, fd: CoordinatesMap, x: Event)
      requires FirstSound(V, a, fd) && x in V && a in Ancestors(x)
      ensures FirstSound(V, a, fd[x.creator := x])
    {
    }

    lemma BelowBelow(x: Event, a: Event, b: Event)
      requires a in Ancestors(x) && b in Parents(a)
      ensures b in Ancestors(x)
    {
      AncestorsTransitive(x, a);
      ParentBelow(a, b);
    }

    /** Clears the hashgraph and plants the frame. */
    method Reset(f: Frame, participants: set<Peer>, ghost ps: PeerSets, ghost V: set<Event>,
                 ghost pe: map<Peer, seq<Event>>)
      returns (error: Option<StoreError>, ghost order: seq<FrameEvent>)
      requires Genuine(ps, V, pe, f)
      modifies this
      ensures Ordered(order) && forall e :: e in order <==> Holds(f, e)
      ensures error.None? <==> forall e :: e in order ==> e.core.creator in participants
      ensures error.Some? ==> error.value == UnknownParticipant
      ensures error.None? ==>
                && Ancestral(V) && Attributed(ps, events)
                && consensusEvents == Cores(order) && (forall x :: x in events <==> x in Cores(order))
                && participantEvents.Keys == participants
                && (forall p :: p in participants ==> Windowed(participantEvents[p], By(consensusEvents, p)))
      ensures error.None? ==> lastConsensusEvents == LastByCreator(consensusEvents) && Rebuilt() && Gapless(events)
      ensures error.None? ==> forall x, y :: x in events && y in events ==>
                x in lastAncestors && (Covers(lastAncestors[x], y) <==> y in StoredBelow(events, x))
      ensures error.None? ==> forall e, w :: e in events && w in events && StoredReach(events, witnesses, e, w) ==>
                Marked(firstDescendants, w, e)
    {
      hide Genuine, Ordered, IsFrameEvent, Attributed, Ancestral, Holds, Planted, Windowed, By, Rebuilt, LastByCreator;
      Clear(participants, ps, V, pe, f);
      var sorted := SortedFrameEvents(f, ps, V, pe);
      order := sorted;
      NonePlanted(sorted, participants);
      for k := 0 to |sorted|
        invariant Ancestral(V) && Attributed(ps, events) && Planted(sorted, k, participants)
        invariant Rebuilt() && lastConsensusEvents == LastByCreator(consensusEvents)
        invariant forall j :: 0 <= j < k ==> sorted[j].core.creator in participants
      {
        assert sorted[k] in sorted;
        error := PlantNext(f, sorted, k, participants, ps, V, pe);
        if error.Some? {
          return;
        }
      }
      AllPlanted(sorted, participants);
      PlantedGapless(ps, V, pe, f, sorted);
      PlantedTests(V);
      error := None;
    }

    /** What the coordinates answer about the planted events. */
    lemma PlantedTests(V: set<Event>)
      requires Ancestral(V) && Rebuilt() && Gapless(events)
      ensures forall x, y :: x in events && y in events ==>
                x in lastAncestors && (Covers(lastAncestors[x], y) <==> y in StoredBelow(events, x))
      ensures forall e, w :: e in events && w in events && StoredReach(events, witnesses, e, w) ==>
                Marked(firstDescendants, w, e)
    {
      hide View, Gapless, AllRebuilt, AllMarked, Downward, StoredBelow, StoredReach, Marked, Covers;
      AncestralKeys(V);
      AncestralView(V);
      forall x, y | x in events && y in events
        ensures Covers(lastAncestors[x], y) <==> y in StoredBelow(events, x)
      {
        RebuiltTest(V, events, lastAncestors, x, y);
      }
      forall e, w | e in events && w in events && StoredReach(events, witnesses, e, w)
        ensures Marked(firstDescendants, w, e)
      {
        ReachIsMarked(V, events, witnesses, lastAncestors, firstDescendants, e, w);
      }
    }

    lemma PlantedGapless(ps: PeerSets, V: set<Event>, pe: map<Peer, seq<Event>>, f: Frame, sorted: seq<FrameEvent>)
      requires Genuine(ps, V, pe, f) && Ordered(sorted) && (forall e :: e in sorted <==> Holds(f, e))
      requires forall x :: x in events <==> x in Cores(sorted)
      ensures Gapless(events)
    {
      hide Genuine, Ordered, Holds, Slice, By, Ascending, IsFrameEvent, Indexed, View;
      SortedInside(ps, V, pe, f, sorted);
      GenuineParts(ps, V, pe, f);
      forall x, y | x in events && y in events && x.creator == y.creator && y.index < x.index
        ensures x.selfParent.Some? && x.selfParent.value in events
      {
        SortedSlice(ps, V, pe, f, sorted, x.creator);
        ByMember(Cores(sorted), x.creator);
        SliceGapless(V, pe, x.creator, By(Cores(sorted), x.creator), x, y);
      }
    }

    /** The first k events are planted, and each participant's window shows its own. */
    ghost predicate Planted(sorted: seq<FrameEvent>, k: nat, participants: set<Peer>)
      requires k <= |sorted|
      reads this`consensusEvents, this`events, this`participantEvents
    {
      var s := Cores(sorted)[..k];
      && consensusEvents == s && (forall x :: x in events <==> x in s)
      && participantEvents.Keys == participants
      && (forall p :: p in participants ==> Windowed(participantEvents[p], By(s, p)))
    }

    method Clear(participants: set<Peer>, ghost ps: PeerSets, ghost V: set<Event>, ghost pe: map<Peer, seq<Event>>,
                 ghost f: Frame)
      requires Genuine(ps, V, pe, f)
      modifies this
      ensures Ancestral(V) && Attributed(ps, events) && Rebuilt()
      ensures lastConsensusEvents == LastByCreator(consensusEvents)
      ensures events == {} && consensusEvents == [] && participantEvents.Keys == participants
      ensures forall p :: p in participants ==> Windowed(participantEvents[p], [])
    {
      hide Genuine, Windowed, Ancestral, Attributed;
      participantEvents := map p | p in participants :: Window(cacheSize, -1, []);
      consensusEvents, lastConsensusEvents := [], map[];
      GenuineParts(ps, V, pe, f);
      ClearEvents(V);
      ClearAttributes(ps);
      assert Rebuilt() by { NothingRebuilt(); }
      assert Windowed(Window(cacheSize, -1, []), []) by { EmptyWindow(); }
    }

    method ClearEvents(ghost V: set<Event>)
      requires View(V)
      modifies this`events, this`lastAncestors, this`firstDescendants
      ensures Ancestral(V) && events == {}
      ensures lastAncestors == map[] && firstDescendants == map[]
    {
      hide View;
      events, lastAncestors, firstDescendants := {}, map[], map[];
    }

    method ClearAttributes(ghost ps: PeerSets)
      modifies this`rounds, this`eventRounds, this`eventLamports, this`witnesses
      ensures Attributed(ps, {})
    {
      rounds, eventRounds, eventLamports, witnesses := map[], map[], map[], map[];
    }

    lemma NothingRebuilt()
      requires events == {}
      ensures Rebuilt()
    {
    }

    lemma EmptyWindow()
      ensures Windowed(Window(cacheSize, -1, []), [])
    {
    }

    method PlantNext(ghost f: Frame, sorted: seq<FrameEvent>, k: nat, ghost participants: set<Peer>,
                     ghost ps: PeerSets, ghost V: set<Event>, ghost pe: map<Peer, seq<Event>>)
      returns (error: Option<StoreError>)
      requires Genuine(ps, V, pe, f) && Ordered(sorted) && (forall e :: e in sorted <==> Holds(f, e)) && k < |sorted|
      requires Ancestral(V) && Attributed(ps, events) && Planted(sorted, k, participants)
      requires Rebuilt() && lastConsensusEvents == LastByCreator(consensusEvents)
      modifies this
      ensures error == if sorted[k].core.creator in participants then None else Some(UnknownParticipant)
      ensures error.None? ==> Ancestral(V) && Attributed(ps, events) && Planted(sorted, k + 1, participants)
      ensures error.None? ==> Rebuilt() && lastConsensusEvents == LastByCreator(consensusEvents)
    {
      hide Genuine, Ordered, IsFrameEvent, Attributed, Ancestral, Holds, Windowed, By, Stored, SetEventError, Rebuilt,
           InTurn, LastByCreator;
      NextPlantable(f, sorted, k, ps, V, pe);
      NextInTurn(f, sorted, k, ps, V, pe);
      LastByCreatorNext(consensusEvents, sorted[k].core);
      error := InsertFrameEvent(sorted[k], ps, V);
      assert Cores(sorted)[..k + 1] == Cores(sorted)[..k] + [sorted[k].core];
    }

    lemma NextInTurn(f: Frame, sorted: seq<FrameEvent>, k: nat, ps: PeerSets, V: set<Event>, pe: map<Peer, seq<Event>>)
      requires Genuine(ps, V, pe, f) && Ordered(sorted) && (forall e :: e in sorted <==> Holds(f, e)) && k < |sorted|
      requires (forall x :: x in events <==> x in Cores(sorted)[..k]) && sorted[k].core !in events
      ensures InTurn(events, sorted[k].core)
    {
      hide Genuine, Ordered, Holds, IsFrameEvent;
      SortedInside(ps, V, pe, f, sorted);
      forall y | y in events
        ensures sorted[k].core !in Parents(y)
        ensures y.creator == sorted[k].core.creator ==> y.index < sorted[k].core.index
      {
        var j :| 0 <= j < k && Cores(sorted)[..k][j] == y;
        assert Cores(sorted)[j] == y;
        if sorted[k].core in Parents(y) { ParentsFirst(ps, sorted, k, j); }
      }
    }

    lemma NonePlanted(sorted: seq<FrameEvent>, participants: set<Peer>)
      requires events == {} && consensusEvents == [] && participantEvents.Keys == participants
      requires forall p :: p in participants ==> Windowed(participantEvents[p], [])
      ensures Planted(sorted, 0, participants)
    {
      hide Windowed;
      assert Cores(sorted)[..0] == [] && forall p :: By([], p) == [];
    }

    lemma AllPlanted(sorted: seq<FrameEvent>, participants: set<Peer>)
      requires Planted(sorted, |sorted|, participants)
      ensures consensusEvents == Cores(sorted) && (forall x :: x in events <==> x in Cores(sorted))
      ensures participantEvents.Keys == participants
      ensures forall p :: p in participants ==> Windowed(participantEvents[p], By(consensusEvents, p))
    {
      hide Windowed, By;
      assert Cores(sorted)[..|sorted|] == Cores(sorted);
    }

    lemma NextPlantable(f: Frame, sorted: seq<FrameEvent>, k: nat, ps: PeerSets, V: set<Event>,
                        pe: map<Peer, seq<Event>>)
      requires Genuine(ps, V, pe, f) && Ordered(sorted) && (forall e :: e in sorted <==> Holds(f, e)) && k < |sorted|
      requires forall x :: x in events <==> x in Cores(sorted)[..k]
      requires forall p :: p in participantEvents ==> Windowed(participantEvents[p], By(Cores(sorted)[..k], p))
      ensures IsFrameEvent(ps, sorted[k]) && sorted[k].core in V && sorted[k].core.index >= 0
              && sorted[k].core !in events
      ensures SetEventError(sorted[k].core) ==
              if sorted[k].core.creator in participantEvents then None else Some(UnknownParticipant)
      ensures sorted[k].core.creator in participantEvents ==> Stored(sorted[k].core).Keys == participantEvents.Keys
      ensures sorted[k].core.creator in participantEvents ==>
                forall p :: p in participantEvents ==>
                  Windowed(Stored(sorted[k].core)[p], By(Cores(sorted)[..k + 1], p))
    {
      hide Genuine, Ordered, IsFrameEvent, Windowed, By, Slice, Holds, Ascending, Indexed;
      assert sorted[k] in sorted;
      SortedInside(ps, V, pe, f, sorted);
      var s, x := Cores(sorted), sorted[k].core;
      var p := x.creator;
      SortedSlice(ps, V, pe, f, sorted, p);
      assert Indexed(V, pe) by { GenuineParts(ps, V, pe, f); }
      NextIndex(V, pe, s, k);
      NotYet(ps, sorted, k);
      assert s[..k + 1] == s[..k] + [x];
      if p in participantEvents {
        NextAccepted(participantEvents[p], By(s[..k], p), x);
        forall q | q in participantEvents
          ensures Windowed(Stored(x)[q], By(s[..k + 1], q))
        {
          BySnoc(s[..k], x, q);
          assert By(s[..k], q) + [] == By(s[..k], q);
        }
      }
    }

    lemma GenuineParts(ps: PeerSets, V: set<Event>, pe: map<Peer, seq<Event>>, f: Frame)
      requires Genuine(ps, V, pe, f)
      ensures View(V) && Indexed(V, pe)
    {
    }

    lemma NotYet(ps: PeerSets, sorted: seq<FrameEvent>, k: nat)
      requires Ordered(sorted) && (forall e :: e in sorted ==> IsFrameEvent(ps, e)) && k < |sorted|
      ensures sorted[k].core !in Cores(sorted)[..k]
    {
      hide Ordered, IsFrameEvent;
      forall j | 0 <= j < k
        ensures sorted[j].core != sorted[k].core
      {
        FrameOrder(ps, sorted, j, k);
      }
    }
  }
}
