/** The per-event coordinates behind fast ancestry and strongly-see tests
    (src/hashgraph/event.go, src/hashgraph/hashgraph.go). */
module Coordinates {
  import opened Events
  import opened Rounds

  /** Participant => an event of hers; its hash names it and its index is part of it. */
  type CoordinatesMap = map<Peer, Event>

  // ----- Participants' events

  /** Each participant's events are held in order of index. */
  ghost predicate Indexed(V: set<Event>, pe: map<Peer, seq<Event>>) {
    && (forall p, i :: p in pe && 0 <= i < |pe[p]| ==> pe[p][i] in V && pe[p][i].creator == p && pe[p][i].index == i)
    && (forall x :: x in V ==>
          x.creator in pe && 0 <= x.index < |pe[x.creator]| && pe[x.creator][x.index] == x)
  }

  /** pe' is pe with e at the end of its creator's events. */
  ghost predicate Appended(pe: map<Peer, seq<Event>>, e: Event, pe': map<Peer, seq<Event>>) {
    e.creator in pe && pe' == pe[e.creator := pe[e.creator] + [e]]
  }

  lemma IndexedAppend(V: set<Event>, pe: map<Peer, seq<Event>>, e: Event)
    requires Indexed(V, pe) && e.creator in pe && e.index == |pe[e.creator]|
    ensures Indexed(V + {e}, pe[e.creator := pe[e.creator] + [e]])
  {
  }

  // ----- Last ancestors

  /** a is p's highest event among the ancestors of x. */
  ghost predicate IsLast(x: Event, p: Peer, a: Event) {
    && a in Ancestors(x) && a.creator == p
    && forall b :: b in Ancestors(x) && b.creator == p ==> b.index <= a.index
  }

  ghost predicate LastAncestorsOf(x: Event, la: CoordinatesMap) {
    && (forall p :: p in la ==> IsLast(x, p, la[p]))
    && (forall b :: b in Ancestors(x) ==> b.creator in la)
  }

  lemma CoordinateIsLast(x: Event, la: CoordinatesMap, q: Peer)
    requires LastAncestorsOf(x, la) && q in la
    ensures IsLast(x, q, la[q])
  {
  }

  /** The test made by `ancestor`. */
  predicate Covers(la: CoordinatesMap, y: Event) {
    y.creator in la && la[y.creator].index >= y.index
  }

  /** The ancestor test is reachability by parent links. */
  lemma AncestorTest(V: set<Event>, x: Event, y: Event, la: CoordinatesMap)
    requires View(V) && x in V && y in V && LastAncestorsOf(x, la)
    ensures Covers(la, y) <==> y in Ancestors(x)
  {
    if Covers(la, y) {
      var a := la[y.creator];
      AncestorsInside(V, x);
      Chain(V, a, y);
      AncestorsTransitive(x, a);
    }
  }

  /** What an event's coordinates are made of: its parents' and itself. */
  lemma MergedIsLast(V: set<Event>, x: Event, la: CoordinatesMap)
    requires View(V) && x in V
    requires x.creator in la && la[x.creator] == x
    requires forall p :: p in la && p != x.creator ==> la[p] in ProperAncestors(x) && la[p].creator == p
    requires forall q, b :: q in Parents(x) && b in Ancestors(q) ==> b.creator in la && b.index <= la[b.creator].index
    ensures LastAncestorsOf(x, la)
  {
    forall b | b in Ancestors(x)
      ensures b.creator in la && b.index <= la[b.creator].index
    {
      if b != x {
        var q := ThroughParent(x, b);
      }
    }
    assert x in Ancestors(x);
    forall b | b in Ancestors(x) && b.creator == x.creator
      ensures b.index <= x.index
    {
      ChainIndex(V, x, b);
    }
  }

  // ----- First descendants

  /** Every recorded descendant is one: it reaches the event it is recorded for. */
  ghost predicate DescendantsSound(ps: PeerSets, W: set<Event>, fd: map<Event, CoordinatesMap>) {
    forall a, p :: a in fd && p in fd[a] ==>
      fd[a][p] in W && fd[a][p].creator == p && Reaches(ps, fd[a][p], a)
  }

  /** Every event of C that reaches another is recorded there, or an earlier one by its creator is. */
  ghost predicate DescendantsComplete(ps: PeerSets, C: set<Event>, fd: map<Event, CoordinatesMap>) {
    forall a, f :: a in fd && f in C && Reaches(ps, f, a) ==>
      f.creator in fd[a] && fd[a][f.creator].index <= f.index
  }

  /** The peers that the strongly-see loop counts. */
  function Counted(la: CoordinatesMap, fd: CoordinatesMap, peers: set<Peer>): set<Peer> {
    set p | p in peers && p in la && p in fd && la[p].index >= fd[p].index
  }

  /** The strongly-see loop counts exactly the peers with a recorded descendant of w below x. */
  lemma CountedIsLinked(ps: PeerSets, W: set<Event>, C: set<Event>, x: Event, w: Event,
                        la: CoordinatesMap, fd: map<Event, CoordinatesMap>, peers: set<Peer>)
    requires View(W) && Closed(C) && x in C && C <= W && w in fd
    requires LastAncestorsOf(x, la)
    requires DescendantsSound(ps, W, fd) && DescendantsComplete(ps, C, fd)
    ensures Counted(la, fd[w], peers) == Linked(ps, x, w) * peers
  {
    hide Witness;
    AncestorsInside(C, x);
    forall p | p in Counted(la, fd[w], peers)
      ensures p in Linked(ps, x, w)
    {
      var f := fd[w][p];
      Chain(W, la[p], f);
      AncestorsTransitive(x, la[p]);
      assert f in Ancestors(x) && Reaches(ps, f, w);
    }
    forall p | p in Linked(ps, x, w) * peers
      ensures p in Counted(la, fd[w], peers)
    {
      var f :| f in Ancestors(x) && Reaches(ps, f, w) && f.creator == p;
      assert f in C;
    }
  }

  // ----- Walking down a participant's chain from its last event below e

  /** One step down from an event that is no witness still reaches. */
  lemma ReachesDown(ps: PeerSets, V: set<Event>, e: Event, a: Event)
    requires View(V) && e in V && Reaches(ps, e, a) && !Witness(ps, a) && a.selfParent.Some?
    ensures Reaches(ps, e, a.selfParent.value) && a.selfParent.value.creator == a.creator
  {
    hide Witness;
    var s := a.selfParent.value;
    AncestorsInside(V, e);
    assert s in Parents(a);
    ParentBelow(a, s);
    AncestorsTransitive(e, a);
    forall b | b in Ancestors(e) && b.creator == s.creator && b.index > s.index
      ensures !Witness(ps, b)
    {
      if b.index == a.index { assert SameSlot(a, b); }
    }
  }

  /** The highest event of a participant below e is reached. */
  lemma LastIsReached(ps: PeerSets, e: Event, a: Event)
    requires IsLast(e, a.creator, a)
    ensures Reaches(ps, e, a)
  {
  }

  /** Where an earlier event by e's creator is recorded, everything further down that e
      reaches has one recorded too: the walk may stop. */
  lemma AlreadyRecorded(ps: PeerSets, W: set<Event>, C: set<Event>, fd: map<Event, CoordinatesMap>,
                        e: Event, a: Event, b: Event)
    requires View(W) && C <= W && e in W && a in Ancestors(e) && a in fd && b in fd
    requires DescendantsSound(ps, W, fd) && DescendantsComplete(ps, C, fd)
    requires a.creator == b.creator && b.index <= a.index && Reaches(ps, e, b)
    requires e.creator in fd[a] && fd[a][e.creator] in C
    ensures e.creator in fd[b]
  {
    hide Witness;
    var f := fd[a][e.creator];
    AncestorsInside(W, e);
    AncestorsInside(W, f);
    Chain(W, a, b);
    AncestorsTransitive(f, a);
    AncestorsTransitive(e, a);
    forall z | z in Ancestors(f) && z.creator == b.creator && z.index > b.index
      ensures !Witness(ps, z)
    {
      if z.index <= a.index { Chain(W, a, z); }
    }
    assert Reaches(ps, f, b);
  }

  // ----- The coordinates of a new event

  /** The later of two coordinates for each participant. */
  function Merged(a: CoordinatesMap, b: CoordinatesMap): CoordinatesMap {
    map p | p in a.Keys + b.Keys :: if p !in a || (p in b && a[p].index < b[p].index) then b[p] else a[p]
  }

  /** Merges b into a copy of a, participant by participant. */
  method Merge(a: CoordinatesMap, b: CoordinatesMap) returns (la: CoordinatesMap)
    ensures la == Merged(a, b)
  {
    la := a;
    var todo := b.Keys;
    while todo != {}
      invariant todo <= b.Keys
      invariant la.Keys == a.Keys + (b.Keys - todo)
      invariant forall p :: p in la ==>
        la[p] == if p !in todo && (p !in a || (p in b && a[p].index < b[p].index)) then b[p] else a[p]
      decreases todo
    {
      var p :| p in todo;
      todo := todo - {p};
      if p !in la || la[p].index < b[p].index {
        la := la[p := b[p]];
      }
    }
  }

  /** The last ancestors of a parent, or nothing for a parent that is not there. */
  ghost predicate ParentCoordinates(parent: Option<Event>, la: CoordinatesMap) {
    match parent
    case None => la == map[]
    case Some(p) => LastAncestorsOf(p, la)
  }

  lemma MergedParents(V: set<Event>, e: Event, a: CoordinatesMap, b: CoordinatesMap)
    requires View(V) && e in V
    requires ParentCoordinates(e.selfParent, a) && ParentCoordinates(e.otherParent, b)
    ensures LastAncestorsOf(e, Merged(a, b)[e.creator := e])
  {
    var la := Merged(a, b)[e.creator := e];
    forall p | p in la && p != e.creator
      ensures la[p] in ProperAncestors(e) && la[p].creator == p
    {
      var q := if p in a && la[p] == a[p] then e.selfParent.value else e.otherParent.value;
      ParentBelow(e, q);
    }
    forall q, c | q in Parents(e) && c in Ancestors(q)
      ensures c.creator in la && c.index <= la[c.creator].index
    {
      ParentBelow(e, q);
      if c.creator == e.creator { ChainIndex(V, e, c); }
    }
    MergedIsLast(V, e, la);
  }

  /** A new event reaches, for now, only itself, and nothing known reaches it. */
  lemma NewDescendants(ps: PeerSets, E: set<Event>, e: Event, fd: map<Event, CoordinatesMap>)
    requires View(E) && View(E + {e}) && e !in E && fd.Keys == E
    requires DescendantsSound(ps, E, fd) && DescendantsComplete(ps, E, fd)
    ensures DescendantsSound(ps, E + {e}, fd[e := map[e.creator := e]])
    ensures DescendantsComplete(ps, E, fd[e := map[e.creator := e]])
  {
    hide Witness;
    ReachesItself(ps, E + {e}, e);
    forall f | f in E
      ensures !Reaches(ps, f, e)
    {
      AncestorsInside(E, f);
    }
  }

  /** Recording e where its creator has nothing recorded yet keeps the records right. */
  lemma RecordDescendant(ps: PeerSets, W: set<Event>, C: set<Event>, fd: map<Event, CoordinatesMap>, e: Event, a: Event)
    requires DescendantsSound(ps, W, fd) && DescendantsComplete(ps, C, fd)
    requires e in W && a in fd && e.creator !in fd[a] && Reaches(ps, e, a)
    ensures DescendantsSound(ps, W, fd[a := fd[a][e.creator := e]])
    ensures DescendantsComplete(ps, C, fd[a := fd[a][e.creator := e]])
  {
    hide Reaches;
  }

  // ----- Walking all the chains below a new event

  /** The walks for the participants in done are over: e, or an earlier event by its creator,
      is recorded wherever e reaches; and e itself is recorded nowhere else. */
  ghost predicate Walked(ps: PeerSets, fd: map<Event, CoordinatesMap>, e: Event, done: set<Peer>) {
    && e in fd && e.creator in fd[e]
    && (forall a :: a in fd && a.creator in done && Reaches(ps, e, a) ==> e.creator in fd[a])
    && (forall a :: a in fd && e.creator in fd[a] && fd[a][e.creator] == e ==> a == e || a.creator in done)
  }

  lemma NothingWalked(ps: PeerSets, E: set<Event>, e: Event, fd: map<Event, CoordinatesMap>)
    requires DescendantsSound(ps, E, fd) && fd.Keys == E && e !in E
    ensures Walked(ps, fd[e := map[e.creator := e]], e, {})
  {
    hide Reaches;
  }

  /** The walk for participant q has come down to ah, which e reaches. */
  ghost predicate Walking(ps: PeerSets, fd: map<Event, CoordinatesMap>, e: Event, done: set<Peer>, q: Peer, ah: Event) {
    && ah in fd && ah.creator == q && Reaches(ps, e, ah)
    && e in fd && e.creator in fd[e]
    && (forall a :: a in fd && Reaches(ps, e, a) && (a.creator in done || (a.creator == q && a.index > ah.index)) ==>
          e.creator in fd[a])
    && (forall a :: a in fd && e.creator in fd[a] && fd[a][e.creator] == e ==>
          a == e || a.creator in done || (a.creator == q && a.index > ah.index))
  }

  lemma StartWalk(ps: PeerSets, W: set<Event>, fd: map<Event, CoordinatesMap>, e: Event, done: set<Peer>, q: Peer,
                  last: Event)
    requires View(W) && e in W && fd.Keys == W
    requires Walked(ps, fd, e, done) && q !in done && IsLast(e, q, last)
    ensures Walking(ps, fd, e, done, q, last)
  {
    LastIsReached(ps, e, last);
    AncestorsInside(W, e);
  }

  lemma StopRecorded(ps: PeerSets, W: set<Event>, E: set<Event>, fd: map<Event, CoordinatesMap>,
                     e: Event, done: set<Peer>, q: Peer, ah: Event)
    requires View(W) && W == E + {e} && Closed(E) && fd.Keys == W
    requires DescendantsSound(ps, W, fd) && DescendantsComplete(ps, E, fd)
    requires Walking(ps, fd, e, done, q, ah) && q !in done && e.creator in fd[ah]
    ensures Walked(ps, fd, e, done + {q})
  {
    hide Witness, Reaches;
    forall b | b in fd && b.creator == q && Reaches(ps, e, b)
      ensures e.creator in fd[b]
    {
      if b.index <= ah.index && b != e {
        if ah == e {
          ReachesItself(ps, W, b);
        } else {
          ReachedIsBelow(ps, e, ah);
          AlreadyRecorded(ps, W, E, fd, e, ah, b);
        }
      }
    }
  }

  lemma ReachedIsBelow(ps: PeerSets, e: Event, a: Event)
    requires Reaches(ps, e, a)
    ensures a in Ancestors(e)
  {
  }

  /** Recording e at ah either ends the walk, at a witness or at the bottom, or takes it one step down. */
  lemma StepDown(ps: PeerSets, W: set<Event>, fd: map<Event, CoordinatesMap>, fd': map<Event, CoordinatesMap>,
                 e: Event, done: set<Peer>, q: Peer, ah: Event)
    requires View(W) && e in W && fd.Keys == W
    requires Walking(ps, fd, e, done, q, ah) && e.creator !in fd[ah]
    requires fd' == fd[ah := fd[ah][e.creator := e]]
    ensures Witness(ps, ah) || ah.selfParent.None? ==> Walked(ps, fd', e, done + {q})
    ensures !Witness(ps, ah) && ah.selfParent.Some? ==> Walking(ps, fd', e, done, q, ah.selfParent.value)
  {
    hide Witness, Reaches;
    forall b | b in W && b.creator == q && b.index == ah.index
      ensures b == ah
    {
      assert SameSlot(b, ah);
    }
    forall b | b in W && b.creator == q && b.index < ah.index && Reaches(ps, e, b)
      ensures !Witness(ps, ah) && ah.selfParent.Some? && b.index <= ah.selfParent.value.index
    {
      WitnessStops(ps, e, ah, b);
      IndexNonNegative(W, b);
    }
    if !Witness(ps, ah) && ah.selfParent.Some? {
      ReachesDown(ps, W, e, ah);
      assert ah.selfParent.value in Parents(ah);
    }
  }

  /** Nothing is reached below a witness. */
  lemma WitnessStops(ps: PeerSets, e: Event, a: Event, b: Event)
    requires Reaches(ps, e, a) && Reaches(ps, e, b) && a.creator == b.creator && b.index < a.index
    ensures !Witness(ps, a)
  {
    hide Witness;
  }

  lemma AllWalked(ps: PeerSets, W: set<Event>, E: set<Event>, fd: map<Event, CoordinatesMap>, e: Event,
                  la: CoordinatesMap)
    requires W == E + {e} && LastAncestorsOf(e, la) && Walked(ps, fd, e, la.Keys)
    requires DescendantsSound(ps, W, fd) && DescendantsComplete(ps, E, fd)
    requires forall x :: x in E && x.creator == e.creator ==> x.index < e.index
    ensures DescendantsComplete(ps, W, fd)
  {
    hide Witness, Reaches;
    forall a | a in fd && Reaches(ps, e, a)
      ensures e.creator in fd[a] && fd[a][e.creator].index <= e.index
    {
      ReachedIsBelow(ps, e, a);
    }
  }

  // ----- Why the index of an event must be above its self-parent's

  /** The ancestor test answers right for all pairs of events in W. */
  ghost predicate TestsExactly(W: set<Event>, la: map<Event, CoordinatesMap>)
    requires W <= la.Keys
  {
    forall x, y :: x in W && y in W ==> (Covers(la[x], y) <==> y in Ancestors(x))
  }

  /** A new event that extends its creator's chain in V and has the coordinates computed from its parents,
      whatever its index. */
  ghost predicate Extends(V: set<Event>, e: Event, s: Event, la: map<Event, CoordinatesMap>) {
    && View(V) && e !in V && Parents(e) <= V && e.selfParent == Some(s) && s.creator == e.creator
    && (forall x :: x in V && x.creator == e.creator ==> x.index <= s.index)
    && la.Keys == V + {e} && (forall x :: x in V ==> LastAncestorsOf(x, la[x]))
    && la[e] == Merged(la[s], if e.otherParent.Some? then la[e.otherParent.value] else map[])[e.creator := e]
  }

  /** The ancestor test stays exact if and only if the new event's index is above its self-parent's. */
  lemma IndexRule(V: set<Event>, e: Event, s: Event, la: map<Event, CoordinatesMap>)
    requires Extends(V, e, s, la)
    ensures TestsExactly(V + {e}, la) <==> e.index > s.index
  {
    hide LastAncestorsOf, View;
    if e.index > s.index {
      forall x, y | x in V + {e} && y in V + {e}
        ensures Covers(la[x], y) <==> y in Ancestors(x)
      {
        if x == e {
          TestFromNew(V, e, s, la, y);
        } else if y == e {
          NewNotCovered(V, e, s, la, x);
        } else {
          AncestorTest(V, x, y, la[x]);
        }
      }
    } else {
      CoveredByParent(V, e, s, la);
    }
  }

  lemma TestFromNew(V: set<Event>, e: Event, s: Event, la: map<Event, CoordinatesMap>, y: Event)
    requires Extends(V, e, s, la) && e.index > s.index && y in V + {e}
    ensures Covers(la[e], y) <==> y in Ancestors(e)
  {
    hide LastAncestorsOf, View;
    assert e in Ancestors(e) && s in Parents(e);
    ParentBelow(e, s);
    if y != e {
      AncestorTest(V, s, y, la[s]);
      if e.otherParent.Some? {
        assert e.otherParent.value in Parents(e);
        AncestorTest(V, e.otherParent.value, y, la[e.otherParent.value]);
      }
      if y.creator == e.creator {
        Chain(V, s, y);
      }
    }
  }

  lemma NewNotCovered(V: set<Event>, e: Event, s: Event, la: map<Event, CoordinatesMap>, x: Event)
    requires Extends(V, e, s, la) && e.index > s.index && x in V
    ensures !Covers(la[x], e) && e !in Ancestors(x)
  {
    AncestorsInside(V, x);
    if e.creator in la[x] { CoordinateIsLast(x, la[x], e.creator); }
  }

  lemma CoveredByParent(V: set<Event>, e: Event, s: Event, la: map<Event, CoordinatesMap>)
    requires Extends(V, e, s, la) && e.index <= s.index
    ensures s in V && Covers(la[s], e) && e !in Ancestors(s)
  {
    assert s in Parents(e) && s in Ancestors(s);
    AncestorsInside(V, s);
    CoordinateIsLast(s, la[s], s.creator);
  }
}
