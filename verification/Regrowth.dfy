/** Ancestry as it can be rebuilt from the events that are stored (initEventCoordinates and
    updateAncestorFirstDescendant in src/hashgraph/hashgraph.go). */
module Regrowth {
  import opened Events
  import opened Coordinates

  /** What is reached from x by parent links through events of E. */
  ghost function StoredBelow(E: set<Event>, x: Event): set<Event> {
    {x} +
    (if x.selfParent.Some? && x.selfParent.value in E then StoredBelow(E, x.selfParent.value) else {}) +
    (if x.otherParent.Some? && x.otherParent.value in E then StoredBelow(E, x.otherParent.value) else {})
  }

  lemma {:induction false} StoredInside(E: set<Event>, x: Event)
    ensures StoredBelow(E, x) <= Ancestors(x) && StoredBelow(E, x) <= E + {x}
  {
    if x.selfParent.Some? && x.selfParent.value in E { StoredInside(E, x.selfParent.value); }
    if x.otherParent.Some? && x.otherParent.value in E { StoredInside(E, x.otherParent.value); }
  }

  lemma {:induction false} StoredTransitive(E: set<Event>, x: Event, y: Event)
    requires y in StoredBelow(E, x)
    ensures StoredBelow(E, y) <= StoredBelow(E, x)
  {
    if y != x {
      if x.selfParent.Some? && x.selfParent.value in E && y in StoredBelow(E, x.selfParent.value) {
        StoredTransitive(E, x.selfParent.value, y);
      } else {
        StoredTransitive(E, x.otherParent.value, y);
      }
    }
  }

  /** A path of parent links from x to y, through events of E. */
  ghost predicate StoredPath(E: set<Event>, x: Event, y: Event, path: seq<Event>) {
    && IsPath(x, path) && path[|path| - 1] == y
    && forall i :: 1 <= i < |path| ==> path[i] in E
  }

  lemma StoredPaths(E: set<Event>, x: Event, y: Event)
    ensures y in StoredBelow(E, x) <==> exists path :: StoredPath(E, x, y, path)
  {
    if y in StoredBelow(E, x) {
      var path := PathTo(E, x, y);
    } else if path :| StoredPath(E, x, y, path) {
      PathReaches(E, x, y, path);
    }
  }

  lemma {:induction false} PathTo(E: set<Event>, x: Event, y: Event) returns (path: seq<Event>)
    requires y in StoredBelow(E, x)
    ensures StoredPath(E, x, y, path)
    decreases x
  {
    path := [x];
    if y != x {
      var s := x.selfParent.Some? && x.selfParent.value in E && y in StoredBelow(E, x.selfParent.value);
      var rest := PathTo(E, if s then x.selfParent.value else x.otherParent.value, y);
      path := [x] + rest;
    }
  }

  lemma {:induction false} PathReaches(E: set<Event>, x: Event, y: Event, path: seq<Event>)
    requires StoredPath(E, x, y, path)
    ensures y in StoredBelow(E, x)
    decreases |path|
  {
    if |path| > 1 {
      assert path[1] in Parents(path[0]) && path[1] in E;
      PathReaches(E, path[1], y, path[1..]);
    }
  }

  /** x comes after its children in E: none of them is stored yet. */
  ghost predicate Childless(E: set<Event>, x: Event) {
    x !in E && forall y :: y in E ==> x !in Parents(y)
  }

  lemma {:induction false} StoredSame(E: set<Event>, x: Event, y: Event)
    requires Childless(E, x) && (y in E || y == x)
    ensures StoredBelow(E + {x}, y) == StoredBelow(E, y)
    decreases y
  {
    if y.selfParent.Some? && y.selfParent.value in E { StoredSame(E, x, y.selfParent.value); }
    if y.otherParent.Some? && y.otherParent.value in E { StoredSame(E, x, y.otherParent.value); }
    NotOwnParent(y);
  }

  // ----- Last ancestors

  /** la covers what is stored below x, and holds nothing else. */
  ghost predicate LastRebuilt(E: set<Event>, x: Event, la: CoordinatesMap) {
    && (forall y :: y in StoredBelow(E, x) ==> Covers(la, y))
    && (forall p :: p in la ==> la[p] in StoredBelow(E, x) && la[p].creator == p)
  }

  ghost predicate ParentRebuilt(E: set<Event>, parent: Option<Event>, la: CoordinatesMap) {
    if parent.Some? && parent.value in E then LastRebuilt(E, parent.value, la) else la == map[]
  }

  /** Merging the stored parents' gives those of x. */
  lemma MergedRebuilt(V: set<Event>, E: set<Event>, x: Event, a: CoordinatesMap, b: CoordinatesMap)
    requires View(V) && x in V && ParentRebuilt(E, x.selfParent, a) && ParentRebuilt(E, x.otherParent, b)
    ensures LastRebuilt(E, x, Merged(a, b)[x.creator := x])
  {
    hide View;
    var m := Merged(a, b);
    var la := m[x.creator := x];
    forall y | y in StoredBelow(E, x)
      ensures Covers(la, y)
    {
      StoredInside(E, x);
      if y.creator == x.creator {
        if y != x { OwnOlder(V, x, y); }
      } else if x.selfParent.Some? && x.selfParent.value in E && y in StoredBelow(E, x.selfParent.value) {
        assert Covers(a, y);
      } else {
        assert Covers(b, y);
      }
    }
    forall p | p in la
      ensures la[p] in StoredBelow(E, x) && la[p].creator == p
    {
      if p != x.creator { assert la[p] == if p in a && m[p] == a[p] then a[p] else b[p]; }
    }
  }

  lemma OwnOlder(V: set<Event>, x: Event, y: Event)
    requires View(V) && x in V && y in Ancestors(x) && y != x && y.creator == x.creator
    ensures y.index < x.index
  {
    AncestorsInside(V, x);
    ChainIndex(V, x, y);
  }

  ghost predicate AllRebuilt(E: set<Event>, las: map<Event, CoordinatesMap>) {
    E <= las.Keys && forall x :: x in E ==> LastRebuilt(E, x, las[x])
  }

  lemma AllRebuiltMore(E: set<Event>, las: map<Event, CoordinatesMap>, x: Event, la: CoordinatesMap)
    requires AllRebuilt(E, las) && Childless(E, x) && LastRebuilt(E, x, la)
    ensures AllRebuilt(E + {x}, las[x := la])
  {
    hide StoredBelow;
    forall y | y in E + {x}
      ensures LastRebuilt(E + {x}, y, las[x := la][y])
    {
      StoredSame(E, x, y);
    }
  }

  /** Each creator's stored events follow each other. */
  ghost predicate Gapless(E: set<Event>) {
    forall x, y :: x in E && y in E && x.creator == y.creator && y.index < x.index ==>
      x.selfParent.Some? && x.selfParent.value in E
  }

  /** From an event down its creator's chain. */
  lemma {:induction false} DownChain(V: set<Event>, E: set<Event>, x: Event, y: Event)
    requires View(V) && E <= V && Gapless(E) && x in E && y in E && x.creator == y.creator && y.index <= x.index
    ensures y in StoredBelow(E, x)
    decreases x.index - y.index
  {
    if y.index < x.index {
      assert WellIndexed(x);
      DownChain(V, E, x.selfParent.value, y);
    } else {
      assert SameSlot(x, y);
    }
  }

  /** Then the ancestor test between stored events is exactly reachability through stored events. */
  lemma RebuiltTest(V: set<Event>, E: set<Event>, las: map<Event, CoordinatesMap>, x: Event, y: Event)
    requires View(V) && E <= V && Gapless(E) && AllRebuilt(E, las) && x in E && y in E
    ensures Covers(las[x], y) <==> y in StoredBelow(E, x)
  {
    hide View, Gapless, StoredBelow;
    assert LastRebuilt(E, x, las[x]);
    if Covers(las[x], y) {
      var l := las[x][y.creator];
      StoredInside(E, x);
      DownChain(V, E, l, y);
      StoredTransitive(E, x, l);
    }
  }

  // ----- First descendants

  /** The events visited from a down its creator's chain: as far as they are stored, and no further than a witness. */
  ghost function Visits(E: set<Event>, ws: map<Event, bool>, a: Option<Event>): set<Event> {
    match a
    case None => {}
    case Some(e) =>
      if e !in E then {}
      else {e} + if e in ws && ws[e] then {} else Visits(E, ws, e.selfParent)
  }

  lemma {:induction false} VisitsInside(E: set<Event>, ws: map<Event, bool>, a: Option<Event>, b: Event)
    requires b in Visits(E, ws, a)
    ensures b in E && a.Some? && a.value in E && Visits(E, ws, Some(b)) <= Visits(E, ws, a)
    decreases a
  {
    if b != a.value { VisitsInside(E, ws, a.value.selfParent, b); }
  }

  lemma {:induction false} VisitsSame(E: set<Event>, ws: map<Event, bool>, x: Event, v: bool, a: Option<Event>)
    requires Childless(E, x) && (a.Some? ==> a.value != x)
    ensures Visits(E + {x}, ws[x := v], a) == Visits(E, ws, a)
    decreases a
  {
    if a.Some? && a.value in E && !(a.value in ws && ws[a.value]) {
      assert a.value.selfParent.Some? ==> a.value.selfParent.value in Parents(a.value);
      VisitsSame(E, ws, x, v, a.value.selfParent);
    }
  }

  /** A descendant by e's creator, not after e, is recorded for a. */
  ghost predicate Marked(fd: map<Event, CoordinatesMap>, a: Event, e: Event) {
    a in fd && e.creator in fd[a] && fd[a][e.creator].index <= e.index
  }

  /** What is recorded for a is recorded further down. */
  ghost predicate Downward(E: set<Event>, ws: map<Event, bool>, fd: map<Event, CoordinatesMap>) {
    && E <= fd.Keys
    && forall a, b, q :: a in E && b in Visits(E, ws, Some(a)) && q in fd[a] ==>
         b in fd && q in fd[b] && fd[b][q].index <= fd[a][q].index
  }

  /** Entries are only added. */
  ghost predicate Added(fd: map<Event, CoordinatesMap>, fd': map<Event, CoordinatesMap>) {
    fd.Keys <= fd'.Keys && forall a, q :: a in fd && q in fd[a] ==> q in fd'[a] && fd'[a][q] == fd[a][q]
  }

  /** Everything on the way down from e's last ancestors is marked. */
  ghost predicate AllMarked(E: set<Event>, ws: map<Event, bool>, las: map<Event, CoordinatesMap>,
                            fd: map<Event, CoordinatesMap>) {
    && E <= las.Keys
    && forall e, p, a :: e in E && p in las[e] && a in Visits(E, ws, Some(las[e][p])) ==> Marked(fd, a, e)
  }

  /** Nothing recorded for x's creator is newer than x. */
  ghost predicate NoneNewer(E: set<Event>, fd: map<Event, CoordinatesMap>, x: Event) {
    E <= fd.Keys && forall a :: a in E && x.creator in fd[a] ==> fd[a][x.creator].index <= x.index
  }

  /** x is reached from e, and no stored witness of its creator in between. */
  ghost predicate StoredReach(E: set<Event>, ws: map<Event, bool>, e: Event, w: Event) {
    && w in StoredBelow(E, e)
    && forall b :: b in StoredBelow(E, e) && b.creator == w.creator && b.index > w.index ==> !(b in ws && ws[b])
  }

  /** Then w is on the way down, and so a descendant by e's creator is recorded for it. */
  lemma ReachIsMarked(V: set<Event>, E: set<Event>, ws: map<Event, bool>, las: map<Event, CoordinatesMap>,
                      fd: map<Event, CoordinatesMap>, e: Event, w: Event)
    requires View(V) && E <= V && Gapless(E) && AllRebuilt(E, las) && AllMarked(E, ws, las, fd)
    requires e in E && w in E && StoredReach(E, ws, e, w)
    ensures Marked(fd, w, e)
  {
    hide View, Gapless, StoredBelow, Marked, Visits;
    assert LastRebuilt(E, e, las[e]);
    var l := las[e][w.creator];
    StoredInside(E, e);
    ReachIsVisited(V, E, ws, e, l, w);
  }

  lemma {:induction false} ReachIsVisited(V: set<Event>, E: set<Event>, ws: map<Event, bool>, e: Event, l: Event,
                                          w: Event)
    requires View(V) && E <= V && Gapless(E) && StoredReach(E, ws, e, w)
    requires l in E && w in E && l in StoredBelow(E, e) && l.creator == w.creator && w.index <= l.index
    ensures w in Visits(E, ws, Some(l))
    decreases l.index - w.index
  {
    if w.index < l.index {
      assert WellIndexed(l);
      StoredTransitive(E, e, l);
      assert l.selfParent.value in StoredBelow(E, l.selfParent.value);
      ReachIsVisited(V, E, ws, e, l.selfParent.value, w);
    } else {
      assert SameSlot(l, w);
    }
  }

  // ----- One walk down from a last ancestor

  lemma {:induction false} VisitsBelow(E: set<Event>, ws: map<Event, bool>, a: Option<Event>, b: Event)
    requires b in Visits(E, ws, a)
    ensures a.Some? && b in Ancestors(a.value)
    decreases a
  {
    if b != a.value { VisitsBelow(E, ws, a.value.selfParent, b); }
  }

  /** Only x was added, for its own creator, and only on the way down from `last`. */
  ghost predicate AddedOnly(E: set<Event>, ws: map<Event, bool>, fd: map<Event, CoordinatesMap>,
                            fd': map<Event, CoordinatesMap>, x: Event, last: Event) {
    && fd'.Keys == fd.Keys && Added(fd, fd')
    && forall a, q :: a in fd && q in fd'[a] && q !in fd[a] ==>
         q == x.creator && fd'[a][q] == x && a in Visits(E, ws, Some(last))
  }

  /** So far: what is above `ah` is marked, and what is below is untouched. */
  ghost predicate Descending(E: set<Event>, ws: map<Event, bool>, fd: map<Event, CoordinatesMap>,
                          fd': map<Event, CoordinatesMap>, x: Event, last: Event, ah: Option<Event>) {
    && AddedOnly(E, ws, fd, fd', x, last)
    && (forall a :: a in Visits(E, ws, Some(last)) ==> a in Visits(E, ws, ah) || Marked(fd', a, x))
    && (forall a :: a in Visits(E, ws, ah) ==> a in Visits(E, ws, Some(last)) && a in fd && fd'[a] == fd[a])
  }

  lemma WalkStarts(E: set<Event>, ws: map<Event, bool>, fd: map<Event, CoordinatesMap>, x: Event, last: Event)
    requires E <= fd.Keys
    ensures Descending(E, ws, fd, fd, x, last, Some(last))
  {
    hide Visits;
    forall a | a in Visits(E, ws, Some(last))
      ensures a in fd
    {
      VisitsInside(E, ws, Some(last), a);
    }
  }

  lemma WalkSteps(E: set<Event>, ws: map<Event, bool>, fd: map<Event, CoordinatesMap>, fd': map<Event, CoordinatesMap>,
                  x: Event, last: Event, a: Event)
    requires Descending(E, ws, fd, fd', x, last, Some(a)) && a in E && x.creator !in fd'[a] && !(a in ws && ws[a])
    ensures Descending(E, ws, fd, fd'[a := fd'[a][x.creator := x]], x, last, a.selfParent)
  {
    assert a in Visits(E, ws, Some(a));
    forall b | b in Visits(E, ws, a.selfParent)
      ensures b != a && b in Visits(E, ws, Some(a))
    {
      VisitsBelow(E, ws, a.selfParent, b);
      assert a.selfParent.value in Parents(a);
      ParentBelow(a, a.selfParent.value);
    }
  }

  /** The walk is over: everything on the way down is marked. */
  ghost predicate Descended(E: set<Event>, ws: map<Event, bool>, fd: map<Event, CoordinatesMap>,
                         fd': map<Event, CoordinatesMap>, x: Event, last: Event) {
    && AddedOnly(E, ws, fd, fd', x, last)
    && forall a :: a in Visits(E, ws, Some(last)) ==> Marked(fd', a, x)
  }

  lemma WalkEnds(E: set<Event>, ws: map<Event, bool>, fd: map<Event, CoordinatesMap>, fd': map<Event, CoordinatesMap>,
                 x: Event, last: Event, ah: Option<Event>)
    requires Descending(E, ws, fd, fd', x, last, ah) && (ah.None? || ah.value !in E)
    ensures Descended(E, ws, fd, fd', x, last)
  {
  }

  lemma WalkEndsAtWitness(E: set<Event>, ws: map<Event, bool>, fd: map<Event, CoordinatesMap>,
                          fd': map<Event, CoordinatesMap>, x: Event, last: Event, a: Event)
    requires Descending(E, ws, fd, fd', x, last, Some(a)) && a in E && x.creator !in fd'[a] && a in ws && ws[a]
    ensures Descended(E, ws, fd, fd'[a := fd'[a][x.creator := x]], x, last)
  {
    assert a in Visits(E, ws, Some(a));
  }

  /** An earlier event of the same creator has gone the rest of the way. */
  lemma WalkEndsRecorded(E: set<Event>, ws: map<Event, bool>, fd: map<Event, CoordinatesMap>,
                         fd': map<Event, CoordinatesMap>, x: Event, last: Event, a: Event)
    requires Descending(E, ws, fd, fd', x, last, Some(a)) && a in E && x.creator in fd'[a]
    requires Downward(E, ws, fd) && NoneNewer(E, fd, x)
    ensures Descended(E, ws, fd, fd', x, last)
  {
    assert a in Visits(E, ws, Some(a));
    forall b | b in Visits(E, ws, Some(last))
      ensures Marked(fd', b, x)
    {
      if b in Visits(E, ws, Some(a)) {
        assert fd'[b] == fd[b] && fd'[a] == fd[a];
      }
    }
  }

  /** A walk leaves everything in order for the next one. */
  lemma WalkedDown(E: set<Event>, ws: map<Event, bool>, fd: map<Event, CoordinatesMap>, fd': map<Event, CoordinatesMap>,
                   x: Event, last: Event)
    requires Descended(E, ws, fd, fd', x, last) && Downward(E, ws, fd) && NoneNewer(E, fd, x)
    ensures Downward(E, ws, fd') && NoneNewer(E, fd', x) && Added(fd, fd')
  {
    hide Visits, Descended, NoneNewer;
    WalkedKeys(E, ws, fd, fd', x, last);
    forall a, b, q | a in E && b in Visits(E, ws, Some(a)) && q in fd'[a]
      ensures b in fd' && q in fd'[b] && fd'[b][q].index <= fd'[a][q].index
    {
      WalkedAt(E, ws, fd, fd', x, last, a, b, q);
    }
    WalkedNewer(E, ws, fd, fd', x, last);
  }

  lemma WalkedKeys(E: set<Event>, ws: map<Event, bool>, fd: map<Event, CoordinatesMap>, fd': map<Event, CoordinatesMap>,
                   x: Event, last: Event)
    requires Descended(E, ws, fd, fd', x, last)
    ensures fd'.Keys == fd.Keys && Added(fd, fd')
  {
    hide Visits, Marked;
  }

  lemma WalkedAt(E: set<Event>, ws: map<Event, bool>, fd: map<Event, CoordinatesMap>, fd': map<Event, CoordinatesMap>,
                 x: Event, last: Event, a: Event, b: Event, q: Peer)
    requires Descended(E, ws, fd, fd', x, last) && Downward(E, ws, fd) && a in E && b in Visits(E, ws, Some(a))
    requires a in fd' && q in fd'[a]
    ensures b in fd' && q in fd'[b] && fd'[b][q].index <= fd'[a][q].index
  {
    hide Visits;
    if q in fd[a] {
      assert b in fd && q in fd[b] && fd[b][q].index <= fd[a][q].index;
    } else {
      VisitsInside(E, ws, Some(last), a);
      assert Marked(fd', b, x);
    }
  }

  lemma WalkedNewer(E: set<Event>, ws: map<Event, bool>, fd: map<Event, CoordinatesMap>,
                    fd': map<Event, CoordinatesMap>, x: Event, last: Event)
    requires Descended(E, ws, fd, fd', x, last) && NoneNewer(E, fd, x)
    ensures NoneNewer(E, fd', x)
  {
    hide Visits, Marked;
    forall a | a in E && x.creator in fd'[a]
      ensures fd'[a][x.creator].index <= x.index
    {
      if x.creator in fd[a] { assert fd'[a][x.creator] == fd[a][x.creator]; }
    }
  }

  // ----- All walks of an event

  ghost predicate OnlyNew(fd: map<Event, CoordinatesMap>, fd': map<Event, CoordinatesMap>, x: Event) {
    && fd'.Keys == fd.Keys
    && forall a, q :: a in fd && q in fd'[a] && q !in fd[a] ==> q == x.creator && fd'[a][q] == x
  }

  /** All walks but those of `todo` are done. */
  ghost predicate Updating(E: set<Event>, ws: map<Event, bool>, fd: map<Event, CoordinatesMap>,
                           fd': map<Event, CoordinatesMap>, x: Event, la: CoordinatesMap, todo: set<Peer>) {
    && Downward(E, ws, fd') && NoneNewer(E, fd', x) && Added(fd, fd') && OnlyNew(fd, fd', x)
    && forall p, a :: p in la && p !in todo && a in Visits(E, ws, Some(la[p])) ==> Marked(fd', a, x)
  }

  lemma UpdateStarts(E: set<Event>, ws: map<Event, bool>, fd: map<Event, CoordinatesMap>, x: Event, la: CoordinatesMap)
    requires Downward(E, ws, fd) && NoneNewer(E, fd, x)
    ensures Updating(E, ws, fd, fd, x, la, la.Keys)
  {
    hide Downward, NoneNewer;
  }

  lemma UpdateSteps(E: set<Event>, ws: map<Event, bool>, fd0: map<Event, CoordinatesMap>,
                    fd: map<Event, CoordinatesMap>, fd': map<Event, CoordinatesMap>, x: Event, la: CoordinatesMap,
                    todo: set<Peer>, p: Peer)
    requires Updating(E, ws, fd0, fd, x, la, todo) && p in la && Descended(E, ws, fd, fd', x, la[p])
    ensures Updating(E, ws, fd0, fd', x, la, todo - {p})
  {
    hide Visits, Downward, NoneNewer;
    WalkedDown(E, ws, fd, fd', x, la[p]);
    AddedTwice(fd0, fd, fd');
    forall a, q | a in fd0 && q in fd'[a] && q !in fd0[a]
      ensures q == x.creator && fd'[a][q] == x
    {
      if q in fd[a] { assert fd'[a][q] == fd[a][q]; }
    }
    forall r, a | r in la && r !in todo - {p} && a in Visits(E, ws, Some(la[r]))
      ensures Marked(fd', a, x)
    {
      if r != p { assert Marked(fd, a, x); }
    }
  }

  lemma AddedTwice(fd: map<Event, CoordinatesMap>, fd': map<Event, CoordinatesMap>, fd'': map<Event, CoordinatesMap>)
    requires Added(fd, fd') && Added(fd', fd'')
    ensures Added(fd, fd'')
  {
  }

  // ----- A new event

  /** The ancestry of the stored events is rebuilt as far as they reach. */
  ghost predicate Regrown(E: set<Event>, ws: map<Event, bool>, las: map<Event, CoordinatesMap>,
                          fd: map<Event, CoordinatesMap>) {
    && AllRebuilt(E, las) && Downward(E, ws, fd) && AllMarked(E, ws, las, fd)
    && (forall a :: a in E ==> a.creator in fd[a] && fd[a][a.creator] == a)
    && (forall a, q :: a in E && q in fd[a] ==> fd[a][q] in E && fd[a][q].creator == q)
  }

  ghost predicate InTurn(E: set<Event>, x: Event) {
    Childless(E, x) && forall y :: y in E && y.creator == x.creator ==> y.index < x.index
  }

  lemma {:induction false} VisitsOwn(V: set<Event>, E: set<Event>, ws: map<Event, bool>, a: Option<Event>, b: Event)
    requires View(V) && E <= V && b in Visits(E, ws, a)
    ensures a.Some? && b.creator == a.value.creator
    decreases a
  {
    if b != a.value {
      assert WellIndexed(a.value);
      VisitsOwn(V, E, ws, a.value.selfParent, b);
    }
  }

  /** Before the walks of a new event. */
  lemma NewDownward(V: set<Event>, E: set<Event>, ws: map<Event, bool>, las: map<Event, CoordinatesMap>,
                    fd: map<Event, CoordinatesMap>, x: Event, v: bool)
    requires View(V) && E <= V && x in V && Regrown(E, ws, las, fd) && InTurn(E, x)
    ensures var fd' := fd[x := map[x.creator := x]];
            Downward(E + {x}, ws[x := v], fd') && NoneNewer(E + {x}, fd', x)
  {
    hide View, Visits, AllRebuilt, AllMarked;
    var fd': map<Event, CoordinatesMap> := fd[x := map[x.creator := x]];
    var E', ws' := E + {x}, ws[x := v];
    forall a, b, q: Peer | a in E' && b in Visits(E', ws', Some(a)) && q in fd'[a]
      ensures b in fd' && q in fd'[b] && fd'[b][q].index <= fd'[a][q].index
    {
      VisitsInside(E', ws', Some(a), b);
      if a == x {
        NewVisit(V, E, ws', x, b);
      } else {
        VisitsSame(E, ws, x, v, Some(a));
        VisitsInside(E, ws, Some(a), b);
      }
    }
  }

  lemma NewVisit(V: set<Event>, E: set<Event>, ws: map<Event, bool>, x: Event, b: Event)
    requires View(V) && E <= V && x in V && b in Visits(E + {x}, ws, Some(x))
    ensures b.creator == x.creator
  {
    VisitsOwn(V, E + {x}, ws, Some(x), b);
  }

  /** After them. */
  lemma Regrows(V: set<Event>, E: set<Event>, ws: map<Event, bool>, las: map<Event, CoordinatesMap>,
                fd: map<Event, CoordinatesMap>, x: Event, v: bool, la: CoordinatesMap, fd': map<Event, CoordinatesMap>)
    requires View(V) && E <= V && x in V && Regrown(E, ws, las, fd) && InTurn(E, x) && LastRebuilt(E, x, la)
    requires Updating(E + {x}, ws[x := v], fd[x := map[x.creator := x]], fd', x, la, {})
    ensures Regrown(E + {x}, ws[x := v], las[x := la], fd')
  {
    hide View, Visits, LastRebuilt, StoredBelow, Downward, AllRebuilt, Marked, Childless, NoneNewer;
    var E', ws', las' := E + {x}, ws[x := v], las[x := la];
    assert AllRebuilt(E', las') by { AllRebuiltMore(E, las, x, la); }
    assert E' <= las'.Keys by { RebuiltKeys(E', las'); }
    forall e, p, a | e in E' && p in las'[e] && a in Visits(E', ws', Some(las'[e][p]))
      ensures Marked(fd', a, e)
    {
      if e != x { StillMarked(E, ws, las, fd, x, v, fd', e, p, a); }
    }
    DownwardKeys(E', ws', fd');
    DownwardKeys(E, ws, fd);
    EntriesKept(E, fd, x, fd');
  }

  lemma EntriesKept(E: set<Event>, fd: map<Event, CoordinatesMap>, x: Event, fd': map<Event, CoordinatesMap>)
    requires E <= fd.Keys && E + {x} <= fd'.Keys && Added(fd[x := map[x.creator := x]], fd')
    requires forall a :: a in E ==> a.creator in fd[a] && fd[a][a.creator] == a
    requires forall a, q :: a in E && q in fd[a] ==> fd[a][q] in E && fd[a][q].creator == q
    requires forall a, q :: a in E + {x} && q in fd'[a] && q !in fd[x := map[x.creator := x]][a] ==>
               q == x.creator && fd'[a][q] == x
    ensures forall a :: a in E + {x} ==> a.creator in fd'[a] && fd'[a][a.creator] == a
    ensures forall a, q :: a in E + {x} && q in fd'[a] ==> fd'[a][q] in E + {x} && fd'[a][q].creator == q
  {
    var fd1: map<Event, CoordinatesMap> := fd[x := map[x.creator := x]];
    forall a, q | a in E + {x} && q in fd'[a]
      ensures fd'[a][q] in E + {x} && fd'[a][q].creator == q
    {
      if q in fd1[a] { assert fd'[a][q] == fd1[a][q]; }
    }
  }

  lemma RebuiltKeys(E: set<Event>, las: map<Event, CoordinatesMap>)
    requires AllRebuilt(E, las)
    ensures E <= las.Keys
  {
  }

  lemma DownwardKeys(E: set<Event>, ws: map<Event, bool>, fd: map<Event, CoordinatesMap>)
    requires Downward(E, ws, fd)
    ensures E <= fd.Keys
  {
  }

  lemma StillMarked(E: set<Event>, ws: map<Event, bool>, las: map<Event, CoordinatesMap>,
                    fd: map<Event, CoordinatesMap>, x: Event, v: bool, fd': map<Event, CoordinatesMap>, e: Event,
                    p: Peer, a: Event)
    requires AllRebuilt(E, las) && AllMarked(E, ws, las, fd) && Childless(E, x)
    requires Added(fd[x := map[x.creator := x]], fd') && e in E && p in las[e]
    requires a in Visits(E + {x}, ws[x := v], Some(las[e][p]))
    ensures Marked(fd', a, e)
  {
    hide Visits, AllRebuilt;
    LastInside(E, las, e, p);
    VisitsSame(E, ws, x, v, Some(las[e][p]));
    VisitsInside(E, ws, Some(las[e][p]), a);
    assert Marked(fd, a, e) && a != x;
  }

  lemma LastInside(E: set<Event>, las: map<Event, CoordinatesMap>, e: Event, p: Peer)
    requires AllRebuilt(E, las) && e in E && p in las[e]
    ensures las[e][p] in E
  {
    hide StoredBelow;
    assert LastRebuilt(E, e, las[e]);
    StoredInside(E, e);
  }

  /** Of the peers that have a stored event through which x reaches w, none is missed by the strongly-see loop. */
  lemma RebuiltCounts(V: set<Event>, E: set<Event>, ws: map<Event, bool>, las: map<Event, CoordinatesMap>,
                      fd: map<Event, CoordinatesMap>, x: Event, e: Event, w: Event, peers: set<Peer>)
    requires View(V) && E <= V && Gapless(E) && AllRebuilt(E, las) && AllMarked(E, ws, las, fd)
    requires x in E && e in E && w in E && w in fd && e in StoredBelow(E, x) && StoredReach(E, ws, e, w)
    requires e.creator in peers
    ensures e.creator in Counted(las[x], fd[w], peers)
  {
    hide View, Gapless, StoredBelow, AllMarked, StoredReach;
    ReachIsMarked(V, E, ws, las, fd, e, w);
    assert LastRebuilt(E, x, las[x]);
  }
}
