/** What the checks on insertion make of an event's index (InsertEvent in src/hashgraph/hashgraph.go, Set in
    src/common/rolling_index.go). */
module Indexing {
  import opened Events
  import opened Coordinates
  import opened Hashgraphs
  import opened RollingIndexes

  /** The store refuses skipped indexes and indexes below its window. Of those it takes for an event with a
      self-parent, only the next one keeps the ancestor test exact. */
  lemma OnlyNextIndex(V: set<Event>, e: Event, s: Event, la: map<Event, CoordinatesMap>, w: Window<Event>,
                      log: Log<Event>)
    requires Extends(V, e, s, la) && e.index >= 0 && s.index >= 0 && Shows(w, log) && log.Last() == s.index
    ensures w.Denied(e.index).None? && TestsExactly(V + {e}, la) <==> e.index == s.index + 1
  {
    hide Extends, TestsExactly;
    ExtendsKeys(V, e, s, la);
    IndexRule(V, e, s, la);
    ShowsLast(w, log);
  }

  lemma ExtendsKeys(V: set<Event>, e: Event, s: Event, la: map<Event, CoordinatesMap>)
    requires Extends(V, e, s, la)
    ensures V + {e} <= la.Keys
  {
  }

  /** The first event of a creator, with the coordinates computed from its other-parent, whatever its index. */
  ghost predicate Opens(V: set<Event>, e: Event, la: map<Event, CoordinatesMap>) {
    && View(V) && Parents(e) <= V && e.selfParent.None? && (forall x :: x in V ==> x.creator != e.creator)
    && la.Keys == V + {e} && (forall x :: x in V ==> LastAncestorsOf(x, la[x]))
    && la[e] == (if e.otherParent.Some? then la[e.otherParent.value] else map[])[e.creator := e]
  }

  /** A first event may have any index: the store takes it, and the ancestor test stays exact. */
  lemma FirstIndexIsFree(V: set<Event>, e: Event, la: map<Event, CoordinatesMap>, w: Window<Event>, log: Log<Event>)
    requires Opens(V, e, la) && Shows(w, log) && log.entries == []
    ensures w.Denied(e.index).None? && TestsExactly(V + {e}, la)
  {
    hide View, LastAncestorsOf;
    ShowsLast(w, log);
    forall x, y | x in V + {e} && y in V + {e}
      ensures Covers(la[x], y) <==> y in Ancestors(x)
    {
      FirstTested(V, e, la, x, y);
    }
  }

  lemma FirstTested(V: set<Event>, e: Event, la: map<Event, CoordinatesMap>, x: Event, y: Event)
    requires Opens(V, e, la) && x in V + {e} && y in V + {e}
    ensures Covers(la[x], y) <==> y in Ancestors(x)
  {
    if x != e {
      AncestorsInside(V, x);
      if y != e {
        AncestorTest(V, x, y, la[x]);
      } else if e.creator in la[x] {
        CoordinateIsLast(x, la[x], e.creator);
      }
    } else if e.otherParent.Some? {
      var o := e.otherParent.value;
      assert o in Parents(e);
      if y != e {
        AncestorTest(V, o, y, la[o]);
      }
    }
  }

  /** An event that repeats its self-parent's index passes all the checks and takes its place in the window; and it
      is then taken for an ancestor of it. */
  lemma RepeatedIndex(size: nat) returns (V: set<Event>, e: Event, s: Event, la: map<Event, CoordinatesMap>)
    ensures Extends(V, e, s, la) && !TestsExactly(V + {e}, la) && e.index == s.index == 0
    ensures forall verify: Event -> bool :: verify(e) ==> CheckEvent(verify, map[s.creator := [s]], V, e) == Inserted
    ensures Window(size, 0, [s]).Denied(0).None? && Window(size, 0, [s]).Put(e, 0).items == [e]
  {
    s := Event("0X01", 0, None, None, Payload([], [], [], 0, [], 0));
    e := Event("0X01", 0, Some(s), None, Payload([], [], [], 0, [], 0));
    V := {s};
    la := map[s := map["0X01" := s], e := map["0X01" := e]];
    assert Ancestors(s) == {s};
    assert Merged(la[s], map[])[e.creator := e] == la[e];
    IndexRule(V, e, s, la);
  }
}
