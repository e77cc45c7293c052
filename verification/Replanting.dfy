/** Frames can be replanted: a node that starts from a frame inserts all its events
    (GetFrame, Reset and InsertFrameEvent in src/hashgraph/hashgraph.go, src/hashgraph/frame.go). */
module Replanting {
  import opened Events
  import opened Rounds
  import opened Voting
  import opened Received
  import opened Ledger
  import opened Coordinates
  import opened Frames

  // ----- Sequences of events that follow each creator's chain

  /** The events of s created by p, in order. */
  ghost function By(s: seq<Event>, p: Peer): seq<Event> {
    if s == [] then []
    else By(s[..|s| - 1], p) + if s[|s| - 1].creator == p then [s[|s| - 1]] else []
  }

  ghost predicate Ascending(s: seq<Event>) {
    forall i, j :: 0 <= i < j < |s| && s[i].creator == s[j].creator ==> s[i].index < s[j].index
  }

  /** No event of p is missing between two events of s. */
  ghost predicate Convex(pe: seq<Event>, s: seq<Event>) {
    forall a, b, c :: 0 <= a < b < c < |pe| && pe[a] in s && pe[c] in s ==> pe[b] in s
  }

  lemma {:induction false} ByMember(s: seq<Event>, p: Peer)
    ensures forall x :: x in By(s, p) <==> x in s && x.creator == p
  {
    if s != [] {
      ByMember(s[..|s| - 1], p);
      assert s == s[..|s| - 1] + [s[|s| - 1]];
    }
  }

  lemma {:induction false} ByAscending(s: seq<Event>, p: Peer)
    requires Ascending(s)
    ensures Ascending(By(s, p))
  {
    if s != [] {
      var t, x := s[..|s| - 1], s[|s| - 1];
      ByAscending(t, p);
      ByMember(t, p);
      forall i | 0 <= i < |By(t, p)| && x.creator == p
        ensures By(t, p)[i].index < x.index
      {
        assert By(t, p)[i] in t;
      }
    }
  }

  /** An ascending sequence without gaps follows its creator's chain step by step. */
  lemma StepByStep(V: set<Event>, pe: map<Peer, seq<Event>>, s: seq<Event>, p: Peer, k: nat)
    requires Indexed(V, pe) && p in pe && Ascending(s) && (forall x :: x in s ==> x in V) && Convex(pe[p], s)
    requires k + 1 < |By(s, p)|
    ensures By(s, p)[k + 1].index == By(s, p)[k].index + 1
  {
    var t := By(s, p);
    ByMember(s, p);
    ByAscending(s, p);
    assert t[k] in t && t[k + 1] in t && t[k].index < t[k + 1].index;
    var z := pe[p][t[k].index + 1];
    assert z in s && z in t;
    var m :| 0 <= m < |t| && t[m] == z;
    assert m > k;
  }

  /** A part of a creator's chain. */
  ghost predicate Slice(pe: seq<Event>, s: seq<Event>) {
    s == [] || (0 <= s[0].index && s[0].index + |s| <= |pe| && s == pe[s[0].index..s[0].index + |s|])
  }

  lemma {:induction false} FollowsChain(V: set<Event>, pe: map<Peer, seq<Event>>, s: seq<Event>, p: Peer, k: nat)
    requires Indexed(V, pe) && p in pe && Ascending(s) && (forall x :: x in s ==> x in V) && Convex(pe[p], s)
    requires k < |By(s, p)|
    ensures 0 <= By(s, p)[0].index && By(s, p)[k].index == By(s, p)[0].index + k < |pe[p]|
    ensures By(s, p)[k] == pe[p][By(s, p)[0].index + k]
  {
    ByMember(s, p);
    assert By(s, p)[k] in By(s, p);
    if k > 0 {
      FollowsChain(V, pe, s, p, k - 1);
      StepByStep(V, pe, s, p, k - 1);
    }
  }

  lemma BySlice(V: set<Event>, pe: map<Peer, seq<Event>>, s: seq<Event>, p: Peer)
    requires Indexed(V, pe) && p in pe && Ascending(s) && (forall x :: x in s ==> x in V) && Convex(pe[p], s)
    ensures Slice(pe[p], By(s, p))
  {
    var t := By(s, p);
    hide Indexed, By, Ascending, Convex;
    if t != [] {
      FollowsChain(V, pe, s, p, |t| - 1);
      forall k | 0 <= k < |t|
        ensures t[k] == pe[p][t[0].index..t[0].index + |t|][k]
      {
        FollowsChain(V, pe, s, p, k);
      }
    }
  }

  /** In a creator's chain each event is the self-parent of the next. */
  lemma SelfParentLinks(V: set<Event>, pe: map<Peer, seq<Event>>, p: Peer, k: nat)
    requires View(V) && Indexed(V, pe) && p in pe && 0 < k < |pe[p]|
    ensures pe[p][k].selfParent == Some(pe[p][k - 1])
  {
    var x := pe[p][k];
    assert x in V && WellIndexed(x) && x.index == k;
    assert x.selfParent.value in Parents(x);
  }

  // ----- The events of a frame

  /** Consensus order follows each creator's chain. */
  lemma OrderedAscending(ps: PeerSets, V: set<Event>, es: seq<FrameEvent>)
    requires View(V) && Ordered(es) && forall e :: e in es ==> IsFrameEvent(ps, e) && e.core in V
    ensures Ascending(Cores(es))
  {
    hide View, Round, Witness, Lamport;
    var s := Cores(es);
    forall i, j | 0 <= i < j < |s| && s[i].creator == s[j].creator
      ensures s[i].index < s[j].index
    {
      assert es[i] in es && es[j] in es && Less(es[i], es[j]);
      if s[j].index <= s[i].index {
        Chain(V, s[i], s[j]);
        LamportGrows(s[i]);
        FrameOrder(ps, es, i, j);
        assert false;
      }
    }
  }

  /** Between two events of p received in a round, all of p's events are received in it. */
  lemma FrameConvex(ps: PeerSets, V: set<Event>, D: set<nat>, pe: map<Peer, seq<Event>>, frames: seq<Frame>, i: nat,
                    p: Peer)
    requires SafeHistory(ps) && Knows(ps, V, D) && IsLog(ps, V, D, frames) && Indexed(V, pe)
    requires i < |frames| && p in pe
    ensures Convex(pe[p], Cores(frames[i].events))
  {
    hide SafeHistory, Ordered, Round, Witness, ReceivedIn, FamousWitnesses, ReceivedEvents;
    var s := Cores(frames[i].events);
    forall a, b, c | 0 <= a < b < c < |pe[p]| && pe[p][a] in s && pe[p][c] in s
      ensures pe[p][b] in s
    {
      FrameMember(ps, V, D, i, frames[i], pe[p][a]);
      FrameMember(ps, V, D, i, frames[i], pe[p][b]);
      FrameMember(ps, V, D, i, frames[i], pe[p][c]);
      ReceivedBetween(ps, V, D, pe[p][a], pe[p][b], pe[p][c], i);
    }
  }

  lemma ReceivedBetween(ps: PeerSets, V: set<Event>, D: set<nat>, x: Event, y: Event, z: Event, i: nat)
    requires SafeHistory(ps) && Knows(ps, V, D) && (forall r :: 0 <= r <= i ==> r in D)
    requires x in V && y in V && z in V && x.creator == y.creator == z.creator && x.index <= y.index <= z.index
    requires x in ReceivedEvents(ps, V, D, i) && z in ReceivedEvents(ps, V, D, i)
    ensures y in ReceivedEvents(ps, V, D, i)
  {
    hide SafeHistory, ReceivedIn, Frozen;
    Chain(V, z, y);
    Chain(V, y, x);
    var j := AncestorReceived(ps, V, D, z, i, y);
    var k := AncestorReceived(ps, V, D, y, j, x);
    OneRound(ps, V, D, x, i, k);
  }

  /** A participant's root and its events in the frame are one stretch of its chain, at most
      ROOT_DEPTH + 1 events of which are in the root; and the root is that deep unless the
      stretch starts with its first event. */
  ghost predicate Plantable(pe: seq<Event>, root: seq<Event>, mine: seq<Event>) {
    && |root| <= ROOT_DEPTH + 1
    && Slice(pe, root + mine)
    && (root + mine != [] && (root + mine)[0].index > 0 ==> |root| == ROOT_DEPTH + 1)
  }

  lemma FramePlantable(ps: PeerSets, V: set<Event>, D: set<nat>, pe: map<Peer, seq<Event>>, first: map<Peer, nat>,
                       frames: seq<Frame>, i: nat, p: Peer)
    requires SafeHistory(ps) && Knows(ps, V, D) && IsLog(ps, V, D, frames) && Indexed(V, pe)
    requires RootedLog(ps, pe, first, frames)
    requires i < |frames| && p in frames[i].roots
    ensures p in pe && Plantable(pe[p], Cores(frames[i].roots[p]), By(Cores(frames[i].events), p))
  {
    hide SafeHistory, Knows, IsLog, Indexed, By, Slice, Ordered, IsFrameEvent, ConsensusOrder, LastByCreator,
         ReceivedEvents, RootHead, FamousWitnesses;
    var f, last := frames[i], LastByCreator(ConsensusOrder(frames[..i]));
    var s := Cores(f.events);
    assert Rooted(ps, pe, last, KnownBy(first, i), f);
    FrameInside(ps, V, D, frames, i);
    FrameConvex(ps, V, D, pe, frames, i, p);
    BySlice(V, pe, s, p);
    JoinRoot(ps, V, pe, f, last, p);
  }

  lemma FrameInside(ps: PeerSets, V: set<Event>, D: set<nat>, frames: seq<Frame>, i: nat)
    requires Knows(ps, V, D) && IsLog(ps, V, D, frames) && i < |frames|
    ensures Ascending(Cores(frames[i].events)) && (forall x :: x in Cores(frames[i].events) ==> x in V)
    ensures View(V) && Ordered(frames[i].events)
            && forall e :: e in frames[i].events ==> IsFrameEvent(ps, e) && e.core in V
  {
    hide Ordered, IsFrameEvent, FamousWitnesses, ReceivedIn, Ascending, Frozen, View;
    var f := frames[i];
    forall e | e in f.events
      ensures e.core in V
    {
      assert e.core in ReceivedEvents(ps, V, D, i);
    }
    OrderedAscending(ps, V, f.events);
  }

  lemma {:induction false} FirstBySnoc(es: seq<FrameEvent>, e: FrameEvent, p: Peer)
    ensures FirstBy(es + [e], p) == if FirstBy(es, p).Some? then FirstBy(es, p)
                                    else if e.core.creator == p then Some(e) else None
  {
    if es == [] {
      assert (es + [e])[1..] == [];
    } else {
      FirstBySnoc(es[1..], e, p);
      assert (es + [e])[1..] == es[1..] + [e];
    }
  }

  lemma {:induction false} FirstOfMine(es: seq<FrameEvent>, p: Peer)
    ensures FirstBy(es, p).None? <==> By(Cores(es), p) == []
    ensures FirstBy(es, p).Some? ==> FirstBy(es, p).value.core == By(Cores(es), p)[0]
  {
    if es != [] {
      var t, e := es[..|es| - 1], es[|es| - 1];
      FirstOfMine(t, p);
      FirstBySnoc(t, e, p);
      assert es == t + [e];
      assert Cores(es)[..|es| - 1] == Cores(t);
    }
  }

  /** The root ends where the participant's events in the frame start. */
  lemma JoinRoot(ps: PeerSets, V: set<Event>, pe: map<Peer, seq<Event>>, f: Frame, last: map<Peer, Event>, p: Peer)
    requires View(V) && Indexed(V, pe) && p in f.roots && IsRoot(ps, pe, p, RootHead(f.events, last, p), f.roots[p])
    requires Slice(pe[p], By(Cores(f.events), p))
    ensures Plantable(pe[p], Cores(f.roots[p]), By(Cores(f.events), p))
  {
    hide IsFrameEvent, FirstBy, By, View, Plantable, Slice, Indexed, RootCores;
    FirstOfMine(f.events, p);
    var mine, root := By(Cores(f.events), p), Cores(f.roots[p]);
    if mine != [] {
      RootBelow(V, pe, p, mine, root);
    } else {
      RootAlone(V, pe, p, RootHead(f.events, last, p), root);
      assert root + mine == root;
    }
  }

  lemma RootBelow(V: set<Event>, pe: map<Peer, seq<Event>>, p: Peer, mine: seq<Event>, root: seq<Event>)
    requires View(V) && Indexed(V, pe) && p in pe && mine != [] && Slice(pe[p], mine)
    requires root == RootCores(pe[p], mine[0].selfParent)
    ensures Plantable(pe[p], root, mine)
  {
    hide View, RootCores;
    forall k | 0 <= k < |pe[p]|
      ensures pe[p][k].index == k
    {
      SelfParentHeld(V, pe, p, k);
    }
    SelfParentHeld(V, pe, p, mine[0].index);
    RootJoins(pe[p], mine, root);
  }

  /** The self-parent of an event of a chain is the event before it, at its own index. */
  lemma SelfParentHeld(V: set<Event>, pe: map<Peer, seq<Event>>, p: Peer, a: nat)
    requires View(V) && Indexed(V, pe) && p in pe && a < |pe[p]|
    ensures pe[p][a].index == a
    ensures pe[p][a].selfParent == if a > 0 then Some(pe[p][a - 1]) else None
    ensures a > 0 ==> pe[p][a - 1].index == a - 1
  {
    var x := pe[p][a];
    assert x in V && x.index == a && WellIndexed(x);
    if a > 0 {
      SelfParentLinks(V, pe, p, a);
    }
  }

  lemma RootJoins(c: seq<Event>, mine: seq<Event>, root: seq<Event>)
    requires mine != [] && Slice(c, mine) && root == RootCores(c, mine[0].selfParent)
    requires var a := mine[0].index;
      mine[0].selfParent == (if a > 0 then Some(c[a - 1]) else None) && (a > 0 ==> c[a - 1].index == a - 1)
    requires forall k :: 0 <= k < |c| ==> c[k].index == k
    ensures Plantable(c, root, mine)
  {
    var a := mine[0].index;
    var lo := if a - 1 > ROOT_DEPTH then a - 1 - ROOT_DEPTH else 0;
    if a > 0 {
      SlicesJoin(c, lo, a, a + |mine|);
    } else {
      assert root + mine == mine;
    }
  }

  lemma SlicesJoin(s: seq<Event>, i: nat, j: nat, k: nat)
    requires i <= j <= k <= |s|
    ensures s[i..j] + s[j..k] == s[i..k]
  {
  }

  lemma RootAlone(V: set<Event>, pe: map<Peer, seq<Event>>, p: Peer, head: Option<Event>, root: seq<Event>)
    requires Indexed(V, pe) && p in pe && root == RootCores(pe[p], head)
    requires head.Some? ==> 0 <= head.value.index < |pe[p]|
    ensures Plantable(pe[p], root, [])
  {
    assert root + [] == root;
  }

  // ----- All the events of a frame, roots included

  ghost predicate Holds(f: Frame, e: FrameEvent) {
    e in f.events || exists p :: p in f.roots && e in f.roots[p]
  }

  /** What Reset relies on: V is the view from which the frame was cut. */
  ghost predicate Genuine(ps: PeerSets, V: set<Event>, pe: map<Peer, seq<Event>>, f: Frame) {
    && View(V) && Indexed(V, pe) && DistinctKeys(V)
    && Ordered(f.events)
    && (forall e :: e in f.events ==> IsFrameEvent(ps, e) && e.core in V && e.core.creator in f.roots)
    && (forall p :: p in f.roots ==> RootFits(ps, pe, f, p))
  }

  ghost predicate RootFits(ps: PeerSets, pe: map<Peer, seq<Event>>, f: Frame, p: Peer)
    requires p in f.roots
  {
    && p in pe && Plantable(pe[p], Cores(f.roots[p]), By(Cores(f.events), p))
    && forall e :: e in f.roots[p] ==> IsFrameEvent(ps, e)
  }

  /** Every frame that a node puts in its log is genuine. */
  lemma LogGenuine(ps: PeerSets, V: set<Event>, D: set<nat>, pe: map<Peer, seq<Event>>, first: map<Peer, nat>,
                   frames: seq<Frame>, i: nat)
    requires SafeHistory(ps) && Knows(ps, V, D) && IsLog(ps, V, D, frames) && Indexed(V, pe)
    requires RootedLog(ps, pe, first, frames)
    requires DistinctKeys(V) && i < |frames|
    ensures Genuine(ps, V, pe, frames[i])
  {
    hide SafeHistory, Knows, IsLog, Indexed, By, Plantable, Ordered, IsFrameEvent, ConsensusOrder, LastByCreator,
         RootHead, View, DistinctKeys;
    var f := frames[i];
    FrameInside(ps, V, D, frames, i);
    assert Rooted(ps, pe, LastByCreator(ConsensusOrder(frames[..i])), KnownBy(first, i), f);
    forall p | p in f.roots
      ensures RootFits(ps, pe, f, p)
    {
      FramePlantable(ps, V, D, pe, first, frames, i, p);
    }
  }

  /** The root of a participant without events in the frame ends at its newest event committed before, and is empty if
      there is none. */
  lemma RootEndsAtNewest(ps: PeerSets, V: set<Event>, D: set<nat>, pe: map<Peer, seq<Event>>, first: map<Peer, nat>,
                         frames: seq<Frame>, i: nat, p: Peer)
    requires SafeHistory(ps) && Knows(ps, V, D) && IsLog(ps, V, D, frames) && RootedLog(ps, pe, first, frames)
    requires i < |frames| && p in frames[i].roots && forall e :: e in frames[i].events ==> e.core.creator != p
    ensures var order, root := ConsensusOrder(frames[..i]), Cores(frames[i].roots[p]);
            && (root == [] <==> forall x :: x in order ==> x.creator != p)
            && (root != [] ==> var h := root[|root| - 1];
                  h in order && h.creator == p && forall x :: x in order && x.creator == p ==> x.index <= h.index)
  {
    hide SafeHistory, Knows, IsFrame, LastByCreator, ConsensusOrder, IsFrameEvent, Causal;
    var order, f := ConsensusOrder(frames[..i]), frames[i];
    var last := LastByCreator(order);
    assert IsLog(ps, V, D, frames[..i]);
    assert IsRoot(ps, pe, p, RootHead(f.events, last, p), f.roots[p]);
    FirstByNone(f.events, p);
    LastByCreatorExactly(order, p);
    if p in last {
      RootEnds(pe[p], last[p]);
      CommitIsCausal(ps, V, D, frames[..i]);
      forall x | x in order && x.creator == p
        ensures x.index <= last[p].index
      {
        var k :| 0 <= k < |order| && last[p] == order[k] && forall j :: k < j < |order| ==> order[j].creator != p;
        var j :| 0 <= j < |order| && order[j] == x;
        CommittedView(ps, V, D, frames[..i], x);
        CommittedView(ps, V, D, frames[..i], order[k]);
        if x.index > order[k].index { OlderIsEarlier(V, order, j, k); }
      }
    }
  }

  lemma RootEnds(pe: seq<Event>, h: Event)
    requires 0 <= h.index < |pe| && pe[h.index] == h
    ensures var root := RootCores(pe, Some(h)); root != [] && root[|root| - 1] == h
  {
  }

  lemma CommittedView(ps: PeerSets, V: set<Event>, D: set<nat>, frames: seq<Frame>, x: Event)
    requires SafeHistory(ps) && Knows(ps, V, D) && IsLog(ps, V, D, frames) && x in ConsensusOrder(frames)
    ensures x in V && View(V)
  {
    hide SafeHistory, IsFrame, ConsensusOrder, View, Frozen;
    CommittedMember(ps, V, D, frames, x);
  }

  lemma OlderIsEarlier(V: set<Event>, s: seq<Event>, j: nat, k: nat)
    requires View(V) && Causal(s) && j < |s| && k < |s| && s[j] in V && s[k] in V
    requires s[j].creator == s[k].creator && s[k].index < s[j].index
    ensures k < j
  {
    Chain(V, s[j], s[k]);
    assert s[k] in ProperAncestors(s[j]) && s[k] in s[..j];
    var m :| 0 <= m < j && s[..j][m] == s[k];
    assert s[m] == s[k];
  }

  /** The events of a root are its participant's, known and different. */
  lemma RootEvents(ps: PeerSets, V: set<Event>, pe: map<Peer, seq<Event>>, f: Frame, p: Peer)
    requires Genuine(ps, V, pe, f) && p in f.roots
    ensures forall e :: e in f.roots[p] ==> IsFrameEvent(ps, e) && e.core in V && e.core.creator == p
    ensures forall i, j :: 0 <= i < j < |f.roots[p]| ==> f.roots[p][i].core != f.roots[p][j].core
  {
    hide View, DistinctKeys, Ordered, IsFrameEvent, By;
    var root, mine := Cores(f.roots[p]), By(Cores(f.events), p);
    assert RootFits(ps, pe, f, p);
    forall k | 0 <= k < |root|
      ensures root[k] in V && root[k].creator == p && root[k].index == (root + mine)[0].index + k
    {
      assert root[k] == (root + mine)[k];
    }
  }

  lemma SliceSplit(V: set<Event>, pe: map<Peer, seq<Event>>, p: Peer, root: seq<Event>, mine: seq<Event>)
    requires Indexed(V, pe) && p in pe && Slice(pe[p], root + mine)
    ensures forall x, y :: x in root && y in mine ==> x.index < y.index
  {
    var all := root + mine;
    forall k | 0 <= k < |all|
      ensures all[k].index == all[0].index + k
    {
    }
    forall x, y | x in root && y in mine
      ensures x.index < y.index
    {
      var k :| 0 <= k < |root| && root[k] == x;
      var l :| 0 <= l < |mine| && mine[l] == y;
      assert all[k] == x && all[|root| + l] == y;
    }
  }

  lemma RootBeforeEvents(ps: PeerSets, V: set<Event>, pe: map<Peer, seq<Event>>, f: Frame, p: Peer)
    requires Genuine(ps, V, pe, f) && p in f.roots
    ensures forall e, e' :: e in f.roots[p] && e' in f.events && e'.core.creator == p ==> e.core.index < e'.core.index
    ensures forall e, e' :: e in f.roots[p] && e' in f.events ==> e.core != e'.core
  {
    hide View, DistinctKeys, Ordered, IsFrameEvent, By, Indexed, Slice;
    var root, mine := Cores(f.roots[p]), By(Cores(f.events), p);
    RootEvents(ps, V, pe, f, p);
    assert RootFits(ps, pe, f, p);
    SliceSplit(V, pe, p, root, mine);
    forall e, e' | e in f.roots[p] && e' in f.events && e'.core.creator == p
      ensures e.core.index < e'.core.index
    {
      CoreMember(f.roots[p], e);
      CoreMember(f.events, e');
      ByMember(Cores(f.events), p);
    }
  }

  lemma CoreMember(s: seq<FrameEvent>, e: FrameEvent)
    requires e in s
    ensures e.core in Cores(s)
  {
    var k :| 0 <= k < |s| && s[k] == e;
    assert Cores(s)[k] == e.core;
  }

  ghost predicate DistinctCores(s: seq<FrameEvent>) {
    forall i, j :: 0 <= i < j < |s| ==> s[i].core != s[j].core
  }

  lemma DistinctJoin(s: seq<FrameEvent>, t: seq<FrameEvent>)
    requires DistinctCores(s) && DistinctCores(t)
    requires forall a, b :: a in s && b in t ==> a.core != b.core
    ensures DistinctCores(s + t)
  {
    forall i, j | 0 <= i < j < |s + t|
      ensures (s + t)[i].core != (s + t)[j].core
    {
      if i < |s| <= j { assert s[i] in s && t[j - |s|] in t; }
    }
  }

  /** All the events of the frame, in consensus order. */
  method SortedFrameEvents(f: Frame, ghost ps: PeerSets, ghost V: set<Event>, ghost pe: map<Peer, seq<Event>>)
    returns (sorted: seq<FrameEvent>)
    requires Genuine(ps, V, pe, f)
    ensures Ordered(sorted) && forall e :: e in sorted <==> Holds(f, e)
  {
    hide Genuine, Ordered, IsFrameEvent, DistinctCores;
    var all: seq<FrameEvent> := [];
    var todo := f.roots.Keys;
    assert DistinctCores(all) by { NoneDistinct(); }
    while todo != {}
      invariant todo <= f.roots.Keys && DistinctCores(all)
      invariant forall e :: e in all <==> exists p :: p in f.roots && p !in todo && e in f.roots[p]
      decreases todo
    {
      var p :| p in todo;
      RootApart(ps, V, pe, f, p, todo, all);
      todo := todo - {p};
      all := all + f.roots[p];
    }
    EventsApart(ps, V, pe, f, all);
    all := all + f.events;
    AllComparable(ps, V, pe, f, all);
    sorted := SortFrame(all);
  }

  lemma NoneDistinct()
    ensures DistinctCores([])
  {
  }

  lemma RootApart(ps: PeerSets, V: set<Event>, pe: map<Peer, seq<Event>>, f: Frame, p: Peer, todo: set<Peer>,
                  all: seq<FrameEvent>)
    requires Genuine(ps, V, pe, f) && p in todo && todo <= f.roots.Keys && DistinctCores(all)
    requires forall e :: e in all <==> exists q :: q in f.roots && q !in todo && e in f.roots[q]
    ensures DistinctCores(all + f.roots[p])
  {
    hide Genuine, IsFrameEvent;
    RootEvents(ps, V, pe, f, p);
    forall a, b | a in all && b in f.roots[p]
      ensures a.core != b.core
    {
      var q :| q in f.roots && q !in todo && a in f.roots[q];
      RootEvents(ps, V, pe, f, q);
    }
    DistinctJoin(all, f.roots[p]);
  }

  lemma EventsApart(ps: PeerSets, V: set<Event>, pe: map<Peer, seq<Event>>, f: Frame, all: seq<FrameEvent>)
    requires Genuine(ps, V, pe, f) && DistinctCores(all)
    requires forall e :: e in all <==> exists p :: p in f.roots && e in f.roots[p]
    ensures DistinctCores(all + f.events)
  {
    hide View, Indexed, DistinctKeys, RootFits, IsFrameEvent, DistinctCores;
    assert DistinctCores(f.events) by { OrderedDistinct(ps, f.events); }
    forall a, b | a in all && b in f.events
      ensures a.core != b.core
    {
      var q :| q in f.roots && a in f.roots[q];
      RootBeforeEvents(ps, V, pe, f, q);
    }
    DistinctJoin(all, f.events);
  }

  lemma OrderedDistinct(ps: PeerSets, s: seq<FrameEvent>)
    requires Ordered(s) && forall e :: e in s ==> IsFrameEvent(ps, e)
    ensures DistinctCores(s)
  {
    hide Ordered, IsFrameEvent;
    forall i, j | 0 <= i < j < |s|
      ensures s[i].core != s[j].core
    {
      FrameOrder(ps, s, i, j);
    }
  }

  lemma AllComparable(ps: PeerSets, V: set<Event>, pe: map<Peer, seq<Event>>, f: Frame, all: seq<FrameEvent>)
    requires Genuine(ps, V, pe, f) && DistinctCores(all) && forall e :: e in all <==> Holds(f, e)
    ensures forall i, j :: 0 <= i < j < |all| ==> Less(all[i], all[j]) || Less(all[j], all[i])
    ensures forall e :: e in all ==> IsFrameEvent(ps, e) && e.core in V
  {
    hide View, Indexed, DistinctKeys, RootFits, IsFrameEvent, Ordered;
    forall e | e in all
      ensures IsFrameEvent(ps, e) && e.core in V
    {
      if e !in f.events {
        var p :| p in f.roots && e in f.roots[p];
        RootEvents(ps, V, pe, f, p);
      }
    }
    FrameComparable(ps, V, all);
  }

  // ----- The order in which they are inserted

  lemma SortedInside(ps: PeerSets, V: set<Event>, pe: map<Peer, seq<Event>>, f: Frame, sorted: seq<FrameEvent>)
    requires Genuine(ps, V, pe, f) && Ordered(sorted) && forall e :: e in sorted <==> Holds(f, e)
    ensures forall e :: e in sorted ==> IsFrameEvent(ps, e) && e.core in V && e.core.creator in f.roots
    ensures Ascending(Cores(sorted))
  {
    hide View, Indexed, DistinctKeys, RootFits, IsFrameEvent, Ordered, Ascending;
    forall e | e in sorted
      ensures IsFrameEvent(ps, e) && e.core in V && e.core.creator in f.roots
    {
      if e !in f.events {
        var p :| p in f.roots && e in f.roots[p];
        RootEvents(ps, V, pe, f, p);
      }
    }
    OrderedAscending(ps, V, sorted);
  }

  /** Each participant's events are inserted along its chain, without a gap. */
  lemma SortedSlice(ps: PeerSets, V: set<Event>, pe: map<Peer, seq<Event>>, f: Frame, sorted: seq<FrameEvent>, p: Peer)
    requires Genuine(ps, V, pe, f) && Ordered(sorted) && (forall e :: e in sorted <==> Holds(f, e)) && p in f.roots
    ensures p in pe && Slice(pe[p], By(Cores(sorted), p))
  {
    hide View, Indexed, DistinctKeys, IsFrameEvent, Ordered, Ascending, By, Slice;
    SortedInside(ps, V, pe, f, sorted);
    assert RootFits(ps, pe, f, p);
    var all := Cores(f.roots[p]) + By(Cores(f.events), p);
    forall x
      ensures x in Cores(sorted) && x.creator == p <==> x in all
    {
      SortedMember(ps, V, pe, f, sorted, p, x);
    }
    SliceConvex(V, pe, p, all, Cores(sorted));
    BySlice(V, pe, Cores(sorted), p);
  }

  lemma SortedMember(ps: PeerSets, V: set<Event>, pe: map<Peer, seq<Event>>, f: Frame, sorted: seq<FrameEvent>, p: Peer,
                     x: Event)
    requires Genuine(ps, V, pe, f) && (forall e :: e in sorted <==> Holds(f, e)) && p in f.roots
    ensures x in Cores(sorted) && x.creator == p <==> x in Cores(f.roots[p]) + By(Cores(f.events), p)
  {
    hide View, Indexed, DistinctKeys, IsFrameEvent, Ordered, By, RootFits;
    ByMember(Cores(f.events), p);
    RootEvents(ps, V, pe, f, p);
    if x in Cores(sorted) && x.creator == p {
      var k :| 0 <= k < |sorted| && sorted[k].core == x;
      assert sorted[k] in sorted;
      if sorted[k] in f.events {
        CoreMember(f.events, sorted[k]);
      } else {
        var q :| q in f.roots && sorted[k] in f.roots[q];
        RootEvents(ps, V, pe, f, q);
        CoreMember(f.roots[q], sorted[k]);
      }
    }
    if x in Cores(f.roots[p]) {
      var k :| 0 <= k < |f.roots[p]| && f.roots[p][k].core == x;
      assert f.roots[p][k] in f.roots[p];
      CoreMember(sorted, f.roots[p][k]);
    }
    if x in Cores(f.events) {
      var k :| 0 <= k < |f.events| && f.events[k].core == x;
      CoreMember(sorted, f.events[k]);
    }
  }

  lemma SliceConvex(V: set<Event>, pe: map<Peer, seq<Event>>, p: Peer, all: seq<Event>, s: seq<Event>)
    requires Indexed(V, pe) && p in pe && Slice(pe[p], all)
    requires forall x :: x in s && x.creator == p <==> x in all
    ensures Convex(pe[p], s)
  {
    hide Indexed, Slice;
    forall a, b, c | 0 <= a < b < c < |pe[p]| && pe[p][a] in s && pe[p][c] in s
      ensures pe[p][b] in s
    {
      SliceMember(V, pe, p, all, a);
      SliceMember(V, pe, p, all, b);
      SliceMember(V, pe, p, all, c);
    }
  }

  lemma SliceMember(V: set<Event>, pe: map<Peer, seq<Event>>, p: Peer, all: seq<Event>, k: nat)
    requires Indexed(V, pe) && p in pe && Slice(pe[p], all) && k < |pe[p]|
    ensures pe[p][k].creator == p
    ensures pe[p][k] in all <==> all != [] && all[0].index <= k < all[0].index + |all|
  {
    if all != [] {
      var lo := all[0].index;
      if lo <= k < lo + |all| { assert all[k - lo] == pe[p][k]; }
      if pe[p][k] in all {
        var i :| 0 <= i < |all| && all[i] == pe[p][k];
        assert all[i] == pe[p][lo + i];
      }
    }
  }

  /** Below an event of a stretch there is one of the stretch, unless it is the first. */
  lemma SliceGapless(V: set<Event>, pe: map<Peer, seq<Event>>, p: Peer, s: seq<Event>, x: Event, y: Event)
    requires View(V) && Indexed(V, pe) && p in pe && Slice(pe[p], s) && x in s && y in s && y.index < x.index
    ensures x.selfParent.Some? && x.selfParent.value in s
  {
    hide View, Slice, Indexed;
    var i :| 0 <= i < |s| && s[i] == x;
    var j :| 0 <= j < |s| && s[j] == y;
    SliceAt(V, pe, p, s, i);
    SliceAt(V, pe, p, s, j);
    SliceAt(V, pe, p, s, i - 1);
    SelfParentLinks(V, pe, p, x.index);
  }

  lemma SliceAt(V: set<Event>, pe: map<Peer, seq<Event>>, p: Peer, s: seq<Event>, i: nat)
    requires Indexed(V, pe) && p in pe && Slice(pe[p], s) && i < |s|
    ensures 0 <= s[i].index == s[0].index + i < |pe[p]| && pe[p][s[i].index] == s[i]
  {
    var k := s[0].index + i;
    assert s[i] == pe[p][k] && pe[p][k].index == k;
  }

  /** Parents come before children. */
  lemma ParentsFirst(ps: PeerSets, sorted: seq<FrameEvent>, i: nat, j: nat)
    requires Ordered(sorted) && (forall e :: e in sorted ==> IsFrameEvent(ps, e))
    requires i < |sorted| && j < |sorted| && sorted[i].core in Parents(sorted[j].core)
    ensures i < j
  {
    hide Ordered, IsFrameEvent;
    ParentBelow(sorted[j].core, sorted[i].core);
    LamportGrows(sorted[j].core);
    FrameOrder(ps, sorted, i, j);
  }

  lemma {:induction false} ByPrefix(s: seq<Event>, p: Peer, k: nat)
    requires k <= |s|
    ensures By(s[..k], p) <= By(s, p)
    decreases |s|
  {
    if k < |s| {
      ByPrefix(s[..|s| - 1], p, k);
      assert s[..|s| - 1][..k] == s[..k];
    } else {
      assert s[..k] == s;
    }
  }

  /** The next event of a participant has the next index. */
  lemma NextIndex(V: set<Event>, pe: map<Peer, seq<Event>>, s: seq<Event>, k: nat)
    requires Indexed(V, pe) && k < |s| && s[k].creator in pe && Slice(pe[s[k].creator], By(s, s[k].creator))
    ensures By(s[..k + 1], s[k].creator) == By(s[..k], s[k].creator) + [s[k]]
    ensures By(s[..k], s[k].creator) != [] ==>
              s[k].index == By(s[..k], s[k].creator)[0].index + |By(s[..k], s[k].creator)|
    ensures 0 <= s[k].index
  {
    hide By;
    var p := s[k].creator;
    var t, t' := By(s[..k], p), By(s[..k + 1], p);
    assert s[..k + 1][..k] == s[..k];
    assert t' == t + [s[k]] by { BySnoc(s[..k], s[k], p); assert s[..k + 1] == s[..k] + [s[k]]; }
    ByPrefix(s, p, k + 1);
    assert By(s, p)[|t|] == s[k];
    assert t != [] ==> By(s, p)[0] == t[0];
  }

  lemma BySnoc(s: seq<Event>, x: Event, p: Peer)
    ensures By(s + [x], p) == By(s, p) + if x.creator == p then [x] else []
  {
    assert (s + [x])[..|s|] == s;
  }
}
