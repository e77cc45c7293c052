/** Building a frame: its order, its roots and its timestamp
    (src/hashgraph/hashgraph.go, src/hashgraph/event.go, src/hashgraph/block.go). */
module Frames {
  import opened Events
  import opened Quorum
  import opened Rounds
  import opened Received
  import opened Ledger
  import opened Medians

  /** No two events share both a Lamport timestamp and a signature. */
  ghost predicate DistinctKeys(V: set<Event>) {
    forall x, y :: x in V && y in V && x != y && Lamport(x) == Lamport(y) ==>
      x.payload.signatureR != y.payload.signatureR
  }

  // ----- Sorting

  ghost predicate Comparable(e: FrameEvent, s: seq<FrameEvent>) {
    forall a :: a in s ==> Less(a, e) || Less(e, a)
  }

  /** Puts one event in its place. */
  method Place(s: seq<FrameEvent>, e: FrameEvent) returns (t: seq<FrameEvent>)
    requires Ordered(s) && Comparable(e, s)
    ensures Ordered(t) && multiset(t) == multiset(s) + multiset{e}
    ensures forall a :: a in t <==> a in s || a == e
  {
    hide Splice;
    var k := 0;
    while k < |s| && Less(s[k], e)
      invariant 0 <= k <= |s|
      invariant forall j :: 0 <= j < k ==> Less(s[j], e)
    {
      k := k + 1;
    }
    t := Splice(s, k, e);
    assert k < |s| ==> s[k] in s;
    OrderedSplice(s, k, e);
    Spliced(s, k, e);
    assert forall a :: a in t <==> a in multiset(t);
  }

  lemma OrderedSplice(s: seq<FrameEvent>, k: nat, e: FrameEvent)
    requires Ordered(s) && k <= |s| && (forall j :: 0 <= j < k ==> Less(s[j], e)) && (k < |s| ==> Less(e, s[k]))
    ensures Ordered(Splice(s, k, e))
  {
    hide Splice;
    SplicedAt(s, k, e, 0);
    forall i, j | 0 <= i < j < |Splice(s, k, e)|
      ensures Less(Splice(s, k, e)[i], Splice(s, k, e)[j])
    {
      SplicedAt(s, k, e, i);
      SplicedAt(s, k, e, j);
    }
  }

  /** Sorts events that are pairwise comparable. */
  method SortFrame(events: seq<FrameEvent>) returns (sorted: seq<FrameEvent>)
    requires forall i, j :: 0 <= i < j < |events| ==> Less(events[i], events[j]) || Less(events[j], events[i])
    ensures Ordered(sorted) && multiset(sorted) == multiset(events)
    ensures forall a :: a in sorted <==> a in events
    ensures forall i, j :: 0 <= i < j < |sorted| ==>
              && sorted[i].lamport <= sorted[j].lamport
              && (sorted[i].lamport == sorted[j].lamport ==>
                    sorted[i].core.payload.signatureR < sorted[j].core.payload.signatureR)
  {
    sorted := [];
    for i := 0 to |events|
      invariant Ordered(sorted) && multiset(sorted) == multiset(events[..i])
      invariant forall a :: a in sorted <==> a in events[..i]
    {
      assert events[..i + 1] == events[..i] + [events[i]];
      sorted := Place(sorted, events[i]);
    }
    assert events[..|events|] == events;
  }

  lemma FrameComparable(ps: PeerSets, V: set<Event>, s: seq<FrameEvent>)
    requires DistinctKeys(V) && (forall e :: e in s ==> e.core in V && IsFrameEvent(ps, e))
    requires forall i, j :: 0 <= i < j < |s| ==> s[i].core != s[j].core
    ensures forall i, j :: 0 <= i < j < |s| ==> Less(s[i], s[j]) || Less(s[j], s[i])
  {
    hide Round, Witness, Lamport;
    forall i, j | 0 <= i < j < |s|
      ensures Less(s[i], s[j]) || Less(s[j], s[i])
    {
      assert s[i] in s && s[j] in s;
    }
  }

  // ----- The block of a frame

  method NewBlockFromFrame(index: nat, frame: Frame) returns (block: BlockBody)
    ensures block == BlockOf(index, frame)
    ensures block.index == index && MadeFrom(block, frame)
  {
    var transactions: seq<Bytes> := [];
    var internalTransactions: seq<InternalTransaction> := [];
    for i := 0 to |frame.events|
      invariant transactions == Transactions(frame.events[..i])
      invariant internalTransactions == InternalTransactions(frame.events[..i])
    {
      assert frame.events[..i + 1][..i] == frame.events[..i];
      transactions := transactions + frame.events[i].core.payload.transactions;
      internalTransactions := internalTransactions + frame.events[i].core.payload.internalTransactions;
    }
    assert frame.events[..|frame.events|] == frame.events;
    block := BlockBody(index, frame.round, frame.timestamp, frame.peers, transactions, internalTransactions);
    BlockIsMadeFrom(index, frame);
  }

  // ----- The timestamp of a frame

  /** The timestamps of the famous witnesses, in whatever order they come. */
  method CollectTimestamps(ws: set<Event>) returns (ts: seq<int>)
    ensures multiset(ts) == Timestamps(ws)
  {
    ts := [];
    var todo := ws;
    while todo != {}
      invariant todo <= ws && multiset(ts) + Timestamps(todo) == Timestamps(ws)
      decreases todo
    {
      var w :| w in todo;
      TimestampsSplit(todo, w);
      todo := todo - {w};
      ts := ts + [w.payload.timestamp];
    }
  }

  /** With fewer than a third of faulty peers, the timestamp of a frame that received anything lies
      between those of two honest famous witnesses. */
  lemma HonestTimestamp(ps: PeerSets, V: set<Event>, i: nat, timestamp: int, faulty: set<Peer>)
    requires View(V) && IsMedian(Timestamps(Voting.FamousWitnesses(ps, V, i)), timestamp)
    requires |Voting.FamousWitnesses(ps, V, i)| >= Threshold(ps(i)) && 3 * |faulty * ps(i)| < |ps(i)|
    requires forall w :: w in Voting.FamousWitnesses(ps, V, i) && w.creator !in faulty ==>
               -0x4000_0000_0000_0000 <= w.payload.timestamp < 0x4000_0000_0000_0000
    ensures exists w :: w in Voting.FamousWitnesses(ps, V, i) && w.creator !in faulty &&
                        w.payload.timestamp <= timestamp
    ensures exists w :: w in Voting.FamousWitnesses(ps, V, i) && w.creator !in faulty &&
                        timestamp <= w.payload.timestamp
  {
    hide Round, Witness, Voting.FameDecided, IsMedian;
    var ws := Voting.FamousWitnesses(ps, V, i);
    var s := Listed(ws, faulty);
    var input, honest := TimestampsOf(s), HonestOf(s, faulty);
    FaultyWitnesses(ps, V, i, ws, faulty);
    HonestMedian(input, honest, timestamp);
    var a :| 0 <= a < |input| && honest[a] && input[a] <= timestamp;
    var b :| 0 <= b < |input| && honest[b] && timestamp <= input[b];
    assert s[a] in ws && s[b] in ws;
  }

  ghost function TimestampsOf(s: seq<Event>): (ts: seq<int>)
    ensures |ts| == |s| && forall k :: 0 <= k < |s| ==> ts[k] == s[k].payload.timestamp
  {
    seq(|s|, k requires 0 <= k < |s| => s[k].payload.timestamp)
  }

  ghost function HonestOf(s: seq<Event>, faulty: set<Peer>): (hs: seq<bool>)
    ensures |hs| == |s| && forall k :: 0 <= k < |s| ==> hs[k] == (s[k].creator !in faulty)
  {
    seq(|s|, k requires 0 <= k < |s| => s[k].creator !in faulty)
  }

  /** A listing of a set of witnesses has their timestamps, and as many faulty ones. */
  lemma {:induction false} Listed(ws: set<Event>, faulty: set<Peer>) returns (s: seq<Event>)
    ensures |s| == |ws| && forall k :: 0 <= k < |s| ==> s[k] in ws
    ensures multiset(TimestampsOf(s)) == Timestamps(ws)
    ensures Faulty(HonestOf(s, faulty)) == |FaultyAmong(ws, faulty)|
    decreases |ws|
  {
    if ws == {} {
      s := [];
    } else {
      var w :| w in ws;
      var rest := Listed(ws - {w}, faulty);
      s := [w] + rest;
      TimestampsSplit(ws, w);
      FaultySplit(ws, w, faulty);
      ListedFirst(w, rest, faulty);
    }
  }

  lemma ListedFirst(w: Event, rest: seq<Event>, faulty: set<Peer>)
    ensures multiset(TimestampsOf([w] + rest)) == multiset{w.payload.timestamp} + multiset(TimestampsOf(rest))
    ensures Faulty(HonestOf([w] + rest, faulty))
            == Faulty(HonestOf(rest, faulty)) + if w.creator in faulty then 1 else 0
  {
    assert TimestampsOf([w] + rest) == [w.payload.timestamp] + TimestampsOf(rest);
    assert HonestOf([w] + rest, faulty)[1..] == HonestOf(rest, faulty);
  }

  ghost function FaultyAmong(ws: set<Event>, faulty: set<Peer>): set<Event> {
    set w | w in ws && w.creator in faulty
  }

  lemma FaultySplit(ws: set<Event>, w: Event, faulty: set<Peer>)
    requires w in ws
    ensures |FaultyAmong(ws, faulty)| == |FaultyAmong(ws - {w}, faulty)| + if w.creator in faulty then 1 else 0
  {
    var rest := FaultyAmong(ws - {w}, faulty);
    assert FaultyAmong(ws, faulty) == if w.creator in faulty then rest + {w} else rest;
  }

  lemma FaultyWitnesses(ps: PeerSets, V: set<Event>, i: nat, ws: set<Event>, faulty: set<Peer>)
    requires View(V) && ws <= WitnessesIn(ps, V, i)
    ensures |FaultyAmong(ws, faulty)| <= |faulty * ps(i)|
  {
    var bad := FaultyAmong(ws, faulty);
    forall a, b | a in bad && b in bad && a.creator == b.creator
      ensures a == b
    {
      OneWitnessPerRound(ps, V, a, b);
    }
    InjectiveSize(bad, (e: Event) => e.creator, faulty * ps(i));
  }

  // ----- The roots of a frame

  /** How many events a root holds below its head. */
  const ROOT_DEPTH: int := 10

  /** The head and up to ROOT_DEPTH events before it, oldest first. */
  function RootCores(pe: seq<Event>, head: Option<Event>): seq<Event> {
    match head
    case None => []
    case Some(h) =>
      if 0 <= h.index < |pe| then pe[if h.index > ROOT_DEPTH then h.index - ROOT_DEPTH else 0..h.index + 1] else []
  }

  function FirstBy(events: seq<FrameEvent>, p: Peer): Option<FrameEvent> {
    if events == [] then None
    else if events[0].core.creator == p then Some(events[0])
    else FirstBy(events[1..], p)
  }

  /** A participant's root ends just before its first event in the frame; or, when it has none there,
      at its last committed event. */
  function RootHead(events: seq<FrameEvent>, last: map<Peer, Event>, p: Peer): Option<Event> {
    match FirstBy(events, p)
    case Some(e) => e.core.selfParent
    case None => if p in last then Some(last[p]) else None
  }

  ghost predicate IsRoot(ps: PeerSets, pe: map<Peer, seq<Event>>, p: Peer, head: Option<Event>, root: seq<FrameEvent>) {
    && p in pe && Cores(root) == RootCores(pe[p], head)
    && (head.Some? ==> 0 <= head.value.index < |pe[p]| && pe[p][head.value.index] == head.value)
    && forall e :: e in root ==> IsFrameEvent(ps, e)
  }

  /** The creators in the frame and the known participants, and nobody else, have their root. */
  ghost predicate Rooted(ps: PeerSets, pe: map<Peer, seq<Event>>, last: map<Peer, Event>, known: set<Peer>, f: Frame) {
    && (forall p :: p in f.roots <==> p in known || exists e :: e in f.events && e.core.creator == p)
    && forall p :: p in f.roots ==> IsRoot(ps, pe, p, RootHead(f.events, last, p), f.roots[p])
  }

  lemma {:induction false} FirstByAt(s: seq<FrameEvent>, p: Peer, k: nat)
    requires k < |s| && s[k].core.creator == p && forall j :: 0 <= j < k ==> s[j].core.creator != p
    ensures FirstBy(s, p) == Some(s[k])
  {
    if k > 0 { FirstByAt(s[1..], p, k - 1); }
  }

  lemma {:induction false} FirstByNone(s: seq<FrameEvent>, p: Peer)
    ensures FirstBy(s, p).None? <==> forall e :: e in s ==> e.core.creator != p
  {
    if s != [] {
      FirstByNone(s[1..], p);
      assert s == [s[0]] + s[1..];
    }
  }

  /** The last event of each creator in a sequence. */
  function LastByCreator(s: seq<Event>): map<Peer, Event> {
    if s == [] then map[]
    else LastByCreator(s[..|s| - 1])[s[|s| - 1].creator := s[|s| - 1]]
  }

  lemma LastByCreatorNext(s: seq<Event>, x: Event)
    ensures LastByCreator(s + [x]) == LastByCreator(s)[x.creator := x]
  {
    assert (s + [x])[..|s|] == s;
  }

  lemma {:induction false} LastByCreatorAt(s: seq<Event>, i: nat)
    requires i < |s| && forall j :: i < j < |s| ==> s[j].creator != s[i].creator
    ensures s[i].creator in LastByCreator(s) && LastByCreator(s)[s[i].creator] == s[i]
  {
    var n := |s| - 1;
    if i < n {
      LastByCreatorAt(s[..n], i);
    }
  }

  /** It is there exactly for those who have one, and no later event has the same creator. */
  lemma {:induction false} LastByCreatorExactly(s: seq<Event>, p: Peer)
    ensures p in LastByCreator(s) <==> exists x :: x in s && x.creator == p
    ensures p in LastByCreator(s) ==>
              exists i :: 0 <= i < |s| && LastByCreator(s)[p] == s[i] && s[i].creator == p &&
                          forall j :: i < j < |s| ==> s[j].creator != p
  {
    if s != [] {
      var n := |s| - 1;
      LastByCreatorExactly(s[..n], p);
      assert s == s[..n] + [s[n]];
      if s[n].creator == p {
        assert LastByCreator(s)[p] == s[n];
      } else if p in LastByCreator(s[..n]) {
        var i :| 0 <= i < n && LastByCreator(s[..n])[p] == s[..n][i] && s[..n][i].creator == p &&
                 forall j :: i < j < n ==> s[..n][j].creator != p;
        assert LastByCreator(s)[p] == s[i];
        forall j | i < j < |s|
          ensures s[j].creator != p
        {
          if j < n { assert s[..n][j].creator != p; }
        }
      }
    }
  }

  /** The participants who were in a peer-set by round i. */
  ghost function KnownBy(first: map<Peer, nat>, i: nat): set<Peer> {
    set p | p in first && first[p] <= i
  }

  /** Every frame of a log was rooted in what was committed before it. */
  ghost predicate RootedLog(ps: PeerSets, pe: map<Peer, seq<Event>>, first: map<Peer, nat>, frames: seq<Frame>) {
    && first.Keys <= pe.Keys
    && forall i :: 0 <= i < |frames| ==>
         Rooted(ps, pe, LastByCreator(ConsensusOrder(frames[..i])), KnownBy(first, i), frames[i])
  }

  /** Later events of the participants do not disturb roots. */
  lemma RootedLogGrows(ps: PeerSets, pe: map<Peer, seq<Event>>, pe': map<Peer, seq<Event>>, first: map<Peer, nat>,
                       frames: seq<Frame>)
    requires RootedLog(ps, pe, first, frames) && pe.Keys <= pe'.Keys && forall p :: p in pe ==> pe[p] <= pe'[p]
    ensures RootedLog(ps, pe', first, frames)
  {
    hide IsFrameEvent, ConsensusOrder, LastByCreator, RootHead;
    forall i | 0 <= i < |frames|
      ensures Rooted(ps, pe', LastByCreator(ConsensusOrder(frames[..i])), KnownBy(first, i), frames[i])
    {
      var f, last := frames[i], LastByCreator(ConsensusOrder(frames[..i]));
      forall p | p in f.roots
        ensures IsRoot(ps, pe', p, RootHead(f.events, last, p), f.roots[p])
      {
        RootGrows(ps, pe, pe', p, RootHead(f.events, last, p), f.roots[p]);
      }
    }
  }

  lemma RootGrows(ps: PeerSets, pe: map<Peer, seq<Event>>, pe': map<Peer, seq<Event>>, p: Peer, head: Option<Event>,
                  root: seq<FrameEvent>)
    requires IsRoot(ps, pe, p, head, root) && p in pe' && pe[p] <= pe'[p]
    ensures IsRoot(ps, pe', p, head, root)
  {
    hide IsFrameEvent;
    if head.Some? {
      var h := head.value.index;
      var lo := if h > ROOT_DEPTH then h - ROOT_DEPTH else 0;
      assert pe[p][lo..h + 1] == pe'[p][lo..h + 1];
    }
  }

  lemma RootedLogAppend(ps: PeerSets, pe: map<Peer, seq<Event>>, first: map<Peer, nat>, frames: seq<Frame>, f: Frame)
    requires RootedLog(ps, pe, first, frames)
    requires Rooted(ps, pe, LastByCreator(ConsensusOrder(frames)), KnownBy(first, |frames|), f)
    ensures RootedLog(ps, pe, first, frames + [f])
  {
    hide IsFrameEvent, ConsensusOrder, LastByCreator, IsRoot, Rooted, KnownBy;
    forall i | 0 <= i < |frames + [f]|
      ensures Rooted(ps, pe, LastByCreator(ConsensusOrder((frames + [f])[..i])), KnownBy(first, i), (frames + [f])[i])
    {
      if i < |frames| {
        assert (frames + [f])[..i] == frames[..i];
      } else {
        assert (frames + [f])[..i] == frames;
      }
    }
  }

  lemma {:induction false} LastByCreatorIn(s: seq<Event>, V: set<Event>)
    requires forall x :: x in s ==> x in V
    ensures forall p :: p in LastByCreator(s) ==> LastByCreator(s)[p] in V && LastByCreator(s)[p].creator == p
  {
    if s != [] { LastByCreatorIn(s[..|s| - 1], V); }
  }

  // ----- Loaded events

  /** An event is loaded if it carries a payload or is its creator's first. */
  predicate IsLoaded(x: Event) {
    x.index == 0 || |x.payload.transactions| > 0 || |x.payload.internalTransactions| > 0
  }

  /** The loaded events of V that are not committed. */
  function Unsettled(V: set<Event>, committed: seq<Event>): set<Event> {
    set x | x in V && IsLoaded(x) && x !in committed
  }

  lemma UnsettledCommit(V: set<Event>, committed: seq<Event>, x: Event)
    requires x in V && x !in committed
    ensures |Unsettled(V, committed + [x])| == |Unsettled(V, committed)| - if IsLoaded(x) then 1 else 0
    ensures IsLoaded(x) <==> x.index == 0 || x.payload.transactions != [] || x.payload.internalTransactions != []
  {
    var before := Unsettled(V, committed);
    assert Unsettled(V, committed + [x]) == before - {x};
  }

  lemma UnsettledInsert(V: set<Event>, committed: seq<Event>, x: Event)
    requires x !in V && x !in committed
    ensures |Unsettled(V + {x}, committed)| == |Unsettled(V, committed)| + if IsLoaded(x) then 1 else 0
  {
    var before := Unsettled(V, committed);
    assert Unsettled(V + {x}, committed) == if IsLoaded(x) then before + {x} else before;
  }
}
