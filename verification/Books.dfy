/** What a node has recorded, against its view: rounds, rounds-received and the log of frames. */
module Books {
  import opened Events
  import opened Rounds
  import opened Voting
  import opened Received
  import opened Ledger
  import opened RoundInfos

  /** An insertion order: every event comes once, after its parents. */
  ghost predicate Topological(V: set<Event>, order: seq<Event>) {
    && NoDuplicates(order)
    && (forall x :: x in order <==> x in V)
    && (forall k, p :: 0 <= k < |order| && p in Parents(order[k]) ==> p in order[..k])
  }

  lemma TopologicalAppend(V: set<Event>, order: seq<Event>, e: Event)
    requires Topological(V, order) && e !in V && Parents(e) <= V
    ensures Topological(V + {e}, order + [e])
  {
    forall k, p | 0 <= k < |order + [e]| && p in Parents((order + [e])[k])
      ensures p in (order + [e])[..k]
    {
      if k < |order| {
        assert (order + [e])[..k] == order[..k];
      } else {
        assert (order + [e])[..k] == order;
      }
    }
  }

  /** Recorded rounds-received are right, and each round lists the events received in it once. */
  ghost predicate ReceivedSound(ps: PeerSets, V: set<Event>, rounds: map<nat, RoundInfo>, rr: map<Event, nat>) {
    && (forall x :: x in rr ==> x in V && ReceivedIn(ps, V, DecidedRounds(rounds), x, rr[x]))
    && (forall r :: r in rounds ==> NoDuplicates(rounds[r].received))
    && (forall r, x :: r in rounds ==> (x in rounds[r].received <==> x in rr && rr[x] == r))
  }

  /** Every event that the view receives has its round-received recorded. */
  ghost predicate ReceivedComplete(ps: PeerSets, V: set<Event>, rounds: map<nat, RoundInfo>, rr: map<Event, nat>) {
    forall x, i: nat :: x in V && ReceivedIn(ps, V, DecidedRounds(rounds), x, i) ==> x in rr
  }

  /** The events of the frames in the log are recorded as received. */
  ghost predicate CommittedReceived(ps: PeerSets, V: set<Event>, rounds: map<nat, RoundInfo>, rr: map<Event, nat>,
                                    n: nat) {
    forall i, x :: 0 <= i < n && x in ReceivedEvents(ps, V, DecidedRounds(rounds), i) ==> x in rr
  }

  ghost predicate Kept(ps: PeerSets, V: set<Event>, rounds: map<nat, RoundInfo>, rr: map<Event, nat>,
                       frames: seq<Frame>) {
    && ReceivedSound(ps, V, rounds, rr)
    && IsLog(ps, V, DecidedRounds(rounds), frames)
    && CommittedReceived(ps, V, rounds, rr, |frames|)
  }

  /** An event keeps the round in which it was received. */
  lemma ReceivedStable(ps: PeerSets, V: set<Event>, D: set<nat>, V': set<Event>, D': set<nat>, x: Event, i: nat)
    requires SafeHistory(ps) && V <= V' && D <= D' && Knows(ps, V, D) && Knows(ps, V', D')
    requires ReceivedIn(ps, V, D, x, i)
    ensures ReceivedIn(ps, V', D', x, i)
  {
    hide Round, SafeElection, SeenByFamous;
    assert V + V' == V';
    forall k | Round(ps, x) < k <= i
      ensures SeenByFamous(ps, V, x, k) == SeenByFamous(ps, V', x, k)
    {
      assert k in D && k in D' && SafeElection(ps, k);
      SeenAgreement(ps, V, V', x, k);
    }
  }

  /** Learning events, and deciding rounds, leave what is recorded right. */
  lemma KeptGrows(ps: PeerSets, V: set<Event>, rounds: map<nat, RoundInfo>, V': set<Event>,
                  rounds': map<nat, RoundInfo>, rr: map<Event, nat>, frames: seq<Frame>)
    requires SafeHistory(ps) && V <= V' && Kept(ps, V, rounds, rr, frames)
    requires Knows(ps, V, DecidedRounds(rounds)) && Knows(ps, V', DecidedRounds(rounds'))
    requires DecidedRounds(rounds) <= DecidedRounds(rounds')
    requires rounds.Keys <= rounds'.Keys
    requires forall r :: r in rounds ==> rounds'[r].received == rounds[r].received
    requires forall r :: r in rounds' && r !in rounds ==> rounds'[r].received == []
    ensures Kept(ps, V', rounds', rr, frames)
  {
    hide SafeHistory, Knows, IsLog, ReceivedIn, ReceivedEvents, DecidedRounds;
    var D, D' := DecidedRounds(rounds), DecidedRounds(rounds');
    forall x | x in rr
      ensures ReceivedIn(ps, V', D', x, rr[x])
    {
      ReceivedStable(ps, V, D, V', D', x, rr[x]);
    }
    ReceivedRoundsFiled(ps, V, rounds, rr);
    LogStable(ps, V, D, V', D', frames);
    CommittedGrows(ps, V, rounds, V', rounds', rr, frames);
  }

  lemma ReceivedRoundsFiled(ps: PeerSets, V: set<Event>, rounds: map<nat, RoundInfo>, rr: map<Event, nat>)
    requires ReceivedSound(ps, V, rounds, rr)
    ensures forall x :: x in rr ==> rr[x] in rounds
  {
    hide Round, SeenByFamous;
    forall x | x in rr
      ensures rr[x] in rounds
    {
      assert rr[x] in DecidedRounds(rounds);
    }
  }

  lemma CommittedGrows(ps: PeerSets, V: set<Event>, rounds: map<nat, RoundInfo>, V': set<Event>,
                       rounds': map<nat, RoundInfo>, rr: map<Event, nat>, frames: seq<Frame>)
    requires SafeHistory(ps) && V <= V' && Kept(ps, V, rounds, rr, frames)
    requires Knows(ps, V, DecidedRounds(rounds)) && Knows(ps, V', DecidedRounds(rounds'))
    requires DecidedRounds(rounds) <= DecidedRounds(rounds')
    ensures CommittedReceived(ps, V', rounds', rr, |frames|)
  {
    hide SafeHistory, Knows, IsFrame, ReceivedSound, ReceivedEvents, DecidedRounds;
    var D, D' := DecidedRounds(rounds), DecidedRounds(rounds');
    forall i, x | 0 <= i < |frames| && x in ReceivedEvents(ps, V', D', i)
      ensures x in rr
    {
      assert V + V' == V';
      KnowsView(ps, V', D');
      ReceivedAgreement(ps, V, D, V', D', i);
    }
  }

  lemma KnowsView(ps: PeerSets, V: set<Event>, D: set<nat>)
    requires Knows(ps, V, D)
    ensures View(V)
  {
  }

  // ----- The queue of pending rounds

  datatype PendingRound = PendingRound(index: nat, decided: bool)

  /** Adds an item and keeps the order of indexes. */
  function Enqueue(queue: seq<PendingRound>, p: PendingRound): seq<PendingRound> {
    if queue == [] || p.index < queue[0].index then [p] + queue
    else [queue[0]] + Enqueue(queue[1..], p)
  }

  predicate Queued(queue: seq<PendingRound>, r: nat) {
    exists k :: 0 <= k < |queue| && queue[k].index == r
  }

  /** Rounds 0 to lastRound are known, the first n are processed, and the others are queued in
      order with their decision. */
  ghost predicate InOrder(queue: seq<PendingRound>, n: nat, lastRound: int, rounds: map<nat, RoundInfo>) {
    && n <= lastRound + 1 && |queue| == lastRound + 1 - n
    && (forall r :: r in rounds <==> 0 <= r <= lastRound)
    && (forall k :: 0 <= k < |queue| ==> queue[k] == PendingRound(n + k, rounds[n + k].decided))
    && (forall r :: 0 <= r < n ==> rounds[r].decided)
  }

  lemma {:induction false} EnqueueLast(queue: seq<PendingRound>, p: PendingRound)
    requires forall k :: 0 <= k < |queue| ==> queue[k].index <= p.index
    ensures Enqueue(queue, p) == queue + [p]
  {
    if queue != [] {
      EnqueueLast(queue[1..], p);
      assert queue == [queue[0]] + queue[1..];
    }
  }

  /** Filing an event of a known round, or of the next one, keeps the queue in order. */
  lemma QueueFiled(queue: seq<PendingRound>, n: nat, lastRound: int, rounds: map<nat, RoundInfo>, r: nat, x: Event,
                   w: bool, queue': seq<PendingRound>, lastRound': int)
    requires InOrder(queue, n, lastRound, rounds) && r <= lastRound + 1
    requires queue' == if !Queued(queue, r) && !InfoOf(rounds, r).decided
                       then Enqueue(queue, PendingRound(r, false)) else queue
    requires lastRound' == if r > lastRound then r else lastRound
    ensures InOrder(queue', n, lastRound', File(rounds, r, x, w))
  {
    if r <= lastRound {
      assert queue' == queue by {
        if r >= n { assert queue[r - n].index == r; }
      }
    } else {
      EnqueueLast(queue, PendingRound(r, false));
      assert queue' == queue + [PendingRound(r, false)];
    }
  }

  // ----- All of it together

  /** Elections, rounds-received and the log are right for view V, and rounds wait in order. */
  ghost predicate Balanced(ps: PeerSets, V: set<Event>, rounds: map<nat, RoundInfo>, lastRound: int,
                           queue: seq<PendingRound>, rr: map<Event, nat>, frames: seq<Frame>) {
    && Elections(ps, V, rounds)
    && Kept(ps, V, rounds, rr, frames)
    && InOrder(queue, |frames|, lastRound, rounds)
  }

  lemma BalancedFiled(ps: PeerSets, E: set<Event>, rounds: map<nat, RoundInfo>, lastRound: int,
                      queue: seq<PendingRound>, rr: map<Event, nat>, frames: seq<Frame>,
                      x: Event, queue': seq<PendingRound>, lastRound': int)
    requires SafeHistory(ps) && View(E) && View(E + {x}) && x !in E && Filed(ps, E, rounds)
    requires Balanced(ps, E, rounds, lastRound, queue, rr, frames)
    requires queue' == if !Queued(queue, Round(ps, x)) && !InfoOf(rounds, Round(ps, x)).decided
                       then Enqueue(queue, PendingRound(Round(ps, x), false)) else queue
    requires lastRound' == if Round(ps, x) > lastRound then Round(ps, x) else lastRound
    ensures Balanced(ps, E + {x}, File(rounds, Round(ps, x), x, Witness(ps, x)), lastRound', queue', rr, frames)
    ensures DecidedRounds(File(rounds, Round(ps, x), x, Witness(ps, x))) == DecidedRounds(rounds)
  {
    hide Round, Witness, SafeHistory, Elections, Kept, InOrder, View, Queued;
    var r, w := Round(ps, x), Witness(ps, x);
    var rounds' := File(rounds, r, x, w);
    ElectionsGrow(ps, E, E + {x}, rounds);
    ElectionsFiled(ps, E + {x}, rounds, r, x, w);
    ElectionsKnown(ps, E, rounds);
    ElectionsKnown(ps, E + {x}, rounds');
    KeptGrows(ps, E, rounds, E + {x}, rounds', rr, frames);
    NextRoundKnown(ps, E, rounds, lastRound, queue, frames, x);
    QueueFiled(queue, |frames|, lastRound, rounds, r, x, w, queue', lastRound');
  }

  /** The round of a new event is known, or the next. */
  lemma NextRoundKnown(ps: PeerSets, E: set<Event>, rounds: map<nat, RoundInfo>, lastRound: int,
                       queue: seq<PendingRound>, frames: seq<Frame>, x: Event)
    requires View(E + {x}) && x !in E && Filed(ps, E, rounds) && InOrder(queue, |frames|, lastRound, rounds)
    ensures Round(ps, x) <= lastRound + 1
  {
    hide Round, Witness, ParentRound, Queued;
    RoundMonotone(ps, x, x);
    if ParentRound(ps, x) >= 0 {
      var p := HighestParent(ps, x);
      ParentBelow(x, p);
      AncestorsInside(E + {x}, x);
      assert p in E;
      assert Round(ps, p) in rounds;
    }
  }

  /** Marks the rounds that were decided. */
  function MarkDecided(queue: seq<PendingRound>, decided: set<nat>): (q: seq<PendingRound>)
    ensures |q| == |queue|
    ensures forall k :: 0 <= k < |q| ==>
            q[k] == PendingRound(queue[k].index, queue[k].decided || queue[k].index in decided)
  {
    seq(|queue|, k requires 0 <= k < |queue| =>
      PendingRound(queue[k].index, queue[k].decided || queue[k].index in decided))
  }

  /** Every round whose known witnesses are all decided is marked decided. */
  ghost predicate Settled(ps: PeerSets, rounds: map<nat, RoundInfo>) {
    forall r :: r in rounds && rounds[r].Settles(ps(r)) ==> rounds[r].decided
  }

  /** How the store of rounds may change while fame is decided. */
  ghost predicate Advanced(rounds: map<nat, RoundInfo>, rounds': map<nat, RoundInfo>) {
    && rounds'.Keys == rounds.Keys
    && forall r :: r in rounds ==>
         rounds'[r].received == rounds[r].received && (rounds[r].decided ==> rounds'[r].decided)
  }

  /** The rounds from n to n + k - 1 have been settled; `decided` holds those that are decided. */
  ghost predicate Marked(ps: PeerSets, rounds: map<nat, RoundInfo>, n: nat, k: nat, decided: set<nat>) {
    && (forall r :: r in rounds && r < n + k && rounds[r].Settles(ps(r)) ==> rounds[r].decided)
    && (forall r :: r in rounds && n <= r < n + k ==> (rounds[r].decided <==> r in decided))
    && (forall r :: r in decided ==> n <= r < n + k)
  }

  lemma MarkedNext(ps: PeerSets, rounds: map<nat, RoundInfo>, n: nat, k: nat, decided: set<nat>,
                   rounds': map<nat, RoundInfo>)
    requires Marked(ps, rounds, n, k, decided) && rounds'.Keys == rounds.Keys && n + k in rounds
    requires forall r :: r in rounds && r != n + k ==> rounds'[r] == rounds[r]
    requires rounds'[n + k].Settles(ps(n + k)) ==> rounds'[n + k].decided
    ensures Marked(ps, rounds', n, k + 1, if rounds'[n + k].decided then decided + {n + k} else decided)
  {
  }

  lemma MarkedNone(ps: PeerSets, rounds: map<nat, RoundInfo>, lastRound: int, queue: seq<PendingRound>, n: nat)
    requires InOrder(queue, n, lastRound, rounds)
    ensures Marked(ps, rounds, n, 0, {}) && n + |queue| == lastRound + 1
    ensures forall r :: r in rounds <==> 0 <= r <= lastRound
    ensures forall k :: 0 <= k < |queue| ==> queue[k].index == n + k
  {
  }

  lemma MarkedAll(ps: PeerSets, rounds: map<nat, RoundInfo>, n: nat, k: nat, decided: set<nat>)
    requires Marked(ps, rounds, n, k, decided) && forall r :: r in rounds ==> r < n + k
    ensures Settled(ps, rounds) && forall r :: r in rounds && n <= r ==> (rounds[r].decided <==> r in decided)
  {
  }

  /** What the view decides of the rounds from n to n + k - 1 is recorded. */
  ghost predicate Concluded(ps: PeerSets, V: set<Event>, rounds: map<nat, RoundInfo>, n: nat, k: nat) {
    forall r :: r in rounds && n <= r < n + k ==> Conclusive(ps, V, r, rounds[r])
  }

  lemma ConcludedNext(ps: PeerSets, V: set<Event>, rounds: map<nat, RoundInfo>, n: nat, k: nat,
                      rounds': map<nat, RoundInfo>)
    requires Concluded(ps, V, rounds, n, k) && rounds'.Keys == rounds.Keys
    requires forall r :: r in rounds && r != n + k ==> rounds'[r] == rounds[r]
    requires n + k in rounds ==> Conclusive(ps, V, n + k, rounds'[n + k])
    ensures Concluded(ps, V, rounds', n, k + 1)
  {
    hide Conclusive;
  }

  lemma BalancedAdvanced(ps: PeerSets, V: set<Event>, rounds: map<nat, RoundInfo>, lastRound: int,
                         queue: seq<PendingRound>, rr: map<Event, nat>, frames: seq<Frame>,
                         rounds': map<nat, RoundInfo>, decided: set<nat>)
    requires SafeHistory(ps) && View(V) && Balanced(ps, V, rounds, lastRound, queue, rr, frames)
    requires Elections(ps, V, rounds') && Advanced(rounds, rounds')
    requires forall r :: r in rounds && |frames| <= r ==> (rounds'[r].decided <==> r in decided)
    ensures Balanced(ps, V, rounds', lastRound, MarkDecided(queue, decided), rr, frames)
  {
    hide SafeHistory, View, Elections, Kept;
    ElectionsKnown(ps, V, rounds);
    ElectionsKnown(ps, V, rounds');
    KeptGrows(ps, V, rounds, V, rounds', rr, frames);
  }

  // ----- Recording a round-received

  /** The events of s without a round-received, in their order. */
  function Remaining(s: seq<Event>, rr: map<Event, nat>): seq<Event> {
    if s == [] then []
    else Remaining(s[..|s| - 1], rr) + if s[|s| - 1] in rr then [] else [s[|s| - 1]]
  }

  lemma {:induction false} RemainingReceive(s: seq<Event>, rr: map<Event, nat>, x: Event, i: nat)
    requires x !in s
    ensures Remaining(s, rr[x := i]) == Remaining(s, rr)
  {
    if s != [] { RemainingReceive(s[..|s| - 1], rr, x, i); }
  }

  lemma {:induction false} RemainingMember(s: seq<Event>, rr: map<Event, nat>)
    ensures forall x :: x in Remaining(s, rr) <==> x in s && x !in rr
    ensures NoDuplicates(s) ==> NoDuplicates(Remaining(s, rr))
  {
    if s != [] {
      var t, x := s[..|s| - 1], s[|s| - 1];
      RemainingMember(t, rr);
      assert s == t + [x];
      assert NoDuplicates(s) ==> NoDuplicates(t) && x !in t;
    }
  }

  /** They keep their order. */
  lemma {:induction false} RemainingOrder(s: seq<Event>, rr: map<Event, nat>, i: nat, j: nat)
    requires i < j < |Remaining(s, rr)|
    ensures exists a, b :: 0 <= a < b < |s| && s[a] == Remaining(s, rr)[i] && s[b] == Remaining(s, rr)[j]
    decreases |s|
  {
    var n := |s| - 1;
    var rest := Remaining(s[..n], rr);
    if j < |rest| {
      RemainingOrder(s[..n], rr, i, j);
      var a, b :| 0 <= a < b < n && s[..n][a] == rest[i] && s[..n][b] == rest[j];
      assert s[a] == s[..n][a] && s[b] == s[..n][b];
    } else {
      RemainingMember(s[..n], rr);
      assert rest[i] in s[..n];
      var a :| 0 <= a < n && s[..n][a] == rest[i];
      assert s[a] == rest[i] && s[n] == Remaining(s, rr)[j];
    }
  }

  lemma RemainingNext(s: seq<Event>, k: nat, rr: map<Event, nat>)
    requires k < |s|
    ensures Remaining(s[..k + 1], rr) == Remaining(s[..k], rr) + if s[k] in rr then [] else [s[k]]
  {
    assert s[..k + 1][..k] == s[..k];
  }

  function Receive(rounds: map<nat, RoundInfo>, x: Event, i: nat): map<nat, RoundInfo>
    requires i in rounds
  {
    rounds[i := rounds[i].AddReceivedEvent(x)]
  }

  lemma BalancedReceived(ps: PeerSets, V: set<Event>, rounds: map<nat, RoundInfo>, lastRound: int,
                         queue: seq<PendingRound>, rr: map<Event, nat>, frames: seq<Frame>, x: Event, i: nat)
    requires Balanced(ps, V, rounds, lastRound, queue, rr, frames)
    requires i in rounds && x in V && x !in rr && ReceivedIn(ps, V, DecidedRounds(rounds), x, i)
    ensures Balanced(ps, V, Receive(rounds, x, i), lastRound, queue, rr[x := i], frames)
    ensures DecidedRounds(Receive(rounds, x, i)) == DecidedRounds(rounds)
  {
    hide IsLog, ReceivedIn, ReceivedEvents;
    var rounds', rr' := Receive(rounds, x, i), rr[x := i];
    assert DecidedRounds(rounds') == DecidedRounds(rounds);
    ReceivedElections(ps, V, rounds, x, i);
    ReceivedMore(ps, V, rounds, rr, x, i);
    assert CommittedReceived(ps, V, rounds', rr', |frames|);
  }

  lemma ConcludedReceived(ps: PeerSets, V: set<Event>, rounds: map<nat, RoundInfo>, x: Event, i: nat)
    requires i in rounds
    ensures forall n, k :: Concluded(ps, V, rounds, n, k) ==> Concluded(ps, V, Receive(rounds, x, i), n, k)
  {
    hide RoundDecided, FameDecided;
    assert forall r :: r in rounds && Conclusive(ps, V, r, rounds[r]) ==>
           Conclusive(ps, V, r, Receive(rounds, x, i)[r]);
  }

  lemma ReceivedElections(ps: PeerSets, V: set<Event>, rounds: map<nat, RoundInfo>, x: Event, i: nat)
    requires i in rounds && Elections(ps, V, rounds)
    ensures Elections(ps, V, Receive(rounds, x, i))
  {
    hide FameDecided, Frozen, FamousWitnesses;
    var info, info' := rounds[i], rounds[i].AddReceivedEvent(x);
    assert info'.FamousWitnesses() == info.FamousWitnesses();
    assert FameSound(ps, V, info');
  }

  lemma ReceivedMore(ps: PeerSets, V: set<Event>, rounds: map<nat, RoundInfo>, rr: map<Event, nat>, x: Event, i: nat)
    requires i in rounds && ReceivedSound(ps, V, rounds, rr)
    requires x in V && x !in rr && ReceivedIn(ps, V, DecidedRounds(rounds), x, i)
    ensures ReceivedSound(ps, V, Receive(rounds, x, i), rr[x := i])
  {
    hide ReceivedIn;
    var rounds', rr' := Receive(rounds, x, i), rr[x := i];
    assert DecidedRounds(rounds') == DecidedRounds(rounds);
    assert NoDuplicates(rounds'[i].received);
  }

  lemma ReceivedFiled(ps: PeerSets, E: set<Event>, rounds: map<nat, RoundInfo>, x: Event, i: nat)
    requires i in rounds
    ensures Filed(ps, E, rounds) ==> Filed(ps, E, Receive(rounds, x, i))
    ensures Settled(ps, rounds) ==> Settled(ps, Receive(rounds, x, i))
  {
    hide Round, Witness;
    var rounds' := Receive(rounds, x, i);
    assert rounds'[i].Witnesses() == rounds[i].Witnesses();
    assert rounds'[i].Settles(ps(i)) == rounds[i].Settles(ps(i));
  }

  /** The events listed under a decided round are those received in it. */
  lemma ListedAsReceived(ps: PeerSets, V: set<Event>, rounds: map<nat, RoundInfo>, rr: map<Event, nat>, i: nat)
    requires SafeHistory(ps) && Knows(ps, V, DecidedRounds(rounds)) && i in rounds
    requires ReceivedSound(ps, V, rounds, rr) && ReceivedComplete(ps, V, rounds, rr)
    ensures forall x :: x in rounds[i].received <==> x in ReceivedEvents(ps, V, DecidedRounds(rounds), i)
  {
    hide ReceivedIn, DecidedRounds, SafeHistory, Knows, NoDuplicates;
    var D := DecidedRounds(rounds);
    forall x
      ensures x in rounds[i].received <==> x in ReceivedEvents(ps, V, D, i)
    {
      if x in rounds[i].received {
        assert x in rr && ReceivedIn(ps, V, D, x, rr[x]);
      }
      if x in ReceivedEvents(ps, V, D, i) {
        assert ReceivedIn(ps, V, D, x, i);
        assert x in rr && ReceivedIn(ps, V, D, x, rr[x]);
        OneRound(ps, V, D, x, i, rr[x]);
      }
    }
  }

  // ----- Processing the next round

  lemma BalancedProcessed(ps: PeerSets, V: set<Event>, rounds: map<nat, RoundInfo>, lastRound: int,
                          queue: seq<PendingRound>, rr: map<Event, nat>, frames: seq<Frame>, f: Frame)
    requires Balanced(ps, V, rounds, lastRound, queue, rr, frames) && ReceivedComplete(ps, V, rounds, rr)
    requires queue != [] && queue[0].decided && IsFrame(ps, V, DecidedRounds(rounds), |frames|, f)
    ensures Balanced(ps, V, rounds, lastRound, queue[1..], rr, frames + [f])
  {
    hide Elections, IsFrame, ReceivedSound, ReceivedIn;
    var n, D := |frames|, DecidedRounds(rounds);
    assert n in D;
    assert CommittedReceived(ps, V, rounds, rr, n + 1) by {
      forall i, x | 0 <= i < n + 1 && x in ReceivedEvents(ps, V, D, i)
        ensures x in rr
      {
      }
    }
  }

  /** What is left of the queue once some rounds are processed. */
  function Clean(queue: seq<PendingRound>, processed: set<nat>): seq<PendingRound> {
    if queue == [] then []
    else if queue[0].index in processed then Clean(queue[1..], processed)
    else [queue[0]] + Clean(queue[1..], processed)
  }

  lemma {:induction false} CleanPrefix(queue: seq<PendingRound>, k: nat, processed: set<nat>)
    requires k <= |queue| && forall j :: 0 <= j < |queue| ==> (queue[j].index in processed <==> j < k)
    ensures Clean(queue, processed) == queue[k..]
  {
    if queue != [] {
      CleanPrefix(queue[1..], if k > 0 then k - 1 else 0, processed);
      assert k > 0 ==> queue[1..][k - 1..] == queue[k..];
      assert k == 0 ==> queue == [queue[0]] + queue[1..];
    }
  }
}
