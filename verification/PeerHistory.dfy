/** The history of peer-sets: which peers take part in consensus at each round (PeerSetCache in
    src/hashgraph/caches.go, processAcceptedInternalTransactions in src/node/core.go). */
module PeerHistory {
  import opened Events
  import opened Medians

  type History = map<int, set<Peer>>

  /** r is the start of the entry in force at a round: the last one not after it, or else the first. */
  ghost predicate InForce(h: History, round: int, r: int) {
    && r in h
    && if r <= round then forall q :: q in h && q <= round ==> q <= r
       else forall q :: q in h ==> r <= q
  }

  lemma InForceUnique(h: History, round: int, r: int, r': int)
    requires InForce(h, round, r) && InForce(h, round, r')
    ensures r == r'
  {
  }

  ghost predicate StrictlySorted(s: seq<int>) {
    forall i, j :: 0 <= i < j < |s| ==> s[i] < s[j]
  }

  /** The first round of each peer that was ever in a peer-set. */
  ghost predicate FirstRounds(h: History, first: map<Peer, int>) {
    && (forall r, p :: r in h && p in h[r] ==> p in first && first[p] <= r)
    && (forall p :: p in first ==> first[p] in h && p in h[first[p]])
  }

  class PeerSetCache {
    var rounds: seq<int>
    var peerSets: History
    var firstRounds: map<Peer, int>

    ghost predicate Valid()
      reads this
    {
      && StrictlySorted(rounds) && (forall r :: r in rounds <==> r in peerSets)
      && FirstRounds(peerSets, firstRounds)
    }

    constructor ()
      ensures Valid() && peerSets == map[]
    {
      rounds, peerSets, firstRounds := [], map[], map[];
    }

    /** Records a peer-set, unless there is one for that round. */
    method Set(round: int, peerSet: set<Peer>) returns (alreadyExists: bool)
      requires Valid()
      modifies this
      ensures Valid() && alreadyExists == (round in old(peerSets))
      ensures peerSets == if alreadyExists then old(peerSets) else old(peerSets)[round := peerSet]
    {
      hide FirstRounds, StrictlySorted;
      if round in peerSets {
        return true;
      }
      ghost var was := rounds;
      SortedRounds(rounds);
      rounds := InsertSorted(rounds, round);
      StrictInsert(was, rounds, round);
      NewFirstRounds(peerSets, firstRounds, round, peerSet);
      firstRounds := map p | p in firstRounds.Keys + peerSet ::
        if p in peerSet && (p !in firstRounds || firstRounds[p] > round) then round else firstRounds[p];
      peerSets := peerSets[round := peerSet];
      return false;
    }

    /** The peer-set in force at a round. */
    method Get(round: int) returns (peerSet: Option<set<Peer>>)
      requires Valid()
      ensures peerSet.None? <==> peerSets == map[]
      ensures peerSet.Some? ==> exists r :: InForce(peerSets, round, r) && peerSet.value == peerSets[r]
    {
      hide FirstRounds;
      if round in peerSets {
        assert InForce(peerSets, round, round);
        return Some(peerSets[round]);
      }
      if |rounds| == 0 {
        assert forall r :: r in peerSets.Keys <==> r in rounds;
        assert peerSets.Keys == {};
        return None;
      }
      assert forall i :: 0 <= i < |rounds| ==> rounds[i] in rounds && rounds[i] in peerSets;
      if round < rounds[0] {
        assert InForce(peerSets, round, rounds[0]);
        return Some(peerSets[rounds[0]]);
      }
      for i := 0 to |rounds| - 1
        invariant rounds[i] <= round
      {
        if round >= rounds[i] && round < rounds[i + 1] {
          assert InForce(peerSets, round, rounds[i]);
          return Some(peerSets[rounds[i]]);
        }
      }
      assert InForce(peerSets, round, rounds[|rounds| - 1]);
      return Some(peerSets[rounds[|rounds| - 1]]);
    }
  }

  lemma SortedRounds(s: seq<int>)
    requires StrictlySorted(s)
    ensures Sorted(s)
  {
  }

  lemma StrictInsert(s: seq<int>, t: seq<int>, n: int)
    requires StrictlySorted(s) && Sorted(t) && multiset(t) == multiset(s) + multiset{n} && n !in s
    ensures StrictlySorted(t) && forall r :: r in t <==> r in s || r == n
  {
    assert forall r :: r in t <==> r in multiset(t);
    assert forall r :: r in s <==> r in multiset(s);
    forall r
      ensures multiset(t)[r] <= 1
    {
      StrictOnce(s, r);
    }
    forall i, j | 0 <= i < j < |t|
      ensures t[i] < t[j]
    {
      if t[i] == t[j] {
        Twice(t, i, j);
      }
    }
  }

  lemma {:induction false} StrictOnce(s: seq<int>, r: int)
    requires StrictlySorted(s)
    ensures multiset(s)[r] <= 1
  {
    if s != [] {
      var n := |s| - 1;
      StrictOnce(s[..n], r);
      assert s == s[..n] + [s[n]];
      assert forall i :: 0 <= i < n ==> s[..n][i] < s[n];
      assert s[n] !in s[..n];
    }
  }

  lemma Twice(t: seq<int>, i: nat, j: nat)
    requires i < j < |t| && t[i] == t[j]
    ensures multiset(t)[t[i]] >= 2
  {
    assert t == t[..j] + [t[j]] + t[j + 1..];
    assert t[i] in t[..j];
  }

  lemma NewFirstRounds(h: History, first: map<Peer, int>, round: int, peerSet: set<Peer>)
    requires FirstRounds(h, first) && round !in h
    ensures FirstRounds(h[round := peerSet], map p | p in first.Keys + peerSet ::
      if p in peerSet && (p !in first || first[p] > round) then round else first[p])
  {
  }

  // ----- Changes of the peer-set, as blocks are committed

  datatype Receipt = Receipt(transaction: InternalTransaction, accepted: bool)

  /** The round a block was received in, and the application's receipts for it. */
  datatype Commit = Commit(roundReceived: nat, receipts: seq<Receipt>)

  /** How long after a block is received the changes in it take effect. */
  const EFFECTIVE_AFTER: nat := 6

  function Applied(validators: set<Peer>, receipts: seq<Receipt>): set<Peer> {
    if receipts == [] then validators
    else
      var r := receipts[|receipts| - 1];
      var before := Applied(validators, receipts[..|receipts| - 1]);
      if !r.accepted then before
      else match r.transaction.kind
        case PeerAdd => before + {r.transaction.peer}
        case PeerRemove => before - {r.transaction.peer}
  }

  /** Receipt k is the last accepted one about its peer. */
  ghost predicate Settles(receipts: seq<Receipt>, k: int) {
    && 0 <= k < |receipts| && receipts[k].accepted
    && forall j :: k < j < |receipts| && receipts[j].accepted ==>
         receipts[j].transaction.peer != receipts[k].transaction.peer
  }

  /** No accepted receipt is about p. */
  ghost predicate Untouched(receipts: seq<Receipt>, p: Peer) {
    forall j :: 0 <= j < |receipts| && receipts[j].accepted ==> receipts[j].transaction.peer != p
  }

  /** The last accepted receipt about a peer says whether it is in; the other peers stay as they were. */
  ghost predicate AsReceived(validators: set<Peer>, receipts: seq<Receipt>, validators': set<Peer>) {
    && (forall k :: Settles(receipts, k) ==>
          (receipts[k].transaction.peer in validators' <==> receipts[k].transaction.kind == PeerAdd))
    && (forall p :: Untouched(receipts, p) ==> (p in validators' <==> p in validators))
  }

  lemma AppliedExactly(validators: set<Peer>, receipts: seq<Receipt>, validators': set<Peer>)
    ensures validators' == Applied(validators, receipts) <==> AsReceived(validators, receipts, validators')
  {
    hide Untouched, Applied;
    forall k | Settles(receipts, k)
      ensures receipts[k].transaction.peer in Applied(validators, receipts) <==>
              receipts[k].transaction.kind == PeerAdd
    {
      SettlesApplied(validators, receipts, k);
    }
    forall p
      ensures Untouched(receipts, p) ==> (p in Applied(validators, receipts) <==> p in validators)
      ensures AsReceived(validators, receipts, validators') ==>
                (p in validators' <==> p in Applied(validators, receipts))
    {
      UntouchedApplied(validators, receipts, p);
      SettledOrUntouched(receipts, p);
    }
  }

  lemma {:induction false} SettlesApplied(validators: set<Peer>, receipts: seq<Receipt>, k: int)
    requires Settles(receipts, k)
    ensures receipts[k].transaction.peer in Applied(validators, receipts) <==>
            receipts[k].transaction.kind == PeerAdd
    decreases |receipts|
  {
    var n := |receipts| - 1;
    if k < n {
      assert receipts[..n][k] == receipts[k];
      SettlesApplied(validators, receipts[..n], k);
    }
  }

  lemma {:induction false} UntouchedApplied(validators: set<Peer>, receipts: seq<Receipt>, p: Peer)
    ensures Untouched(receipts, p) ==> (p in Applied(validators, receipts) <==> p in validators)
  {
    if Untouched(receipts, p) && receipts != [] {
      UntouchedApplied(validators, receipts[..|receipts| - 1], p);
    }
  }

  lemma {:induction false} SettledOrUntouched(receipts: seq<Receipt>, p: Peer)
    ensures Untouched(receipts, p) || exists k :: Settles(receipts, k) && receipts[k].transaction.peer == p
  {
    if receipts != [] {
      var n := |receipts| - 1;
      if receipts[n].accepted && receipts[n].transaction.peer == p {
        assert Settles(receipts, n);
      } else {
        SettledOrUntouched(receipts[..n], p);
        if !Untouched(receipts[..n], p) {
          var k :| Settles(receipts[..n], k) && receipts[..n][k].transaction.peer == p;
          forall j | k < j < |receipts| && receipts[j].accepted
            ensures receipts[j].transaction.peer != p
          {
            if j < n { assert receipts[..n][j] == receipts[j]; }
          }
          assert Settles(receipts, k);
        } else {
          forall j | 0 <= j < |receipts| && receipts[j].accepted
            ensures receipts[j].transaction.peer != p
          {
            if j < n { assert receipts[..n][j] == receipts[j]; }
          }
        }
      }
    }
  }

  predicate Changes(receipts: seq<Receipt>) {
    exists k :: 0 <= k < |receipts| && receipts[k].accepted
  }

  /** The validators after all commits. */
  ghost function ValidatorsAfter(genesis: set<Peer>, commits: seq<Commit>): set<Peer> {
    if commits == [] then genesis
    else Applied(ValidatorsAfter(genesis, commits[..|commits| - 1]), commits[|commits| - 1].receipts)
  }

  /** The history after all commits. */
  ghost function HistoryAfter(genesis: set<Peer>, commits: seq<Commit>): History {
    if commits == [] then map[0 := genesis]
    else
      var c := commits[|commits| - 1];
      var before := HistoryAfter(genesis, commits[..|commits| - 1]);
      if Changes(c.receipts) then
        before[c.roundReceived + EFFECTIVE_AFTER := ValidatorsAfter(genesis, commits)]
      else
        before
  }

  ghost predicate Increasing(commits: seq<Commit>) {
    forall i, j :: 0 <= i < j < |commits| ==> commits[i].roundReceived < commits[j].roundReceived
  }

  /** The history never starts anew, and reaches as far as the last block. */
  lemma {:induction false} HistoryKeys(genesis: set<Peer>, commits: seq<Commit>)
    requires Increasing(commits)
    ensures 0 in HistoryAfter(genesis, commits)
    ensures forall r :: r in HistoryAfter(genesis, commits) ==> r == 0 || EFFECTIVE_AFTER <= r
    ensures forall r :: r in HistoryAfter(genesis, commits) && r > 0 ==>
              commits != [] && r <= commits[|commits| - 1].roundReceived + EFFECTIVE_AFTER
  {
    if commits != [] {
      var n := |commits| - 1;
      HistoryKeys(genesis, commits[..n]);
      assert n > 0 ==> commits[..n][n - 1] == commits[n - 1];
    }
  }

  /** An entry that starts after a round changes nothing for it, once there is one that does not. */
  lemma LaterEntry(h: History, round: nat, later: int, peerSet: set<Peer>, r: int)
    requires 0 in h && later > round
    ensures InForce(h[later := peerSet], round, r) <==> InForce(h, round, r)
  {
    var h' := h[later := peerSet];
    assert 0 in h';
    assert InForce(h', round, r) ==> r <= round;
    assert InForce(h, round, r) ==> r <= round;
    assert forall q :: q in h ==> q in h';
  }

  /** The peer-set at a round depends only on the blocks received six rounds before it, or earlier:
      blocks received later change nothing. */
  lemma {:induction false} HistorySettled(genesis: set<Peer>, commits: seq<Commit>, n: nat, round: nat, r: int)
    requires Increasing(commits) && n <= |commits|
    requires forall i :: n <= i < |commits| ==> commits[i].roundReceived + EFFECTIVE_AFTER > round
    ensures InForce(HistoryAfter(genesis, commits), round, r) <==>
            InForce(HistoryAfter(genesis, commits[..n]), round, r)
    ensures InForce(HistoryAfter(genesis, commits), round, r) ==>
              HistoryAfter(genesis, commits)[r] == HistoryAfter(genesis, commits[..n])[r]
    decreases |commits|
  {
    if n < |commits| {
      var m := |commits| - 1;
      assert commits[..m][..n] == commits[..n];
      HistorySettled(genesis, commits[..m], n, round, r);
      HistoryKeys(genesis, commits[..m]);
      LaterEntry(HistoryAfter(genesis, commits[..m]), round, commits[m].roundReceived + EFFECTIVE_AFTER,
                 ValidatorsAfter(genesis, commits), r);
    } else {
      assert commits[..n] == commits;
    }
  }

  /** The peer-set in force is that of the last change six rounds before or earlier. */
  lemma HistoryAgreement(genesis: set<Peer>, c1: seq<Commit>, c2: seq<Commit>, n: nat, round: nat, r1: int, r2: int)
    requires Increasing(c1) && Increasing(c2) && n <= |c1| && n <= |c2| && c1[..n] == c2[..n]
    requires forall i :: n <= i < |c1| ==> c1[i].roundReceived + EFFECTIVE_AFTER > round
    requires forall i :: n <= i < |c2| ==> c2[i].roundReceived + EFFECTIVE_AFTER > round
    requires InForce(HistoryAfter(genesis, c1), round, r1) && InForce(HistoryAfter(genesis, c2), round, r2)
    ensures r1 == r2 && HistoryAfter(genesis, c1)[r1] == HistoryAfter(genesis, c2)[r2]
  {
    HistorySettled(genesis, c1, n, round, r1);
    HistorySettled(genesis, c2, n, round, r2);
    InForceUnique(HistoryAfter(genesis, c1[..n]), round, r1, r2);
  }

  /** The part of a node that follows changes of the peer-set. */
  class Membership {
    const peerSets: PeerSetCache
    var validators: set<Peer>
    var targetRound: int
    var lastPeerChangeRound: int

    ghost predicate Follows(genesis: set<Peer>, commits: seq<Commit>)
      reads this, peerSets
    {
      && peerSets.Valid() && Increasing(commits)
      && validators == ValidatorsAfter(genesis, commits)
      && peerSets.peerSets == HistoryAfter(genesis, commits)
    }

    constructor (genesis: set<Peer>)
      ensures Follows(genesis, []) && fresh(peerSets)
    {
      peerSets := new PeerSetCache();
      validators, targetRound, lastPeerChangeRound := genesis, -1, -1;
      new;
      var _ := peerSets.Set(0, genesis);
    }

    /** Applies the accepted receipts of a block; if any, the new peer-set takes effect six rounds
        after the one in which the block was received. */
    method ProcessAcceptedInternalTransactions(roundReceived: nat, receipts: seq<Receipt>,
                                               ghost genesis: set<Peer>, ghost commits: seq<Commit>)
      returns (error: bool)
      requires Follows(genesis, commits)
      requires commits != [] ==> commits[|commits| - 1].roundReceived < roundReceived
      modifies this, peerSets
      ensures !error && Follows(genesis, commits + [Commit(roundReceived, receipts)])
      ensures AsReceived(old(validators), receipts, validators)
      ensures (exists k :: 0 <= k < |receipts| && receipts[k].accepted) ==>
                && peerSets.peerSets == old(peerSets.peerSets)[roundReceived + 6 := validators]
                && AsReceived(old(validators), receipts, peerSets.peerSets[roundReceived + 6])
                && lastPeerChangeRound == roundReceived + 6 <= targetRound
                && (targetRound == old(targetRound) || old(targetRound) < targetRound == roundReceived + 6)
      ensures (forall k :: 0 <= k < |receipts| ==> !receipts[k].accepted) ==> unchanged(this) && unchanged(peerSets)
    {
      hide Increasing, InForce, AsReceived;
      AppliedExactly(validators, receipts, Applied(validators, receipts));
      var effectiveRound := roundReceived + EFFECTIVE_AFTER;
      var validators', changed := ApplyReceipts(validators, receipts);
      CommitNext(genesis, commits, Commit(roundReceived, receipts));
      if changed {
        lastPeerChangeRound := effectiveRound;
        error := peerSets.Set(effectiveRound, validators');
        if error {
          return;
        }
        validators := validators';
        if effectiveRound > targetRound {
          targetRound := effectiveRound;
        }
      }
      error := false;
    }
  }

  method ApplyReceipts(validators: set<Peer>, receipts: seq<Receipt>) returns (validators': set<Peer>, changed: bool)
    ensures validators' == Applied(validators, receipts) && changed == Changes(receipts)
  {
    validators' := validators;
    changed := false;
    for k := 0 to |receipts|
      invariant validators' == Applied(validators, receipts[..k]) && changed == Changes(receipts[..k])
    {
      var r := receipts[k];
      assert receipts[..k + 1][..k] == receipts[..k];
      if r.accepted {
        match r.transaction.kind {
          case PeerAdd => validators' := validators' + {r.transaction.peer};
          case PeerRemove => validators' := validators' - {r.transaction.peer};
        }
        assert receipts[..k + 1][k].accepted;
        changed := true;
      } else {
        assert Changes(receipts[..k + 1]) ==> Changes(receipts[..k]) by {
          if Changes(receipts[..k + 1]) {
            var j :| 0 <= j < k + 1 && receipts[..k + 1][j].accepted;
            assert receipts[..k][j].accepted;
          }
        }
        assert Changes(receipts[..k]) ==> Changes(receipts[..k + 1]) by {
          if Changes(receipts[..k]) {
            var j :| 0 <= j < k && receipts[..k][j].accepted;
            assert receipts[..k + 1][j].accepted;
          }
        }
      }
    }
    assert receipts[..|receipts|] == receipts;
  }

  /** The next block adds an entry for a new round, if it changes anything. */
  lemma CommitNext(genesis: set<Peer>, commits: seq<Commit>, c: Commit)
    requires Increasing(commits) && (commits != [] ==> commits[|commits| - 1].roundReceived < c.roundReceived)
    ensures Increasing(commits + [c]) && c.roundReceived + EFFECTIVE_AFTER !in HistoryAfter(genesis, commits)
    ensures ValidatorsAfter(genesis, commits + [c]) == Applied(ValidatorsAfter(genesis, commits), c.receipts)
    ensures !Changes(c.receipts) ==> ValidatorsAfter(genesis, commits + [c]) == ValidatorsAfter(genesis, commits)
    ensures HistoryAfter(genesis, commits + [c]) ==
            if Changes(c.receipts)
            then HistoryAfter(genesis, commits)[
                   c.roundReceived + EFFECTIVE_AFTER := ValidatorsAfter(genesis, commits + [c])]
            else HistoryAfter(genesis, commits)
  {
    hide Changes;
    assert (commits + [c])[..|commits|] == commits;
    HistoryKeys(genesis, commits);
    if !Changes(c.receipts) { NoChange(ValidatorsAfter(genesis, commits), c.receipts); }
  }

  lemma {:induction false} NoChange(validators: set<Peer>, receipts: seq<Receipt>)
    requires !Changes(receipts)
    ensures Applied(validators, receipts) == validators
  {
    if receipts != [] {
      var n := |receipts| - 1;
      assert !receipts[n].accepted;
      forall k | 0 <= k < n
        ensures !receipts[..n][k].accepted
      {
      }
      NoChange(validators, receipts[..n]);
    }
  }
}
