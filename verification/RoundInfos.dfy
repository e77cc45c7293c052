/** What a node stores about each round (src/hashgraph/roundInfo.go), and how it relates
    to the node's view. */
module RoundInfos {
  import opened Events
  import opened Rounds
  import opened Voting
  import opened Received

  datatype Trilean = Undefined | True | False

  datatype RoundEvent = RoundEvent(isWitness: bool, famous: Trilean)

  datatype RoundInfo = RoundInfo(created: map<Event, RoundEvent>, received: seq<Event>, decided: bool) {

    function Witnesses(): set<Event> {
      set x | x in created && created[x].isWitness
    }

    function FamousWitnesses(): set<Event> {
      set x | x in created && created[x].isWitness && created[x].famous == True
    }

    predicate IsDecided(x: Event) {
      x in created && created[x].isWitness && created[x].famous != Undefined
    }

    /** All known witnesses are decided, and they are a super-majority of the peers. */
    predicate Settles(peers: set<Peer>) {
      && (forall x :: x in created && created[x].isWitness ==> created[x].famous != Undefined)
      && |Witnesses()| >= Threshold(peers)
    }

    function AddCreatedEvent(x: Event, isWitness: bool): RoundInfo {
      if x in created then this else this.(created := created[x := RoundEvent(isWitness, Undefined)])
    }

    function SetFame(x: Event, f: bool): RoundInfo {
      var e := if x in created then created[x] else RoundEvent(true, Undefined);
      this.(created := created[x := e.(famous := if f then True else False)])
    }

    function AddReceivedEvent(x: Event): RoundInfo {
      this.(received := received + [x])
    }

    /** Sticky: a decided round stays decided whatever witnesses are added to it. */
    method WitnessesDecided(peers: set<Peer>) returns (result: bool, info: RoundInfo)
      ensures result <==> decided || Settles(peers)
      ensures info == this.(decided := result)
    {
      if decided {
        return true, this;
      }
      info := this;
      var c: nat := 0;
      var todo := created.Keys;
      ghost var counted: set<Event> := {};
      while todo != {}
        invariant info == this
        invariant todo <= created.Keys
        invariant counted == set x | x in created.Keys - todo && created[x].isWitness
        invariant forall x :: x in counted ==> created[x].famous != Undefined
        invariant c == |counted|
        decreases todo
      {
        var x :| x in todo;
        todo := todo - {x};
        if created[x].isWitness && created[x].famous != Undefined {
          counted := counted + {x};
          c := c + 1;
        } else if created[x].isWitness && created[x].famous == Undefined {
          return false, info;
        }
      }
      assert counted == Witnesses();
      result := c >= Threshold(peers);
      info := this.(decided := result);
    }
  }

  const NewRoundInfo: RoundInfo := RoundInfo(map[], [], false)

  // ----- What the stored rounds say about a view

  /** The events of E, and only they, are filed under their round with their witness flag. */
  ghost predicate Filed(ps: PeerSets, E: set<Event>, rounds: map<nat, RoundInfo>) {
    && (forall r, x :: r in rounds && x in rounds[r].created ==>
          x in E && Round(ps, x) == r && (rounds[r].created[x].isWitness <==> Witness(ps, x)))
    && (forall x :: x in E ==> Round(ps, x) in rounds && x in rounds[Round(ps, x)].created)
  }

  /** Recorded fame is decided by the view, and only witnesses have any. */
  ghost predicate FameSound(ps: PeerSets, V: set<Event>, info: RoundInfo) {
    forall x :: x in info.created && info.created[x].famous != Undefined ==>
      info.created[x].isWitness && FameDecided(ps, V, x, info.created[x].famous == True)
  }

  /** Every witness whose fame the view decides has it recorded. */
  ghost predicate FameComplete(ps: PeerSets, V: set<Event>, info: RoundInfo) {
    forall x, v :: x in info.created && info.created[x].isWitness && FameDecided(ps, V, x, v) ==>
      info.created[x].famous == if v then True else False
  }

  /** What the view decides of round r is recorded: the fame of its witnesses, and that it is decided. */
  ghost predicate Conclusive(ps: PeerSets, V: set<Event>, r: nat, info: RoundInfo) {
    FameComplete(ps, V, info) && (RoundDecided(ps, V, r) ==> info.decided)
  }

  /** A decided round was decided by a view that is still known, and records the famous
      witnesses of the present view. */
  ghost predicate DecidedSound(ps: PeerSets, V: set<Event>, r: nat, info: RoundInfo) {
    info.decided ==> Frozen(ps, V, r) && info.FamousWitnesses() == FamousWitnesses(ps, V, r)
  }

  ghost predicate Elections(ps: PeerSets, V: set<Event>, rounds: map<nat, RoundInfo>) {
    forall r :: r in rounds ==> FameSound(ps, V, rounds[r]) && DecidedSound(ps, V, r, rounds[r])
  }

  function DecidedRounds(rounds: map<nat, RoundInfo>): set<nat> {
    set r | r in rounds && rounds[r].decided
  }

  lemma FiledWitnesses(ps: PeerSets, E: set<Event>, rounds: map<nat, RoundInfo>, r: nat)
    requires Filed(ps, E, rounds) && r in rounds
    ensures rounds[r].Witnesses() == WitnessesIn(ps, E, r)
  {
    hide Round, Witness;
  }

  lemma ElectionsKnown(ps: PeerSets, V: set<Event>, rounds: map<nat, RoundInfo>)
    requires View(V) && Elections(ps, V, rounds)
    ensures Knows(ps, V, DecidedRounds(rounds))
  {
    hide Frozen, FamousWitnesses, FameSound;
  }

  lemma FameDecidedGrows(ps: PeerSets, V: set<Event>, V': set<Event>, x: Event, v: bool)
    requires V <= V' && FameDecided(ps, V, x, v)
    ensures FameDecided(ps, V', x, v)
  {
    hide Witness, Decides, Majority;
  }

  lemma FrozenGrows(ps: PeerSets, V: set<Event>, V': set<Event>, r: nat)
    requires V <= V' && Frozen(ps, V, r)
    ensures Frozen(ps, V', r)
  {
    hide RoundDecided;
    var V0 :| V0 <= V && View(V0) && RoundDecided(ps, V0, r);
    assert V0 <= V';
  }

  /** Learning events does not unsettle what is stored. */
  lemma ElectionsGrow(ps: PeerSets, V: set<Event>, V': set<Event>, rounds: map<nat, RoundInfo>)
    requires View(V) && View(V') && V <= V' && SafeHistory(ps) && Elections(ps, V, rounds)
    ensures Elections(ps, V', rounds)
  {
    hide FameDecided, Frozen, FamousWitnesses, SafeElection;
    forall r | r in rounds
      ensures FameSound(ps, V', rounds[r]) && DecidedSound(ps, V', r, rounds[r])
    {
      forall x | x in rounds[r].created && rounds[r].created[x].famous != Undefined
        ensures FameDecided(ps, V', x, rounds[r].created[x].famous == True)
      {
        FameDecidedGrows(ps, V, V', x, rounds[r].created[x].famous == True);
      }
      if rounds[r].decided {
        assert SafeElection(ps, r);
        FrozenGrows(ps, V, V', r);
        assert V + V' == V';
        FrozenFamous(ps, V, V', r);
      }
    }
  }

  /** Decided rounds stay decided, with the same famous witnesses. */
  ghost predicate Lasting(rounds: map<nat, RoundInfo>, rounds': map<nat, RoundInfo>) {
    forall r :: r in rounds && rounds[r].decided ==>
      r in rounds' && rounds'[r].decided && rounds'[r].FamousWitnesses() == rounds[r].FamousWitnesses()
  }

  lemma DecisionsLast(ps: PeerSets, V: set<Event>, rounds: map<nat, RoundInfo>, V': set<Event>,
                      rounds': map<nat, RoundInfo>)
    requires View(V) && View(V') && V <= V' && SafeHistory(ps) && Elections(ps, V, rounds) && Elections(ps, V', rounds')
    requires DecidedRounds(rounds) <= DecidedRounds(rounds')
    ensures Lasting(rounds, rounds')
  {
    hide FameSound, Frozen, Voting.FamousWitnesses, SafeElection, View;
    assert V + V' == V';
    forall r | r in rounds && rounds[r].decided
      ensures r in rounds' && rounds'[r].decided && rounds'[r].FamousWitnesses() == rounds[r].FamousWitnesses()
    {
      assert r in DecidedRounds(rounds) && SafeElection(ps, r);
      FrozenFamous(ps, V, V', r);
    }
  }

  /** The view decides at most one value for a witness. */
  lemma FameFunctional(ps: PeerSets, V: set<Event>, x: Event)
    requires View(V) && SafeHistory(ps) && FameDecided(ps, V, x, true)
    ensures !FameDecided(ps, V, x, false)
  {
    hide Round, Witness, SafeElection, Majority, Tally;
    if FameDecided(ps, V, x, false) {
      var y :| y in V && Witness(ps, y) && Decides(ps, y, x) && Majority(ps, y, x) == true;
      var y' :| y' in V && Witness(ps, y') && Decides(ps, y', x) && Majority(ps, y', x) == false;
      assert SafeElection(ps, Round(ps, x));
      FameAgreement(ps, V, x, y, y');
    }
  }

  /** After an election over the whole view, a settled round is decided by that view, with the
      recorded famous witnesses; and a round that was decided keeps the ones it had. */
  lemma ElectionSettles(ps: PeerSets, V: set<Event>, rounds: map<nat, RoundInfo>, r: nat, info: RoundInfo)
    requires View(V) && SafeHistory(ps) && r in rounds
    requires info.Witnesses() == WitnessesIn(ps, V, r)
    requires FameSound(ps, V, info) && FameComplete(ps, V, info)
    requires info.decided ==> Frozen(ps, V, r)
    ensures info.FamousWitnesses() == FamousWitnesses(ps, V, r)
    ensures info.Settles(ps(r)) <==> RoundDecided(ps, V, r)
    ensures info.Settles(ps(r)) ==> Frozen(ps, V, r)
  {
    hide Round, Witness, FameDecided;
    forall x
      ensures x in info.FamousWitnesses() <==> x in FamousWitnesses(ps, V, r)
    {
      assert x in info.Witnesses() <==> x in WitnessesIn(ps, V, r);
    }
    forall x | x in info.Witnesses()
      ensures info.created[x].famous != Undefined <==> FameDecided(ps, V, x, true) || FameDecided(ps, V, x, false)
    {
    }
    if RoundDecided(ps, V, r) {
      forall x | x in info.created && info.created[x].isWitness
        ensures info.created[x].famous != Undefined
      {
        assert x in info.Witnesses();
      }
    }
    if info.Settles(ps(r)) {
      assert RoundDecided(ps, V, r);
    }
  }

  // ----- Filing a new event

  function InfoOf(rounds: map<nat, RoundInfo>, r: nat): RoundInfo {
    if r in rounds then rounds[r] else NewRoundInfo
  }

  function File(rounds: map<nat, RoundInfo>, r: nat, x: Event, isWitness: bool): map<nat, RoundInfo> {
    rounds[r := InfoOf(rounds, r).AddCreatedEvent(x, isWitness)]
  }

  lemma FiledMore(ps: PeerSets, E: set<Event>, rounds: map<nat, RoundInfo>, x: Event)
    requires Filed(ps, E, rounds) && x !in E
    ensures Filed(ps, E + {x}, File(rounds, Round(ps, x), x, Witness(ps, x)))
  {
    hide Round, Witness;
  }

  /** A newly filed event has no fame yet, so elections stand as they were. */
  lemma ElectionsFiled(ps: PeerSets, V: set<Event>, rounds: map<nat, RoundInfo>, r: nat, x: Event, w: bool)
    requires Elections(ps, V, rounds) && (r in rounds ==> x !in rounds[r].created)
    ensures Elections(ps, V, File(rounds, r, x, w))
    ensures DecidedRounds(File(rounds, r, x, w)) == DecidedRounds(rounds)
  {
    hide Frozen, FamousWitnesses, FameDecided;
    var rounds' := File(rounds, r, x, w);
    assert rounds'[r].FamousWitnesses() == InfoOf(rounds, r).FamousWitnesses();
    assert FameSound(ps, V, rounds'[r]);
  }

  // ----- Recording the outcome of elections

  /** info' differs from info only in the fame of witnesses that had none. */
  ghost predicate Progress(info: RoundInfo, info': RoundInfo) {
    && info'.created.Keys == info.created.Keys && info'.received == info.received && info'.decided == info.decided
    && (forall x :: x in info.created ==> info'.created[x].isWitness == info.created[x].isWitness)
    && (forall x :: x in info.created && info.created[x].famous != Undefined ==> info'.created[x] == info.created[x])
  }

  /** The elections of the witnesses in done are over. */
  ghost predicate Elected(ps: PeerSets, V: set<Event>, info: RoundInfo, done: set<Event>) {
    forall x, v :: x in done && x in info.created && FameDecided(ps, V, x, v) ==>
      info.created[x].famous == if v then True else False
  }

  lemma RecordedElection(ps: PeerSets, V: set<Event>, info: RoundInfo, done: set<Event>, x: Event)
    requires View(V) && SafeHistory(ps) && FameSound(ps, V, info) && Elected(ps, V, info, done) && x in info.created
    requires info.created[x].famous != Undefined ||
             (!FameDecided(ps, V, x, true) && !FameDecided(ps, V, x, false))
    ensures Elected(ps, V, info, done + {x})
  {
    hide FameDecided, SafeHistory, View;
    if FameDecided(ps, V, x, true) { FameFunctional(ps, V, x); }
  }

  lemma RecordFame(ps: PeerSets, V: set<Event>, info: RoundInfo, done: set<Event>, x: Event, f: bool)
    requires FameSound(ps, V, info) && Elected(ps, V, info, done)
    requires x in info.created && info.created[x].isWitness && info.created[x].famous == Undefined
    requires x !in done && FameDecided(ps, V, x, f)
    ensures FameSound(ps, V, info.SetFame(x, f)) && Elected(ps, V, info.SetFame(x, f), done)
    ensures Progress(info, info.SetFame(x, f)) && info.SetFame(x, f).Witnesses() == info.Witnesses()
  {
    hide FameDecided;
  }

  lemma ProgressFiled(ps: PeerSets, E: set<Event>, rounds: map<nat, RoundInfo>, r: nat, info: RoundInfo)
    requires Filed(ps, E, rounds) && r in rounds
    requires info.created.Keys == rounds[r].created.Keys
    requires forall x :: x in info.created ==> info.created[x].isWitness == rounds[r].created[x].isWitness
    ensures Filed(ps, E, rounds[r := info])
  {
    hide Round, Witness;
  }

  /** A round after its elections, marked decided only if it was or if it settles. */
  lemma ElectionRecorded(ps: PeerSets, V: set<Event>, rounds: map<nat, RoundInfo>, r: nat, info: RoundInfo,
                         decided: bool)
    requires View(V) && SafeHistory(ps) && r in rounds && Filed(ps, V, rounds) && Elections(ps, V, rounds)
    requires Progress(rounds[r], info) && FameSound(ps, V, info) && FameComplete(ps, V, info)
    requires decided ==> info.decided || info.Settles(ps(r))
    ensures Elections(ps, V, rounds[r := info.(decided := decided)])
    ensures Filed(ps, V, rounds[r := info.(decided := decided)])
    ensures (info.Settles(ps(r)) ==> decided) ==> Conclusive(ps, V, r, info.(decided := decided))
  {
    hide View, SafeHistory, Filed, FameSound, FameComplete, Frozen, FamousWitnesses, RoundDecided;
    var info' := info.(decided := decided);
    ProgressFiled(ps, V, rounds, r, info');
    FiledWitnesses(ps, V, rounds, r);
    assert info.Witnesses() == rounds[r].Witnesses();
    ElectionSettles(ps, V, rounds, r, info);
    FameUnmarked(ps, V, info, decided);
    assert info'.FamousWitnesses() == info.FamousWitnesses();
  }

  lemma FameUnmarked(ps: PeerSets, V: set<Event>, info: RoundInfo, decided: bool)
    ensures FameSound(ps, V, info) ==> FameSound(ps, V, info.(decided := decided))
    ensures FameComplete(ps, V, info) ==> FameComplete(ps, V, info.(decided := decided))
  {
    hide FameDecided;
  }
}
