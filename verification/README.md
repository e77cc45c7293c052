# Babble consensus

A Dafny model of Babble's consensus engine: the hashgraph that every node builds from signed events, the virtual voting
that turns it into one sequence of blocks, and what surrounds it: gossip, fast-sync frames, changes of the peer-set and
signed blocks. `dafny verify dfyconfig.toml` checks the whole project.

The project has three layers.

1. *Pure definitions*, by recursion on the DAG: ancestry, strongly-seeing, rounds, witnesses (`Events`, `Rounds`), votes
   and fame (`Voting`, `Progress`, `Fronts`, `Stalemate`, `Quads`), rounds-received and frames (`Received`), blocks and
   the order of committed events (`Ledger`). Agreement is proved here, for any two ancestor-closed views of one
   fork-free DAG.
2. *The node*, class `Hashgraph` (module `Hashgraphs`): the coordinates, the five memos, the stored rounds, the queue of
   pending rounds, the undetermined events, frames and blocks, updated step by step as the code does. `Valid()` says
   that all of it is what the pure definitions give for the node's view, and `InsertEventAndRunConsensus` keeps
   `Valid()`. `Agreement` carries the theorems of layer 1 over to any two such nodes. `Coordinates`, `RoundInfos`,
   `Memo`, `Lru`, `Books`, `Frames` and `Medians` hold the parts.
3. *Around it*: `Wire` and `Gossip` (class `Core`), `Replanting`, `Regrowth` and `Resets` (class `Replanted`),
   `RollingIndexes`, `PeerHistory` (classes `PeerSetCache` and `Membership`), `Delays`, `Crews`, `Joins`, `Indexing`,
   `Anchors` (class `Notary`), `FastForwards` and `Bootstraps`.

## Hypotheses

The theorems hold under these hypotheses, which are preconditions or part of the data model.

- Hashes and peer IDs are injective. An event is a value that contains its parents, its signature and the digest of its
  body; two events are equal when they are the same event. Signature checks are a function given to the node.
- An accepted event has the index after its self-parent's, zero for a first event, as nodes build them
  (`Gossip.Core.AddSelfEvent`). On insertion only skipped and evicted indexes are refused; `Indexing.OnlyNextIndex` says
  exactly what the rest of this hypothesis is needed for.
- The views of the nodes together hold no two events of one creator with the same index.
- Consensus runs after every insertion, and the store evicts nothing.
- A node uses one peer-set for each round, and elections are safe under it (`SafeHistory`): the threshold of a round is
  large enough against the peers of the round before, and does not grow into a coin round. A fixed peer-set satisfies
  this (`Voting.FixedPeersAreSafe`). For peer-sets that change it is a strong condition, because every round from four
  on is a coin round of some election: the super-majority never grows, so that for instance a fifth peer may not join
  four (`Received.SafeNeverGrows`). `Delays.Converge` and `Delays.LogsConverge` do without it for nodes that decide
  their rounds within three rounds, and then allow every join (`Delays.JoinsAreSafe`). Theorems about two nodes assume
  that they use the same peer-sets, except these two and `Agreement.NodesConverge`, which derive it.
- Events with the same Lamport timestamp have different first signature components.
- No event counts itself as a witness (`SelfCounts`), see `Memo.RecountExact`.
- A node in the runs of layer 2 was not reset from a frame.

## Findings

- The node memoises rounds as if recomputing them later gave the same result. It does, except exactly when the event's
  creator is the only peer of its parents' round and has no event of that round yet (`Memo.RecountExact`,
  `Memo.SelfCountsExactly`); `Memo.RecountFails` is such an event.
- Insertion accepts an event that repeats an index of its creator, and the ancestor test is then wrong
  (`Indexing.RepeatedIndex`); for an event with a self-parent it stays right if and only if the index is the next one
  (`Indexing.OnlyNextIndex`).
- A comment in `src/node/core.go` (lines 566-568) says that all consistent hashgraphs decide the witnesses of round r by
  round r + 5, and the documentation (`docs/dynamic_membership.rst`, lines 222-226) concludes the same for a round R in
  which an event is received. This is false. For every k, four peers who never fork can build a hashgraph in which an
  event is received in round one but round one is decided by nothing known up to round k + 3 (`Stalemate.LateRound`),
  and a node can come to hold it (`Bootstraps.LateRoundStorable`). The same can be done to any round from one on
  (`Stalemate.FrontInRound`, `Stalemate.FameCanWait`, `Stalemate.RoundCanWait`), and until then a node does not process
  the round (`Agreement.NodeWaits`). Round r is decided by round r + 3 if each of its witnesses is seen, or not seen, by
  enough witnesses of round r + 1 (`Progress.DecidedInTime`). For any number of peers this is exactly when all counts of
  the votes of round r + 1 come out alike (`Progress.LopsidedExactly`). Among four peers it fails when two of the four
  see a witness, and only then is a decision not forced (`Stalemate.OnlyTiesWait`).
- The comment concludes that it is safe to set a new peer-set after six rounds. It is not, even for rounds that are
  decided by five rounds later: when a fifth peer joins four, two views of one hashgraph can decide a round differently,
  one three rounds later and the other five (`Joins.JoinDivides`), because in a coin round a growing super-majority lets
  the coin overturn a unanimous vote (`Voting.CoinOverturns` has the exact condition, `Joins.CoinVotesNo` such votes).
  Nodes that decide their rounds within d rounds do agree on peer-sets and blocks if the votes of the first d rounds of
  every election bind (`Delays.LogsConverge`): for d up to three this holds whenever peers only join
  (`Delays.JoinsAreSafe`), and for a removal under the exact condition of `Delays.LeavingIsSafe`; for d up to five it
  follows from `SafeHistory`, as for the nodes of layer 2 (`Agreement.NodesConverge`).
- The comment on `CheckBlock` (`src/hashgraph/hashgraph.go`, lines 1597-1598) asks for valid signatures from more than a
  third of the peers. The code asks for one more than that unless the number of peers is a multiple of three or at most
  one (`Anchors.MoreThanAThird`): among four peers three signatures, not two.

## Model

| member | source | states |
|---|---|---|
| Quorum.SuperMajority | src/peers/peer_set.go:157-163 | the threshold is the least number above two thirds of the peers |
| Quorum.TrustCount | src/peers/peer_set.go:168-177 | the trust count is a third of the peers rounded up, and zero for a single peer |
| Quorum.CarriesExactly | src/hashgraph/hashgraph.go:938-967 | a vote shared by k of the voters is the majority among any m of them if and only if 2k + m exceeds twice the number of voters: the exact arithmetic condition under which a decision counted against the threshold of one round binds those who count the votes of the previous one |
| Events.LamportGrows | src/hashgraph/hashgraph.go:355-387 | Lamport timestamps strictly increase from every ancestor to its descendants |
| Events.Chain | src/hashgraph/hashgraph.go:405-429 | in a fork-free, ancestor-closed set each creator's events are one chain: a lower index is an ancestor |
| Events.ChainIndex | src/hashgraph/hashgraph.go:405-429 | along one creator an ancestor has a lower index and lies below the self-parent |
| Events.LamportIsLongest | src/hashgraph/hashgraph.go:355-387 | an event has the Lamport timestamp n or more exactly when some path of n parent links leads down from it |
| Rounds.RoundUnfolded | src/hashgraph/hashgraph.go:220-282 | the round is zero without parents, else the greatest parent round, plus one exactly when a super-majority of that round's witnesses is strongly seen |
| Rounds.RoundMonotone | src/hashgraph/hashgraph.go:220-282 | rounds never decrease from an ancestor to a descendant, and exceed the greatest parent round by at most one |
| Rounds.RoundRises | src/hashgraph/hashgraph.go:252-281 | the round rises above the parents' exactly when the witnesses strongly seen are more than two thirds of the peers of the parents' round |
| Rounds.OneWitnessPerRound | src/hashgraph/hashgraph.go:297-327 | a creator has at most one witness in a round |
| Rounds.WitnessCount | src/hashgraph/hashgraph.go:297-327 | a round has no more witnesses than peers |
| Rounds.SeesExactly | src/hashgraph/hashgraph.go:184-206 | strongly-seeing, and its test on coordinates, hold exactly when the peers with an event in between are more than two thirds of the given peers |
| Rounds.SeesOverlap | src/hashgraph/hashgraph.go:184-206 | whenever two events each strongly see one, more than a third of the peers have events between both pairs |
| Rounds.FastSeesSound | src/hashgraph/hashgraph.go:184-206 | the test on coordinates never counts a peer that has no event between the two, so it implies strongly-seeing |
| Rounds.FastSeesExact | src/hashgraph/hashgraph.go:184-206 | for an event and a witness of its greatest parent round the test on coordinates is strongly-seeing, although first descendants are recorded only down to witnesses |
| Rounds.SeesInherited | src/hashgraph/hashgraph.go:184-206 | what an ancestor strongly sees on coordinates, its descendants do |
| Rounds.ElectorsAreQuorum | src/hashgraph/hashgraph.go:919-933 | every event of round j > 0 strongly sees, on coordinates too, a super-majority of witnesses of round j - 1, whether it raised the round or inherited it |
| Voting.VoteUnfolded | src/hashgraph/hashgraph.go:900-979 | the vote by recursion on the DAG is: seeing in the first round; later the majority among the strongly seen, a tie being a yes; the middle bit in a coin round without super-majority |
| Voting.VoteInNumbers | src/hashgraph/hashgraph.go:900-979 | the vote in numbers: a tie is a yes, and the middle bit counts only a multiple of four rounds later, when neither side has more than two thirds of the peers |
| Voting.DecidesExactly | src/hashgraph/hashgraph.go:949-967 | an event closes an election exactly when it is two rounds above or more, not a multiple of four, and more than two thirds of the peers of its round voted with the majority |
| Voting.NeverDecidesInFour | src/hashgraph/hashgraph.go:949-979 | no event four, eight, twelve or any multiple of four rounds later closes an election |
| Voting.RoundDecidedExactly | src/hashgraph/roundInfo.go:73-96 | a round is decided exactly when its witnesses are more than two thirds of its peers and none is left that no witness decides |
| Voting.FixedPeersAreSafe | src/hashgraph/hashgraph.go:875-998 | a peer-set that does not change meets the counting conditions of every election |
| Voting.VotesTransfer | src/hashgraph/hashgraph.go:938-957 | if enough witnesses of round j - 1 vote alike, every event of round j counts that vote as the majority, whichever witnesses it counts |
| Voting.UnanimityLasts | src/hashgraph/hashgraph.go:958-979 | a round that votes unanimously is followed by rounds that vote the same, through coin rounds |
| Voting.CoinOverturns | src/hashgraph/hashgraph.go:968-979 | a unanimous vote is not taken over exactly where a coin round asks for more votes than are counted and the coin falls on the other side |
| Voting.DecisionBinds | src/hashgraph/hashgraph.go:958-965 | after a decision in round j all witnesses of round j and of every later round vote the decided value |
| Voting.FameAgreement | src/hashgraph/hashgraph.go:875-998 | any two events that close the election of a witness, in whichever rounds, close it with the same value |
| Voting.LateWitnessNotFamous | src/hashgraph/roundInfo.go:73-78 | a witness that was not known when its round was decided is never decided famous |
| Voting.FamousFrozen | src/hashgraph/roundInfo.go:73-96 | once all known witnesses of a round are decided and are a super-majority, the round's famous witnesses never change again |
| Voting.FamousAgreement | src/hashgraph/roundInfo.go:73-119 | two views that both decided a round have the same famous witnesses |
| Progress.DecidedWithinTwoRounds | docs/dynamic_membership.rst:209-214 | Lemma 5.15 as the documentation quotes it: if a fame is decided in round j, any consistent view with a witness of round j + 2 decides the same |
| Progress.PopularElement | docs/dynamic_membership.rst:216-220 | double counting: if everyone relates to more than two thirds of n, someone among at most n is related to by more than two thirds |
| Progress.SomeWitnessFamous | docs/dynamic_membership.rst:216-220 | Lemma 5.17: in a view with an event of round r + 3 some witness of round r is decided famous by all events of round r + 3 |
| Progress.SoloRounds | src/hashgraph/hashgraph.go:220-327 | each event of a peer that is alone is the witness of a new round |
| Progress.SoloFamous | src/hashgraph/hashgraph.go:875-998 | and is decided famous three rounds later: the shortest run in which elections close |
| Progress.LopsidedDecided | src/hashgraph/hashgraph.go:906-979 | if so many witnesses of round r + 1 see x, or so many do not, that every count of a super-majority of them comes out the same, then every witness of round r + 3 decides x |
| Progress.LopsidedExactly | src/hashgraph/hashgraph.go:938-957 | that condition, in numbers, for any number of peers: 2s + T at least 2n, or 2(n - s) + T above 2n, exactly when all counts of T or more of the n votes come out alike, ties being a yes |
| Progress.DecidedInTime | src/node/core.go:566-568 | if that holds of every known witness of round r, and they are a super-majority, then round r is decided by the events of rounds up to r + 3 |
| Fronts.NextIsFront | src/hashgraph/hashgraph.go:220-327 | four witnesses of a round, placed in a certain way, can be followed by seven events that place the four witnesses of the next round in the same way |
| Fronts.NextIsSplit | src/hashgraph/hashgraph.go:906-979 | if the first four vote two against two on an earlier witness then so do the next four, in normal rounds and, with suitable middle bytes, in coin rounds |
| Fronts.PartedIsSplit | src/hashgraph/hashgraph.go:220-327 | or by six events after which the next four see one of the first four two against two |
| Fronts.TurnedVotesYes | src/hashgraph/hashgraph.go:906-979 | or by five events after which the next four all vote yes where the first were split |
| Stalemate.FameCanWait | src/hashgraph/hashgraph.go:875-998 | from every such placing in any round r, and for every k, four peers who never fork can go on to a view with events of round r + k + 1 on which, however it is extended, no event of a round up to r + k + 2 decides the fame of a certain witness of round r |
| Stalemate.RoundCanWait | src/node/core.go:566-568 | so round r is not decided in any view made of the events of rounds up to r + k + 2 of such an extension |
| Stalemate.FameCanEnd | src/hashgraph/hashgraph.go:875-998 | and each of these views has an extension that decides round r, with all its four witnesses famous |
| Stalemate.FrontInRound | src/hashgraph/hashgraph.go:220-327 | four peers can bring about such a placing in every round from one on |
| Stalemate.LateRound | docs/dynamic_membership.rst:222-226 | for every k there is a hashgraph with distinct sort keys in which round zero is decided by events of round two, an event is received in round one, and round one is decided, but not by anything known up to round k + 3 |
| Stalemate.OnlyTiesWait | docs/dynamic_membership.rst:216-226 | among four peers, s seers of a witness among the four witnesses of the next round force a decision three rounds after the witness if and only if s is not two |
| Delays.RoundLocal | src/hashgraph/hashgraph.go:220-327 | peer-set histories that agree up to round k give the events of rounds up to k the same rounds and witnesses |
| Delays.VoteLocal | src/hashgraph/hashgraph.go:893-979 | and the same votes, majorities and decisions |
| Delays.FamousLocal | src/hashgraph/roundInfo.go:73-119 | and, in a view of such events, the same famous witnesses and decided rounds |
| Delays.JoinsAreSafe | src/hashgraph/hashgraph.go:938-967 | when peers only join, the votes counted in the first three rounds of every election bind |
| Delays.LeavingIsSafe | src/hashgraph/hashgraph.go:938-967 | when one of n peers leaves they bind in that round if and only if n modulo three is not two |
| Delays.FameConverges | src/node/core.go:566-568 | two nodes whose peer-sets agree up to round r + d, and that both decided round r, at whatever time, by events of rounds up to r + d, recorded the same famous witnesses, whatever peer-sets come later |
| Delays.RecordedIsRight | src/hashgraph/roundInfo.go:73-119 | and what is recorded so are the famous witnesses by all the events of rounds up to r + d that the node ever learns of |
| Delays.LogIsTimely | src/hashgraph/hashgraph.go:1184-1289 | under a safe history the frames of a node that decided its rounds within d rounds follow from the famous witnesses it recorded |
| Delays.FrameConverges | src/hashgraph/hashgraph.go:1184-1289 | such frames are the same in two nodes with the same famous witnesses up to their round |
| Delays.DerivedAgree | src/node/core.go:562-635 | peer-sets derived from chains that share the blocks received up to a round agree for six rounds more |
| Delays.Converge | src/node/core.go:562-635 | two nodes that take their peer-sets from their own blocks, and decided the rounds they processed within d rounds, d at most five, have the same frames and the same peer-sets up to five rounds after the last round both processed; the votes of the first d rounds of every election must bind, which for d = 3 they do whenever peers only join |
| Delays.LogsConverge | src/node/core.go:562-635 | and of their blocks, as of their committed events, one sequence is a prefix of the other |
| Delays.NotAlwaysTimely | src/node/core.go:566-568 | for every d some hashgraph receives an event in a round that it decides, but not within d rounds |
| Quads.AfterIsQuad | src/hashgraph/hashgraph.go:220-327 | four witnesses of a round, placed in another way, can be followed by eight events that place the next four in the same way |
| Quads.VotesPart | src/hashgraph/hashgraph.go:906-979 | after these events three of the next four count one vote and the fourth another, so that a vote of two against two becomes three yes against one no, and nobody decides |
| Quads.VotesMeet | src/hashgraph/hashgraph.go:906-979 | and then four yes, where only the fourth decides |
| Crews.CrewRises | src/hashgraph/hashgraph.go:220-327 | four of five peers can raise the round without the fifth |
| Joins.CoinVotesNo | src/hashgraph/hashgraph.go:968-979 | three witnesses of round r + 3 all vote yes; in round r + 4, a coin round, four votes are asked for and all that can be counted are three, so those whose coin says no vote no |
| Joins.JoinDivides | src/node/core.go:562-568 | a fifth peer joins four after round r + 3, for any r from one on: two views of one fork-free hashgraph then decide round r with different famous witnesses, one by events of rounds up to r + 3, the other by events of rounds up to r + 5; in such a history the votes of the first three rounds of every election bind |
| Medians.Median | src/common/median.go:8-29 | the result is the median of the input as a multiset, whatever the order; zero for no input; int64 wrap-around and truncation in the mean of two |
| Medians.MedianUnique | src/common/median.go:8-29 | a multiset has only one median |
| Medians.HonestMedian | src/common/median.go:8-29 | with fewer than half of the inputs faulty the median lies between two honest inputs; only honest inputs need be within half the int64 range |
| Received.SafeNeverGrows | src/hashgraph/hashgraph.go:938-979 | what the hypothesis on peer-sets amounts to: from round four on the super-majority never grows, one peer may join n others only if n is a multiple of three, and one of n may leave only if n modulo three is not two |
| Received.SeenInNumbers | src/hashgraph/hashgraph.go:1047-1066 | the famous witnesses that must all see an event are more than two thirds of the peers of their round |
| Received.FrozenFamous | src/hashgraph/roundInfo.go:73-119 | two views that each decided a round at some time agree on its famous witnesses now |
| Received.RoundReceivedAgreement | src/hashgraph/hashgraph.go:1002-1095 | two views that assign a round-received to an event assign the same one |
| Received.ReceivedAgreement | src/hashgraph/hashgraph.go:1002-1095 | two views that decided rounds 0 to i receive the same events in round i |
| Received.OrderUnique | src/hashgraph/event.go:493-511 | a set of events has at most one order by Lamport timestamp and signature |
| Received.FrameAgreement | src/hashgraph/hashgraph.go:1184-1289 | the frames of a round in two views have the same events in the same order and the same timestamp |
| Ledger.BlocksNumbered | src/hashgraph/hashgraph.go:1145-1169 | block indices are consecutive from zero and rounds-received strictly increase |
| Ledger.BlocksLater | src/hashgraph/hashgraph.go:1107-1178 | the blocks that a longer log adds were received in its later rounds |
| Ledger.FrameAddsBlock | src/hashgraph/hashgraph.go:1151-1169 | a frame adds exactly one block if one of its events carries a transaction or an internal transaction, and else none |
| Ledger.TransactionsInOrder | src/hashgraph/block.go:135-158 | the transactions of a block can be cut into those of the frame's events, event after event, nothing left over |
| Ledger.InternalsInOrder | src/hashgraph/block.go:135-158 | and so can its internal transactions |
| Ledger.BlocksMadeFrom | src/hashgraph/hashgraph.go:1145-1169 | every block is made so from the frame of its round, with the frame's timestamp and peers |
| Ledger.BlockAgreement | src/hashgraph/hashgraph.go:1100-1181 | of two nodes' block sequences, compared on index, round received, timestamp, peers, transactions and internal transactions, one is a prefix of the other; likewise their orders of committed events |
| Ledger.LogStable | src/hashgraph/hashgraph.go:1107-1178 | a node that learns events and decides rounds keeps the log it has |
| Ledger.AncestorReceived | src/hashgraph/hashgraph.go:1018-1085 | the ancestors of a received event are received no later |
| Ledger.CommitIsCausal | src/hashgraph/hashgraph.go:1107-1147 | the committed events are all different and each comes after all its ancestors |
| Coordinates.AncestorTest | src/hashgraph/hashgraph.go:108-128 | the ancestor test on last ancestors is reachability by parent links |
| Coordinates.MergedParents | src/hashgraph/hashgraph.go:445-483 | merging the parents' coordinates gives each participant's highest event among the ancestors |
| Coordinates.Merge | src/hashgraph/hashgraph.go:455-469 | the loop that merges coordinates keeps the later of two for each participant |
| Coordinates.CountedIsLinked | src/hashgraph/hashgraph.go:184-206 | the strongly-see loop counts exactly the peers that have a recorded descendant of one event below the other |
| Coordinates.AllWalked | src/hashgraph/hashgraph.go:486-519 | after the walks down all chains first descendants are recorded wherever the new event reaches, and nowhere else |
| Coordinates.IndexRule | src/hashgraph/hashgraph.go:672-750 | for an event with any index, put on top of its creator's chain, the ancestor test stays exact if and only if its index is above its self-parent's |
| Indexing.OnlyNextIndex | src/common/rolling_index.go:72-103 | of the indexes that the store takes for an event with a self-parent, only the next one keeps the ancestor test exact |
| Indexing.FirstIndexIsFree | src/common/rolling_index.go:72-103 | for a creator's first event the store takes any index, and the ancestor test stays exact |
| Indexing.RepeatedIndex | src/hashgraph/hashgraph.go:672-750 | an event that repeats its self-parent's index passes every check on insertion and takes its self-parent's place in the store's window, and the ancestor test is then wrong |
| RoundInfos.RoundInfo.WitnessesDecided | src/hashgraph/roundInfo.go:78-96 | a decided round stays decided; otherwise it is decided exactly when all its witnesses are and they are a super-majority |
| RoundInfos.DecisionsLast | src/hashgraph/roundInfo.go:73-119 | decided rounds that stay decided keep their famous witnesses as the view grows |
| RoundInfos.ElectionsGrow | src/hashgraph/roundInfo.go:73-96 | recorded fame and recorded decisions stay right when the view grows |
| Memo.RecountExact | src/hashgraph/hashgraph.go:220-282 | recomputing a round later, with more witnesses filed, gives the same round except exactly when the event is itself filed as a witness of its parents' round under a threshold of one |
| Memo.SelfCountsExactly | src/hashgraph/hashgraph.go:220-327 | that exception, told from the parents alone: the creator is the only peer of the parents' round and has no event of that round yet; it holds exactly when the event is a witness of the round it inherits, under a threshold of one |
| Memo.RecountFails | src/hashgraph/hashgraph.go:208-282 | an input on which it occurs: the round is zero when the event is inserted and one when computed again after it is filed |
| Memo.CrowdIsSafe | src/hashgraph/hashgraph.go:208-282 | with two peers or more in every round that exception never occurs |
| Memo.FixedPeersAreSafe | src/hashgraph/hashgraph.go:208-282 | nor under a fixed peer-set to which all creators belong |
| Lru.MemoHoldsRecent | src/common/lru.go:47-75 | whatever keys are asked for, a memo of any size holds the function's values at the most recent different keys, so eviction never changes an answer |
| Lru.RecentFirst | src/common/lru.go:47-75 | these keys come in the order of their last use, the latest first |
| Lru.RecentMember | src/common/lru.go:47-75 | they are exactly the keys that were asked for |
| Books.KeptGrows | src/hashgraph/hashgraph.go:1002-1178 | rounds-received and the log stay right when events are learnt and rounds decided: an event never gets a second round-received and none enters a processed round |
| Books.QueueFiled | src/hashgraph/caches.go:258-269 | filing an event of a known round or of the next one keeps the queue of pending rounds complete, sorted and without repetition |
| Books.CleanPrefix | src/hashgraph/caches.go:287-297 | cleaning the processed rounds off the queue leaves the rest in order |
| Books.ListedAsReceived | src/hashgraph/hashgraph.go:1196-1216 | the events listed under a decided round are exactly those received in it |
| Books.RemainingOrder | src/hashgraph/hashgraph.go:1086-1092 | the events that stay undetermined keep their order |
| Frames.SortFrame | src/hashgraph/hashgraph.go:1211 | sorting permutes the events so that Lamport timestamps never fall and equal ones come with increasing first signature components |
| Frames.LastByCreatorExactly | src/hashgraph/inmem_store.go:180-185 | what is recorded for a creator is its last event among the committed ones, and something is recorded exactly if it has one |
| Frames.NewBlockFromFrame | src/hashgraph/block.go:135-158 | the block carries the frame's round, timestamp and peers, and its transactions and internal transactions can be cut into those of the frame's events, event after event, nothing left over |
| Frames.HonestTimestamp | src/hashgraph/hashgraph.go:1264-1273 | with fewer than a third of the round's peers faulty, the timestamp of a frame lies between those of two honest famous witnesses |
| Frames.UnsettledInsert | src/hashgraph/hashgraph.go:738-742 | inserting an event adds one to the loaded events not committed exactly when it is loaded |
| Frames.UnsettledCommit | src/hashgraph/hashgraph.go:1136-1147 | committing an event takes one from them exactly when it is loaded |
| Hashgraphs.Hashgraph.constructor | src/hashgraph/hashgraph.go:57-94 | an empty node satisfies every invariant |
| Hashgraphs.Hashgraph.AddParticipant | src/hashgraph/inmem_store.go:77-89 | learning of a participant keeps every invariant and touches no other chain |
| Hashgraphs.Hashgraph.See | src/hashgraph/hashgraph.go:96-128 | answers reachability, through the cache or the coordinates |
| Hashgraphs.Hashgraph.CountPeers | src/hashgraph/hashgraph.go:193-203 | counts the peers whose first descendant is not above their last ancestor |
| Hashgraphs.Hashgraph.StronglySee | src/hashgraph/hashgraph.go:172-206 | answers yes exactly when the peers with a recorded descendant in between are more than two thirds of the given peers, an answer which does not change as the DAG grows, through the cache or the count |
| Hashgraphs.Hashgraph.RoundOf | src/hashgraph/hashgraph.go:208-282 | computes the round of the recursive definition, whatever is filed and cached |
| Hashgraphs.Hashgraph.NextRound | src/hashgraph/hashgraph.go:252-281 | counts the filed witnesses and so decides whether the round rises |
| Hashgraphs.Hashgraph.WitnessOf | src/hashgraph/hashgraph.go:284-327 | tells the witnesses: first events of a round by a member of its peer-set |
| Hashgraphs.Hashgraph.LamportOf | src/hashgraph/hashgraph.go:343-387 | computes the Lamport timestamp through the cache |
| Hashgraphs.Hashgraph.Record | src/hashgraph/hashgraph.go:445-483 | stores an event with exact coordinates and at the end of its creator's chain |
| Hashgraphs.Hashgraph.UpdateAncestorFirstDescendant | src/hashgraph/hashgraph.go:486-519 | records the event as first descendant everywhere it reaches, stopping at witnesses, and nowhere else |
| Hashgraphs.Hashgraph.Walk | src/hashgraph/hashgraph.go:488-516 | one walk down a chain, stopping where a descendant is recorded, at a witness or at the bottom |
| Hashgraphs.Hashgraph.InsertEvent | src/hashgraph/hashgraph.go:672-750 | accepts or refuses by signature, self-parent and other-parent, in that order; a refusal changes nothing; an accepted event keeps the DAG fork-free, ancestor-closed and exactly indexed |
| Hashgraphs.Hashgraph.InsertEventAndRunConsensus | src/hashgraph/hashgraph.go:644-669 | every invariant of the node is kept by every insertion; frames, blocks and committed events only grow; decided rounds stay decided with the same famous witnesses, and an event keeps its round-received; every fame and every round that the view decides is recorded, every event it receives has its round-received, and the first round not processed is not decided |
| Hashgraphs.Hashgraph.DivideRounds | src/hashgraph/hashgraph.go:807-872 | files the new event under its round with its witness flag, assigns its attributes and queues its round |
| Hashgraphs.Hashgraph.CountVotes | src/hashgraph/hashgraph.go:938-947 | counts the yes and the no votes |
| Hashgraphs.Hashgraph.CastVote | src/hashgraph/hashgraph.go:906-979 | computes the vote of the recursive definition and closes the election exactly when it should |
| Hashgraphs.Hashgraph.VoteRound | src/hashgraph/hashgraph.go:893-981 | lets the witnesses of a round vote until one decides |
| Hashgraphs.Hashgraph.Elect | src/hashgraph/hashgraph.go:893-982 | the election ends undefined exactly when no known witness decides it |
| Hashgraphs.Hashgraph.DecideRound | src/hashgraph/hashgraph.go:889-984 | records the fame of every witness of the round that the view decides, and no other |
| Hashgraphs.Hashgraph.DecideFame | src/hashgraph/hashgraph.go:875-998 | recorded fames and decisions are those of the view, and for the rounds not processed yet all that the view decides is recorded; decided rounds stay decided |
| Hashgraphs.Hashgraph.FindRoundReceived | src/hashgraph/hashgraph.go:1013-1085 | finds the first round after its own whose famous witnesses, a super-majority, all see the event, all rounds before being decided |
| Hashgraphs.Hashgraph.DecideRoundReceived | src/hashgraph/hashgraph.go:1002-1095 | every event that the view receives gets its round-received, and none loses the one it has; the others stay undetermined, in the order they had |
| Hashgraphs.Hashgraph.CreateFrameEvent | src/hashgraph/hashgraph.go:521-557 | gives an event its round, witness flag and Lamport timestamp |
| Hashgraphs.Hashgraph.CreateRoot | src/hashgraph/hashgraph.go:559-594 | collects a head and the ten events before it, or as many as there are, oldest first, with consecutive indexes along the participant's chain |
| Hashgraphs.Hashgraph.CreateRoots | src/hashgraph/hashgraph.go:1224-1256 | exactly the creators in the frame and the participants whose first round is not after it get a root, which ends just below the participant's first event in the frame, or at its last committed event |
| Hashgraphs.Hashgraph.GetFrame | src/hashgraph/hashgraph.go:1184-1289 | computes the one frame of a decided round, with the peers of the round, the received events in order, the timestamp and the roots |
| Hashgraphs.Hashgraph.CommitFrame | src/hashgraph/hashgraph.go:1132-1169 | commits the events of a frame, and adds exactly one block, made from the frame, if one of its events carries a transaction or an internal transaction, and else none; the count of loaded events waiting stays exact |
| Hashgraphs.Hashgraph.ProcessDecidedRounds | src/hashgraph/hashgraph.go:1100-1181 | processes decided rounds in order and stops at the first undecided one; the log stays the log of the view, and frames, blocks and committed events only grow |
| Agreement.NodesAgree | src/hashgraph/hashgraph.go:1100-1181 | for any two nodes reached by any insertions: one chain of blocks is a prefix of the other, and so are the orders of committed events |
| Agreement.NodesReceiveAlike | src/hashgraph/hashgraph.go:1002-1095 | two nodes that received an event received it in the same round |
| Agreement.NodesElectAlike | src/hashgraph/hashgraph.go:875-998 | two nodes record the same fame for a witness, and the same famous witnesses for a decided round |
| Agreement.NothingLeftUndone | src/hashgraph/hashgraph.go:644-669 | after every insertion a node has recorded every round and every fame that its view decides, and its view does not decide the first round it has not processed |
| Agreement.NodesFrameAlike | src/hashgraph/hashgraph.go:1184-1289 | two nodes with the same record of first rounds have frames with the same rounds, peers, events, roots and timestamps, as far as both have processed rounds |
| Agreement.CommitsOnce | src/hashgraph/hashgraph.go:1107-1178 | a node commits each event once, after its ancestors, exactly when the round it is received in is processed; blocks are numbered from zero in increasing rounds received |
| Agreement.BlocksHoldFrames | src/hashgraph/hashgraph.go:1145-1169 | the k-th block of a node has index k and is made from the frame of its round |
| Agreement.RootsEndAtNewest | src/hashgraph/hashgraph.go:1224-1256 | in every frame of a node the root of a participant without events in the frame ends at its event with the greatest index among all those committed in the rounds before, and is empty exactly if it has none |
| Agreement.NodesConverge | src/node/core.go:562-635 | two nodes with safe histories that take their peer-sets from their own blocks and decided the rounds they processed within d rounds, d at most five, share peer-sets, blocks and the order of committed events, without assuming that their peer-sets agree |
| Agreement.NodeWaits | src/node/core.go:566-568 | a node that holds the k-th view of a stalemate on round r processes round r only when it knows an event of round r + k + 3 |
| Agreement.FramesReplantable | src/hashgraph/hashgraph.go:1184-1289 | every frame in a node's log is one from which another node can be reset |
| RollingIndexes.PutShows | src/common/rolling_index.go:72-110 | what may be written is appended to or replaced in an unbounded log, of which the window goes on showing a gap-free suffix: at most size entries, and all of them or more than half of size |
| RollingIndexes.RollingIndex.constructor | src/common/rolling_index.go:16-23 | an empty window shows an empty log |
| RollingIndexes.RollingIndex.Get | src/common/rolling_index.go:33-51 | returns the log's entries after an index; TooLate exactly when one of them would lie below the window |
| RollingIndexes.RollingIndex.GetItem | src/common/rolling_index.go:55-66 | returns the log's entry; TooLate below the window, KeyNotFound above it |
| RollingIndexes.RollingIndex.Set | src/common/rolling_index.go:72-110 | SkippedIndex exactly when the index leaves a gap, TooLate exactly when it is below the window, nothing changed on an error, otherwise the log is written; a negative index is refused unless it is the first |
| Replanting.ReceivedBetween | src/hashgraph/hashgraph.go:1018-1085 | between two events of a creator received in a round all its events are received in that round |
| Replanting.FramePlantable | src/hashgraph/hashgraph.go:559-594 | each participant's root followed by its events in the frame is one stretch of its chain without a gap, at most ROOT_DEPTH + 1 of them in the root, which is that deep unless it starts with its first event |
| Replanting.SelfParentLinks | src/hashgraph/hashgraph.go:559-594 | along such a stretch each event is the self-parent of the next |
| Replanting.LogGenuine | src/hashgraph/hashgraph.go:1184-1289 | this holds of every frame of a log |
| Replanting.SortedFrameEvents | src/hashgraph/frame.go:24-32 | all the events of a frame, roots included, each once, in consensus order |
| Replanting.SortedSlice | src/hashgraph/frame.go:24-32 | in that order each participant's events come along its chain without a gap |
| Replanting.ParentsFirst | src/hashgraph/frame.go:24-32 | in that order parents come before children |
| Replanting.RootEndsAtNewest | src/hashgraph/hashgraph.go:1224-1256 | in any log the root of a participant without events in the frame ends at its newest event committed before |
| Regrowth.StoredPaths | src/hashgraph/hashgraph.go:445-483 | what the parents' coordinates can tell of after a reset is what some path of parent links through stored events leads to |
| Regrowth.MergedRebuilt | src/hashgraph/hashgraph.go:449-482 | merging the coordinates of those parents that are stored gives coordinates that cover everything so reached, and hold nothing else |
| Regrowth.RebuiltTest | src/hashgraph/hashgraph.go:108-128 | on stored events whose chains have no gaps the ancestor test answers yes exactly for what is so reached |
| Regrowth.ReachIsMarked | src/hashgraph/hashgraph.go:486-519 | where a stored event reaches another, with no stored witness of the latter's creator in between, a first descendant by its creator is recorded that is no newer |
| Regrowth.RebuiltCounts | src/hashgraph/hashgraph.go:184-206 | so the strongly-see loop counts every peer with a stored event through which the one reaches the other in that way |
| Regrowth.Regrows | src/hashgraph/hashgraph.go:754-802 | inserting the next event keeps all this of the coordinates |
| Resets.SoundAncestorTest | src/hashgraph/hashgraph.go:108-128 | after a reset the ancestor test never takes for an ancestor what is not one in the full DAG |
| Resets.SoundStronglySee | src/hashgraph/hashgraph.go:184-206 | after a reset the strongly-see test never counts a peer that the full DAG would not |
| Resets.Replanted.InsertFrameEvent | src/hashgraph/hashgraph.go:754-802 | answers the store's error, if any; otherwise keeps the rebuilt ancestry sound and the attributes those of the full DAG, and, for an event that comes after its stored parents and its creator's stored events, keeps the coordinates complete on what is stored |
| Resets.Replanted.Walk | src/hashgraph/hashgraph.go:488-516 | walks down as far as events are stored, recording only true descendants |
| Resets.Replanted.Reset | src/hashgraph/hashgraph.go:1431-1470 | a genuine frame is inserted whole, in order, never meeting SkippedIndex or TooLate, if and only if all creators in it are known; the rounds, witnesses and windows are those of the full DAG, the ancestor test answers yes exactly along parent links through stored events, first descendants are recorded wherever a stored event reaches down to stored witnesses, and the last committed event of each creator is recorded |
| Wire.WireRoundTrip | src/hashgraph/hashgraph.go:1540-1595 | a node that knows an event's parents reads it from the wire, and reads the same event if and only if the block signatures in it are its creator's own |
| Wire.ReadFindsParents | src/hashgraph/hashgraph.go:1540-1595 | a wire event is read exactly when its creator and the parents it names are known; the event read has a self-parent exactly if the index named is not negative, and then the creator's event with that index; likewise the other-parent |
| Wire.ReadRoundTrip | src/hashgraph/hashgraph.go:1540-1595 | what is read and sent on is what was received exactly if missing parents are named by index -1 and creator zero |
| Gossip.DiffParents | src/node/core.go:660-703 | what is sent comes after its parents, unless the receiver knows them |
| Gossip.KnownIsHeld | src/node/core.go:660-703 | whatever the receiver is said to know, it holds |
| Gossip.DiffIsBatch | src/node/core.go:660-703 | every first part of what is sent can be inserted in order, and all of it makes the receiver's view the union |
| Gossip.OutcomeOfKnown | src/hashgraph/hashgraph.go:405-442 | an event with known parents that forks no chain is inserted, or is known already and meets the normal self-parent error |
| Gossip.InsertedExactly | src/hashgraph/hashgraph.go:672-715 | a well indexed event is inserted exactly when it is signed, by a known creator, new, and leaves the view ancestor-closed and fork-free; the signature is looked at first |
| Gossip.GossipDelivers | src/node/node_rpc.go:106-146 | between any two nodes, for any lower bound on what the receiver knows and any limit, what is sent can be received, and all of it brings the receiver to the union of both views |
| Gossip.Core.EventDiff | src/node/core.go:660-703 | gathers and sorts exactly the events whose index is above the one known of their creator, and all events of a creator of whom none is known, in topological order; an error exactly for a known index below -1 |
| Gossip.Core.ProcessSyncRequest | src/node/node_rpc.go:106-157 | sends as many of them as the smaller limit allows |
| Gossip.Core.Sync | src/node/core.go:210-270 | inserts everything up to the first event by an unknown creator; the view becomes the union with it and stays ancestor-closed; blocks only grow; heads are known, never older than what was received, and the sender's is the newest |
| Gossip.Core.ReadAndInsert | src/node/core.go:214-233 | decodes and inserts one event: new, known already, or by an unknown creator |
| Gossip.Core.InsertEventAndRunConsensus | src/node/core.go:345-354 | head and sequence number stay those of the node's own chain |
| Gossip.Core.AddSelfEvent | src/node/core.go:292-333 | the node's own event extends its chain with the next index, is accepted if signed and its other-parent known, and empties the three pools into itself |
| PeerHistory.PeerSetCache.Set | src/hashgraph/caches.go:146-166 | adds an entry unless there is one for the round; rounds stay sorted and first rounds exact |
| PeerHistory.PeerSetCache.Get | src/hashgraph/caches.go:169-193 | finds the entry with the greatest start not above the round, or else the first |
| PeerHistory.LaterEntry | src/hashgraph/caches.go:169-193 | an entry that starts after a round changes nothing for it |
| PeerHistory.HistorySettled | src/node/core.go:562-635 | the peer-set at a round depends only on genesis and on blocks received six rounds before it or earlier |
| PeerHistory.HistoryAgreement | src/node/core.go:562-635 | two nodes that agree on those blocks agree on the peer-set |
| PeerHistory.AppliedExactly | src/node/core.go:570-602 | the new validators are exactly those for whom the last accepted receipt is an addition, and the old ones whom no accepted receipt concerns |
| PeerHistory.Membership.ProcessAcceptedInternalTransactions | src/node/core.go:562-635 | the last accepted receipt about a peer says whether it is a validator afterwards, and the others stay as they were; if a receipt is accepted this set, and nothing else, is recorded, for six rounds after the block's, which never has an entry yet, and the target round becomes that round unless it is later already; else nothing changes |
| Anchors.HonestSigner | src/peers/peer_set.go:165-177 | with fewer than a third of the peers faulty a block with more valid signatures than the trust count has an honest one |
| Anchors.ProvenInNumbers | src/hashgraph/hashgraph.go:1599-1630 | CheckBlock asks for one valid signature more than a third of the peers, rounded up; for a single peer one is enough |
| Anchors.MoreThanAThird | src/peers/peer_set.go:165-177 | that is more than a third, as the comment on CheckBlock says, and no more than that exactly when the number of peers is a multiple of three or at most one |
| Anchors.CheckBlock | src/hashgraph/hashgraph.go:1599-1630 | accepts exactly the blocks of the given peer-set with more valid signatures from it than the trust count |
| Anchors.Notary.Commit | src/node/core.go:486-557 | the stored block carries the application's state hash and receipts, and the node's signature, if it is a peer of the round, is on that final body |
| Anchors.Notary.AddPending | src/hashgraph/hashgraph.go:744-747 | a signature found in an event waits under its block index and validator, replacing an earlier one |
| Anchors.Notary.SetAnchorBlock | src/hashgraph/hashgraph.go:1375-1408 | the anchor moves up, to a block that CheckBlock accepts |
| Anchors.Notary.ProcessSigPool | src/hashgraph/hashgraph.go:1295-1368 | gathered signatures go to their blocks exactly when valid and from a peer of the round, and leave the pool then; bodies do not change and the anchor never goes back |
| Anchors.Notary.GetAnchorBlockWithFrame | src/hashgraph/hashgraph.go:1412-1428 | what is served passes CheckBlock and the frame-hash check |
| Bootstraps.Bootstrap | src/hashgraph/hashgraph.go:1472-1538 | a node that knows no event and inserts stored events in topological order accepts them all, keeps its invariants and ends up to date with exactly these events in this order |
| Bootstraps.Listing | src/hashgraph/hashgraph.go:1472-1538 | the events of every view can be listed in topological order |
| Bootstraps.LateRoundStorable | src/node/core.go:566-568 | so a node can be brought to hold a hashgraph with a late round |
| FastForwards.CommitNext | src/node/core.go:486-557 | a notary that commits a block of a hashgraph goes on holding only blocks and frames of it, and its own signature on the block is recorded as made |
| FastForwards.InsertAndCommit | src/hashgraph/hashgraph.go:644-669 | a node that inserts an event and commits the blocks made of it keeps its notary on its chain: it holds exactly the blocks of the chain, none of them changed, and forgets no signature |
| FastForwards.HonestFrame | src/node/core.go:371-386 | a block with a signature that its signer's notary made, and a frame with the hash it carries, are in that peer's chain and log |
| FastForwards.FastForward | src/node/core.go:367-400 | with fewer than a third of the frame's peers faulty, and the others' signatures made by themselves, what passes the two checks is a block and frame of an honest node; the reset then fails only for a creator that is no participant, and else holds exactly the frame's events, with ancestry that is sound, and complete on what is stored, and the attributes of that node; each refusal has its exact condition and the first two change nothing |

## Left out

- Liveness: whether coin rounds end every election depends on probability and on gossip.
- Agreement while the peer-set changes inside an election, beyond the histories that `SafeHistory` allows; the code
  counts votes of one round against the threshold of the next. A node that already used one peer-set for a round and
  then learns of another is not modelled.
- Eviction from the in-memory store during consensus, and the Badger store. The windows of `RollingIndexes` are verified
  on their own and used by `Resets`; class `Hashgraph` keeps whole chains. Hence the error branches of store look-ups in
  the consensus methods do not arise there.
- RollingIndexMap: a map from participants to windows is a Dafny map of window values in `Resets`, not a map of mutable
  objects.
- LRU list: a cache is a value, the list of its entries, that the node reassigns; the linked list, the map into it and
  the eviction callback are not modelled.
- RoundInfo and PendingRound objects are values in maps and sequences of the node; that the code reaches them through
  shared pointers is not captured. The pending-rounds map next to the sorted list is not modelled.
- Aliasing of events: the attributes that the code writes into event objects are maps from events in the node.
- Round lower bound: after a reset the code skips rounds at or below the block's; class `Hashgraph` models nodes that
  were not reset.
- Hashgraphs.Hashgraph.InsertEvent: the wire information of an event is computed in `Wire`, its block signatures are
  pooled by `Anchors.Notary.AddPending`, and the store's index errors do not arise for the events assumed here (see
  `Indexing`).
- Hashgraphs.Hashgraph.ProcessDecidedRounds: the commit callback is modelled apart, by `Anchors.Notary.Commit` and
  `PeerHistory.Membership`; the last consensus round is the number of frames less one, and the counts of transactions
  are not kept.
- Hashgraphs.Hashgraph.GetFrame: the frame carries the peers of its round but not the whole history of peer-sets, and it
  is computed, not looked up among the stored frames.
- Frames.NewBlockFromFrame: the hash of the frame is added where blocks are signed, in `Anchors`.
- Agreement.NodesFrameAlike: the frame of the code also holds the history of peer-sets, so equality of frame hashes is
  not stated; nor is that of signed blocks, which add the application's answer.
- Delays.LogsConverge: speaks of logs and of the famous witnesses recorded for them, not of class `Hashgraph`, whose
  `Valid()` includes `SafeHistory`.
- Agreement.NodesConverge: for joins that raise the super-majority the class says nothing, because `Valid()` includes
  `SafeHistory`; see `Delays.LogsConverge` and `Joins.JoinDivides`.
- Progress.DecidedInTime: that a decision can wait whenever the condition fails is shown for four peers only
  (`Stalemate.OnlyTiesWait`).
- Joins.JoinDivides: that the change of the peer-set comes from a block is not part of the example.
- Bootstraps.Bootstrap: the stored events are a parameter, in one batch; the database, the batches of a hundred and the
  signature pool processed after each are not modelled.
- FastForwards.FastForward: setting the head, the validators and the list of communicating peers afterwards is not
  modelled.
- Resets.Replanted.Reset: inserts the frame's events only; setting the block, the peer-sets and the last consensus
  round, and consensus after a reset, are not modelled. It assumes that the caches hold the frame's attributes.
- Gossip.Core.Sync: the self-events that a busy node creates at the end of a sync are left to `AddSelfEvent`; the loop
  over heads, promises and logging are not modelled.
- Gossip.Core.AddSelfEvent: the commit callback, which may add to the pools while the event is inserted, is not
  modelled, so the pools end empty.
- Anchors.Notary.Commit: the application's answer is a parameter; receipts are not interpreted there, but in
  `PeerHistory`.
- PeerHistory.Membership.ProcessAcceptedInternalTransactions: the list of communicating peers, the removal of the node
  itself and promises are not modelled; a peer-set is a set, so adding a peer twice adds it once.
- Block timestamps: whether they increase from block to block is not stated.
- Self-ancestor queries, consensus statistics, joining, leaving, suspension, peer selection, timers, transports,
  proxies, the HTTP service and configuration.
- ECDSA, SHA256, encodings and key files: functions or injective by hypothesis.
