# Derecho, modelled in Dafny

Derecho is a library for ordered, stable ("virtually synchronous") multicast among the members of
a group whose membership changes. This project models its protocols and proves what they are for.
`dafny verify dfyconfig.toml` checks everything.

**Ordered multicast.** Each of the `n` members of a view owns one row of a shared state table and
holds a copy of everybody else's; copies are snapshots that may be arbitrarily old, only move
forward, and stop moving when frozen. A member's messages are numbered round robin: message `index`
of `sender` is number `index * n + sender` in the one global order, and a message may skip some of
its sender's following turns. Numbers become stable when all have received them, and are delivered
when all are seen to know that they are stable. When the view ends the leader, wedged, computes how
many messages of each sender everyone holds (the trim), and all deliver up to its end; the next
view's engine queues again what its owner still owes the group.

* `Numbering`, `Messages`, `SharedTable`: numbers, streams of turns, rows and tables.
* `GroupSpec`, `DerechoGroup`, `RaggedEdge`: one member's engine, as functions on its state and as
  the class with fields, queues and loops that is proved against them.
* `Multicast`: the group, one atomic step for each trigger, handler, client call, row arrival,
  freeze, wedge and cleanup. `MemberInvariant`, `MemberSteps`, `MulticastInv`, `Buffers` hold the
  invariant and its proof; `MulticastRuns`, `Delivery`, `TrimAgreement`, `Disagreement`,
  `OwnStream`, `Convergence`, `Receiving` the theorems, and `EveryRun` states them for every run.
* `Positions` says exactly when a client is granted a position and when a message goes out,
  `ClientWords` that what a client said is what the group hears, and `Stopping` what a wedged member
  can still do and that the leader's trim leaves nothing out.
* `AcrossViews` follows one client's messages through a chain of views, to any member that survives
  them; `Repeats` has the two runs in which a message is missed and in which it comes twice.

**Membership.** The leader proposes removals of suspected members and additions of joiners by
appending them to a log kept in a ring of `MAX_MEMBERS` entries in its row; the others echo and
acknowledge, the leader commits what all live members have acknowledged, and everyone installs one
change a view.

* `MembershipSpec`, `ManagedGroup`: one member, as functions and as a class.
* `Membership`: the group; any row a member ever published in a view may arrive at any time, in any
  order. `ChangeLog`, `LeaderSteps`, `ViewInstall`, `FollowerSteps`, `MembershipInv`,
  `MembershipSteps`, `MembershipKeeps` hold what every run keeps and its proof,
  `MembershipAccounts` the leader's accounts, and `MembershipRuns` the theorems about rings and
  accounts. `Reports` and `Triggers` say exactly what each trigger of one member does, and when it
  stops the member.
* `MembershipLists` has agreement on views with its exact condition, `RingFits` what a run that never
  fills the ring guarantees and why tables of up to three members always do, `MembershipPledges` what
  a commit rests on, `Moves`, `MembershipLives` and `NoSplit` the marks and changes that make up a
  member's life and what follows for majorities.
* `Standstill` is about a view that adds a node whose connection the leader does not hold: such a
  view is never left, and without late marks there is none.
* `FirstJoin` is a run from founder to second view. `Camps`, `LeaderCamps`, `Turns` and `FirstViews`
  put steps together into rounds and changes of view. `Divergence` makes of them a run in a table of
  four, and `Crowding` one in every larger table, that end with two members of one view about to
  enter the next with different lists.

**Around the protocols.** `Mesh` (setting up all-to-all TCP connections), `SavedView` (crash-safe
view files), `ViewText` (the printed form of a view), `LogFiles` (the message log and the recovery of
its tail), `Framing` and `Bytes` (remote calls as bytes). `Collections` and `Sums` are small helpers.

Seven results are about where the code falls short, each with the exact condition and a run or an
input that shows it:

* Survivors of a view can deliver different messages, because cleanup stops at the highest number the
  trim names and not at each sender's own bound (`Disagreement`); they deliver the same exactly when
  their counts agree up to that number (`Delivery.SurvivorsAgreeIff`).
* For the same reason a member can miss a message for good, or be sent one again in the next view
  that it has delivered (`Repeats`); each message reaches it once, in order, exactly when it has
  received as many of the sender's turns within the trim as the sender (`AcrossViews`).
* If the leader marks a member failed after it has fixed the next view and before it installs it, the
  new view shows that member as live while its removal is pending. Exactly then its proposals stop
  matching its marks (`MembershipRuns.AccountedIffClean`). `nFailed` then falls below the marks, and
  a member can be proposed twice: its second removal is taken for the joining of a node that nobody
  has brought, and the group never leaves that view (`Divergence.RemovedTwice`, `Standstill`).
* Such views can in the end leave more pending than the ring holds, because the leader compares with
  what is committed and not with what is installed. A change still needed is then written over, and
  members disagree about the next view (`Divergence`, `Crowding`). They agree exactly when those that
  leave a view read the same change (`MembershipLists.AgreeingIffSameChanges`), always if nothing is
  proposed while a ring of changes is waiting to be installed (`RingFits.RoomyIsSound`), and whatever
  happens exactly in a table of at most three, which the program's own build has
  (`Crowding.AllAgreeIffSmall`).
* A view saved before a refused rename can be lost to a later torn write (`SavedView`).
* The tail of a log from message (0, 0, 0) on is the whole log, so that recovery repeats that message
  (`LogFiles.RecoversIff`).
* The check that a call fits its message subtracts in unsigned arithmetic. It is wrong exactly when
  the list of destinations alone overruns the message, as a list of 100 does in a message of 100
  bytes: then it lets any call through (`Framing.CheckIsRightIff`).

Where comment and code disagree the model follows the code: the order is
`delivered_num <= stable_num <= seq_num`, which `derecho_group.h:182-183` words the other way round.

## Model

| member | source | states |
|---|---|---|
| Numbering.JoinSeqNo | derecho_group_impl.h:308-309 | a (sender, index) pair can be recovered from its number, so distinct messages have distinct numbers |
| Numbering.ExactPrefix | derecho_group_impl.h:332-343 | the first-argmin formula is exactly the largest number up to which everything has been received |
| Numbering.PrefixMonotone | derecho_group_impl.h:332-343 | the in-order prefix never shrinks as counts grow |
| SharedTable.TableStepInv | derecho_group_impl.h:332-565 | every row change, hand-over and freeze keeps: rows ordered, stable numbers resting on every seen seq_num, delivered numbers on every seen stable_num, finished trims vouched for |
| SharedTable.ViewsAdvance | derecho_group_impl.h:516-565 | no member's view of any row ever goes back, and a wedged row stops counting |
| SharedTable.DeliveredReceivedByAll | derecho_group_impl.h:536-565 | whatever any member has delivered, every member has received |
| SharedTable.TrimCoversDelivered | managed_group_impl.h:824-868 | a finished trim, in any row and however old, covers all deliveries, and nobody lacks what it includes |
| SharedTable.LeaderTrimVouched | managed_group_impl.h:828-850 | the leader's trim, found or computed as column minima, is backed by a wedged member whose stable prefix it covers |
| DerechoGroupEngine.InOrderPrefix | derecho_group_impl.h:332-336 | the loop computes the in-order prefix of the counts |
| DerechoGroupEngine.DerechoGroup.constructor | derecho_group_impl.h:84-101 | a first engine is empty, with at least a window of buffers for each member, all rows initial |
| DerechoGroupEngine.DerechoGroup.FromOld | derecho_group_impl.h:125-209 | the next view's engine has exactly the old one's unsent messages, renumbered, and all of its buffers; the old engine is left stopped and empty, its row as it was |
| DerechoGroupEngine.DerechoGroup.ConvertMsg | derecho_group_impl.h:157-165 | a carried message keeps its size and content, gets the next index, and leaves room for the turns it skips |
| DerechoGroupEngine.DerechoGroup.GrowBuffers | derecho_group_impl.h:170-174 | total and free buffers grow together up to a window for each member |
| DerechoGroupEngine.DerechoGroup.ReclaimReceives | derecho_group_impl.h:176-179 | one buffer comes back for each receive that was under way |
| DerechoGroupEngine.DerechoGroup.TakeOverStable | derecho_group_impl.h:186-197 | own undelivered messages are queued in number order, others' buffers are reclaimed, empty turns dropped |
| DerechoGroupEngine.DerechoGroup.RequeueSends | derecho_group_impl.h:200-206 | the current send and then the pending ones follow, in order |
| DerechoGroupEngine.DerechoGroup.TakeOverNext | derecho_group_impl.h:207-209 | a message still being filled comes after all others |
| DerechoGroupEngine.DerechoGroup.WindowIsOpen | derecho_group_impl.h:646-651 | the loop finds whether every row has delivered the message one window earlier |
| DerechoGroupEngine.DerechoGroup.GetPosition | derecho_group_impl.h:703-750 | granted exactly when groups exist, the size fits, the window is open, the engine runs and a buffer is free; then the message gets the next index and the skipped turns are set aside |
| DerechoGroupEngine.DerechoGroup.Send | derecho_group_impl.h:690-700 | refused after shutdown, else the filled message joins the queue |
| DerechoGroupEngine.DerechoGroup.SendIfReady | derecho_group_impl.h:633-679 | the front message is sent exactly when all own earlier turns have come back and its window is open |
| DerechoGroupEngine.DerechoGroup.ReceiveDestination | derecho_group_impl.h:370-391 | a free buffer is filed under the number after those received from the sender |
| DerechoGroupEngine.DerechoGroup.FileSkippedTurns | derecho_group_impl.h:325-330 | the loop files one empty entry and counts one more for each skipped turn |
| DerechoGroupEngine.DerechoGroup.FileArrived | derecho_group_impl.h:312-323 | an own message overwrites, another's is only added if the number is free |
| DerechoGroupEngine.DerechoGroup.ReceiveHandler | derecho_group_impl.h:301-344 | the whole handler: message and skips filed, counts raised, seq_num raised to the in-order prefix if that is higher |
| DerechoGroupEngine.DerechoGroup.StabilityTrigger | derecho_group_impl.h:516-532 | stable_num rises to the least seq_num in the table |
| DerechoGroupEngine.DerechoGroup.DeliveryTrigger | derecho_group_impl.h:538-564 | the lowest filed message is delivered exactly when every row's stable_num has reached it |
| DerechoGroupEngine.DerechoGroup.DeliverMessage | derecho_group_impl.h:415-488 | a message with content goes out and frees its buffer, an empty turn has none |
| DerechoGroupEngine.DerechoGroup.DeliverMessagesUpto | derecho_group_impl.h:490-510 | everything filed from delivered_num to the trim's highest number is delivered, in order |
| DerechoGroupEngine.DerechoGroup.Wedge | derecho_group_impl.h:607-611 | the engine stops, whether or not it had stopped before, and nothing else of it changes |
| RaggedEdge.WedgeView | view_impl.h:138-142 | wedging the view stops the engine and says so in the row |
| GroupSpec.TrimEnd | derecho_group_impl.h:495-502 | the last number a trim names: an upper bound of all its numbers that is one of them or the start |
| RaggedEdge.LeastReceived | managed_group_impl.h:839-846 | the inner loop computes the column minimum for one sender |
| RaggedEdge.FindReady | managed_group_impl.h:828-836 | the first row with a finished trim is found, if there is one |
| RaggedEdge.LeaderRaggedEdgeCleanup | managed_group_impl.h:825-855 | the leader publishes the trim and delivers what it includes |
| RaggedEdge.FollowerRaggedEdgeCleanup | managed_group_impl.h:858-868 | a follower echoes the leader's trim and delivers what it includes |
| MulticastInv.InitInv | derecho_group_impl.h:400-412 | the invariant holds when a view starts, also with messages carried over |
| MulticastInv.StepInv | derecho_group_impl.h:301-582 | every step keeps it |
| Buffers.AssertsNeverFire | derecho_group_impl.h:312-322 | the receive path's asserts hold in every reachable state |
| Buffers.HeldSize | derecho_group_impl.h:732-738 | the buffers in use are as many as the distinct numbers they hold |
| MulticastRuns.RunInv | derecho_group_impl.h:301-582 | in every run no assert fires and the invariant holds throughout |
| MulticastRuns.StepsAreTableSteps | derecho_group_impl.h:301-582 | what the protocol does to rows is a step of the shared table |
| MulticastRuns.RunLater | derecho_group_impl.h:516-565 | histories, rows, logs and streams only move forward along a run |
| Delivery.TotalOrder | derecho_group_impl.h:514-565 | any two members' delivered logs, at any two moments, are prefixes of one sequence numbered 0, 1, 2, ... without gap or repeat, and all of it had been received by everyone |
| Delivery.TrimCoversAllDeliveries | managed_group_impl.h:837-855 | whatever any trigger ever delivers, before or after the trim is computed, lies within the trim |
| Delivery.SurvivorsAgreeIff | derecho_group_impl.h:503-509 | with the same trim, two members have delivered the same sequence exactly when their counts agree up to the trim's end |
| TrimAgreement.SurvivorsAgree | managed_group_impl.h:828-868 | in every run in which each leader that cleans up has heard of a finished trim, if there is one, all finished trims are the same, whoever leads |
| TrimAgreement.OneLeaderInformed | managed_group_impl.h:828-855 | so it is in particular where only one member leads |
| Disagreement.SurvivorsMayDisagree | derecho_group_impl.h:495-509 | a run of two members after which they have cleaned up with one trim and delivered different messages |
| OwnStream.OwnStreamConserved | derecho_group_impl.h:183-209 | what a client sent is what was delivered, then what is filed, being sent and pending, in order, none lost or doubled |
| OwnStream.OwnStreamAcrossViews | derecho_group_impl.h:157-209 | across a view change the own stream keeps its messages, contents and order |
| OwnStream.ReindexIndexed | derecho_group_impl.h:157-165 | renumbered messages start at 0 and leave exactly the gaps their skipped turns need |
| OwnStream.NextViewStartsWell | derecho_group_impl.h:167-209 | the next view's engine is one a view may start with, so all theorems hold in every view |
| OwnStream.NextEngineBuffers | derecho_group_impl.h:167-209 | free buffers and those in use add up also across a view change; all are carried over, and new ones are made only as far as a window for each member needs them |
| Convergence.EffectiveStepGains | derecho_group_impl.h:516-565 | each of them lowers one measure and leaves the target alone |
| Receiving.IndexAgreement | derecho_group_impl.h:301-323 | the message filed is the one its sender numbered, under its number, whatever turns were skipped |
| Receiving.ExactState | derecho_group_impl.h:332-343 | seq_num is the exact prefix, delivered_num <= stable_num <= seq_num, and the stable map holds exactly the received numbers above delivered_num |
| Receiving.NumbersMonotone | derecho_group_impl.h:525-560 | the three numbers never go back |
| EveryRun.BuffersSuffice | derecho_group_impl.h:372-386 | in every run, with a window of buffers for each member, a receiver asked for a buffer has one, however stale the rows the window checks read; and free buffers and those in use always add up |
| EveryRun.OneAtATime | derecho_group_impl.h:634-671 | in every run, when a send begins the previous one has come back, and the indices join up |
| EveryRun.RaggedEdgeDelivered | managed_group_impl.h:793-868 | in every run, after cleanup a member has delivered, in strictly increasing order, exactly what it had received up to the trim's end, and so everything within the trim, which covers what any trigger has delivered |
| EveryRun.SurvivorsIdentical | managed_group_impl.h:793-868 | in every run in which leaders know of the trims already finished, survivors that hold no message beyond its sender's bound numbered within the trim deliver identical sequences |
| EveryRun.NextView | derecho_group_impl.h:125-209 | in every run the next view's engine may start a view, and what was delivered and what it queues are all the client sent |
| EveryRun.ConvergesFromRun | derecho_group_impl.h:516-565 | from the end of any run, once receives stop, effective hand-overs and triggers end, with every stable_num and delivered_num at the least seq_num |
| EveryRun.StabilityReaches | derecho_group_impl.h:516-532 | in every run the stability trigger never lowers stable_num, takes it to at least one seq_num in sight and past none, so that a second run of it changes nothing, and touches nothing else |
| Positions.WindowOpenIff | derecho_group_impl.h:646-651 | the window is open for a turn exactly if every row shows delivered all own turns a whole window or more before it |
| Positions.PositionGrantedIff | derecho_group_impl.h:703-750 | in every run a client that holds no position is granted one exactly if the group can send and runs, the message fits with its 9 bytes of header, and the window is open; a buffer is then always free |
| Positions.PositionStaysGood | derecho_group_impl.h:690-700 | a position that was granted can be sent in at any later time, until the member stops |
| Positions.SendGoesIff | derecho_group_impl.h:633-679 | in every run the front message goes out exactly if the group can send and runs, and the member has received all its own turns before it; the second look at the window never holds a message up |
| ClientWords.SaidIsHeard | derecho_group_impl.h:690-750 | in every run what the members deliver of a client's messages, with what is still owed, says exactly what the client said in its calls, in order: the sizes, skipped turns and kinds it asked for with the payloads it sent; and the indices leave the gaps it asked for |
| ClientWords.ChainWords | derecho_group_impl.h:125-209 | over any chain of views the messages a client has had accepted say what it has said in all of them |
| ClientWords.ChainSaysAll | derecho_group_impl.h:125-209 | so at even ends what a survivor has been given and the sender still owes is, word for word, what the client said |
| Stopping.StoppedForGood | derecho_group_impl.h:607-631 | in every run, once a member has stopped, its client is granted and sends nothing, nothing of its is handed on, and it receives, takes no buffer and counts no more; only its cleanup can still deliver |
| Stopping.NotCreatedIsSilent | derecho_group_impl.h:633-712 | in every run a member whose RDMC groups could not be made accepts and sends nothing |
| Stopping.TrimLeavesNothingOut | managed_group_impl.h:824-855 | in every run, what a leader that cleans up sees of the members not marked failed is all they will ever have received, and a trim it computes holds exactly what all of these hold for good and the rows of the failed show |
| AcrossViews.CarriedExactlyIff | derecho_group_impl.h:183-209 | what a survivor has delivered of a sender's messages, followed by what the sender sends again in the next view, is all its client has sent, exactly if the survivor has received as many of the sender's turns up to the trim's end as the sender; with fewer it misses some for good, with more it gets some again |
| AcrossViews.ChainDelivers | derecho_group_impl.h:125-209 | over any chain of views in which that holds at each end, what the survivor has delivered and what the sender still owes is all the client ever sent, each message once, in order, whichever view it went out in |
| Repeats.MayBeMissed | derecho_group_impl.h:183-209 | a run that ends with a message its sender has delivered and will not send again, and the other member does not have |
| Repeats.MayBeRepeated | derecho_group_impl.h:200-206 | a run that ends with a message one member has delivered and its sender has queued again for the next view |
| MembershipSpec.RankOf | view_impl.h:59-66 | the first rank at which a node stands, -1 exactly if it is no member |
| MembershipSpec.RankOfLeader | view_impl.h:39-46 | the lowest rank not marked failed, -1 exactly if all are |
| MembershipSpec.MinAckedUpto | managed_group_impl.h:780-791 | a lower bound of the own and all unfailed acknowledgements that one of them attains |
| ManagedGroupEngine.ManagedGroup.Start | managed_group_impl.h:652-661 | a founder is alone in view 0 |
| ManagedGroupEngine.ManagedGroup.RankOfMember | view_impl.h:59-66 | the loop finds the rank |
| ManagedGroupEngine.ManagedGroup.RankOfTheLeader | view_impl.h:39-46 | the loop finds the leader's rank |
| ManagedGroupEngine.ManagedGroup.HasUncommittedChange | managed_group_impl.h:766-777 | found exactly if some uncommitted ring entry names the node |
| ManagedGroupEngine.ManagedGroup.LeastAcked | managed_group_impl.h:780-791 | the loop computes the least acknowledgement |
| ManagedGroupEngine.ManagedGroup.SuspectedNotEqual | managed_group_impl.h:744-755 | true exactly if some row suspects a rank not seen suspected before |
| ManagedGroupEngine.ManagedGroup.AggregateSuspicions | managed_group_impl.h:331-335 | the double loop joins all rows' suspicions into the own row |
| ManagedGroupEngine.ManagedGroup.MarkOneFailed | managed_group_impl.h:338-366 | marking, the two majority checks, wedging, and the leader's proposal |
| ManagedGroupEngine.ManagedGroup.ProposeRemoval | managed_group_impl.h:356-366 | a removal is proposed unless pending, and throws only when the ring is full |
| ManagedGroupEngine.ManagedGroup.CopySuspected | managed_group_impl.h:758-763 | only the ranks of this view are remembered |
| ManagedGroupEngine.ManagedGroup.SuspectedChanged | managed_group_impl.h:324-370 | the whole trigger, with what it throws |
| ManagedGroupEngine.ManagedGroup.Report | managed_group_impl.h:873-891 | the failure report, with its majority check |
| ManagedGroupEngine.ManagedGroup.ReceiveJoinFrom | managed_group_impl.h:700-724 | a joiner is proposed unless exactly half a ring is uncommitted |
| ManagedGroupEngine.ManagedGroup.CommitChange | managed_group_impl.h:389-394 | the commit point moves to the least acknowledgement |
| ManagedGroupEngine.ManagedGroup.AckProposedChange | managed_group_impl.h:400-423 | a follower echoes the leader's ring and counters, and everyone acknowledges all proposals and wedges |
| ManagedGroupEngine.ManagedGroup.ViewAfter | managed_group_impl.h:440-476 | the copy loop yields the member list and marks without the one removed, or with the joiner at the end |
| ManagedGroupEngine.ManagedGroup.StartViewChange | managed_group_impl.h:428-480 | the next view is made from the own ring's entry for it; a member that is removed stops |
| ManagedGroupEngine.ManagedGroup.IsMetaWedged | managed_group_impl.h:487-494 | true exactly if all members not marked failed are wedged |
| ManagedGroupEngine.ManagedGroup.InstallView | managed_group_impl.h:628-649 | the new view has a fresh table with the own counters and ring carried over |
| Reports.ReportGoesOnIff | managed_group_impl.h:873-891 | a report adds the one rank to those the own row suspects, and the member goes on exactly if these are then less than half of its view |
| Reports.FollowerReported | managed_group_impl.h:873-891 | so in every run a follower that goes on after a report suspects a minority, and only that follower has changed |
| Reports.LeaderReported | managed_group_impl.h:873-891 | and so does the leader |
| Triggers.SuspectExactly | managed_group_impl.h:324-370 | a member that survives the suspicion trigger has marked exactly the ranks some row in sight suspects, suspects them itself and remembers them, counts them in nFailed, has wedged its row if there were new ones, and they leave it a majority; it stops only if they would not, or for want of room for its proposals |
| Triggers.ContainsIff | managed_group_impl.h:766-777 | as long as the ring holds all that is uncommitted, a node is found in it exactly if an uncommitted proposal names it |
| Triggers.RemovalProposedOnce | managed_group_impl.h:356-366 | a removal that is not pending becomes the next entry of the log, one that is pending changes nothing, and the leader stops exactly if it is not pending and a whole ring is uncommitted |
| Triggers.CommitReaches | managed_group_impl.h:385-394 | the commit point rises to what all unmarked members and the leader itself have acknowledged and one of them no more than that, so that nothing is left to commit |
| Triggers.AckReaches | managed_group_impl.h:396-423 | after the trigger a member holds the leader's ring and counters as it sees them, has acknowledged all of it and is wedged, so that nothing is left to acknowledge |
| Triggers.JoinTaken | managed_group_impl.h:700-724 | in every run a joiner becomes the next entry of the log and the leader holds its connection, unless exactly half a ring is uncommitted and the leader stops |
| Triggers.NextViewExactly | managed_group_impl.h:440-476 | the node named leaves if it is a member and is last and unmarked if not; all others keep their order and their marks, nFailed loses the one removed, and the own rank still points to the member itself, -1 exactly if it is the one removed |
| Triggers.StartExactly | managed_group_impl.h:428-480 | a change begins with the ring's entry under the number of the view, and stops the member exactly if that names it |
| Triggers.InstalledClean | managed_group_impl.h:628-649 | in a new view a member suspects nobody, is not wedged, has finished no trim and has heard nothing, its counters and ring are the old ones, and it cannot leave it at once |
| Triggers.AllWedgedBefore | managed_group_impl.h:487-494 | in every run, when a member enters the next view, every other member it has not marked failed has put a wedged row in the old one |
| ChangeLog.PendingBound | managed_group_impl.h:337-383 | pending proposals are at most the members not spared, plus one for a joiner |
| ChangeLog.MembersDistinct | managed_group_impl.h:440-476 | no view ever lists a member twice |
| LeaderSteps.MarkKeeps | managed_group_impl.h:337-366 | marking a member appends exactly its removal and never runs out of room |
| LeaderSteps.SuspectKeeps | managed_group_impl.h:324-370 | the leader's whole trigger keeps its accounts |
| LeaderSteps.JoinKeeps | managed_group_impl.h:700-718 | a join keeps them too |
| ViewInstall.InstalledMatched | managed_group_impl.h:440-476 | removals and joins pending after an installed change match the new view as they matched the old |
| ViewInstall.MatchedIffNoLateMarks | managed_group_impl.h:448-471 | the new view's marks match the pending removals exactly if nobody was marked failed since the change began |
| ViewInstall.RemovalKeepsMajorityIff | managed_group_impl.h:448-453 | a removal does exactly if the member removed had been marked failed here |
| MembershipKeeps.BaseStep | managed_group_impl.h:324-580 | every step keeps, whatever is marked, lost or overwritten: counters in order, rings that are stretches of the leader's log, tables made of rows really put, the leader at the head of every view |
| MembershipAccounts.StepInv | managed_group_impl.h:324-580 | a step that installs no view hiding a mark keeps the leader's accounts |
| MembershipAccounts.UncleanBreaks | managed_group_impl.h:448-471 | and a step that does breaks them |
| MembershipLists.AgreeingIffSameChanges | managed_group_impl.h:425-476 | in a run any two views of one number, in use, fixed for later, or on their way to a joiner, list the same members in the same order, exactly if members that leave the same view read the same change from their rings |
| MembershipLists.ListedIffSound | managed_group_impl.h:405-476 | and all of them are the first view's members changed by the leader's first proposals, exactly if nobody begins a change whose proposal has been written over by another node's |
| MembershipLists.ViewsAgree | managed_group_impl.h:385-476 | so in such a run two members in the view of one number have the same ordered list, the log's |
| RingFits.RoomyIsSound | managed_group_impl.h:358-362 | a run in which the leader makes no proposal while a ring of changes is waiting to be installed, the guard it should have, is such a run |
| RingFits.SmallTablesAgree | max_members.h:1 | with room for at most three members, as in the program's own build, every run keeps that guard and the leader's accounts, and all views agree |
| Crowding.MembersMayDisagree | managed_group_impl.h:356-366 | for every table of four or more, a run that ends with the leader and another member of its view changing to the next view with different lists; so the guard is not kept and a change still needed has been written over |
| Crowding.AllAgreeIffSmall | max_members.h:1 | so views agree in all runs exactly in tables of at most three |
| Divergence.RingOverfilled | managed_group_impl.h:337-366 | in the run for a table of four the leader overfills its ring without its own check noticing, and leads on with half its view marked failed |
| Divergence.LateMarkHidden | managed_group_impl.h:448-471 | a reachable view in which a member counts as live while its removal is pending |
| Divergence.RemovedTwice | managed_group_impl.h:356-366 | a reachable view from which a member has been removed whose second removal is pending: the leader counts two failed members fewer than none, and is changing to a view that adds that member though nobody is joining |
| Standstill.StrandedForGood | managed_group_impl.h:505-510 | a leader that is changing to a view that adds a node whose connection it does not hold stays in its view for ever, and nobody enters a later one |
| Standstill.NeverStranded | managed_group_impl.h:373-383 | in runs without late marks every view that adds a node adds the one whose connection the leader holds |
| MembershipRuns.EchoedPrefix | managed_group_impl.h:405-413 | in every run each member's counters are in order and its ring is a stretch of the leader's one log |
| RingFits.CleanIsRoomy | managed_group_impl.h:337-383 | runs without late marks keep the guard |
| MembershipRuns.LeaderWritesLog | managed_group_impl.h:361-362 | in every run the leader's ring is the end of its log, its view is no further than its commits, and it never proposes itself |
| MembershipRuns.AccountedIffClean | managed_group_impl.h:337-476 | pending removals and marks match one to one, with at most one join beside them, all along a run, exactly if the leader never marks anyone between fixing a view and installing it |
| MembershipRuns.RingSafety | managed_group_impl.h:337-383 | in those runs no more is pending than there are members, all of it is still in the ring, the trigger never runs out of room, and the leader's nFailed is exact and a minority |
| MembershipPledges.CommittedIsAcked | managed_group_impl.h:385-394 | in every run in which views agree, what is committed has been acknowledged by every running member that counts as live and has been in all the leader's views since its own |
| MembershipPledges.CleanCommittedIsAcked | managed_group_impl.h:385-394 | and in runs without late marks by every running member that counts as live |
| MembershipLives.LifeMakesView | managed_group_impl.h:337-476 | in every run the view of every running member is the first view with the marks the member made and the changes it installed; it counts a minority; and nFailed is the number of its marks exactly if it has removed only members it had marked |
| NoSplit.LifeChanges | managed_group_impl.h:441-471 | all changes a member installs are proposals of the leader's, and the same for all members where views agree |
| NoSplit.SuspectKeepsMajority | managed_group_impl.h:337-353 | any member with exact accounts that survives the trigger is in the majority |
| NoSplit.CommonAcknowledger | managed_group_impl.h:337-394 | where views agree, two members in the view of one number never mark it away between them, but for the members they removed unmarked; if there are none, whatever either would commit rests on a member neither has marked |
| Moves.AccountsDrift | managed_group_impl.h:448-471 | over any moves nFailed falls behind the marks by exactly the removals of members not marked |
| FirstJoin.FounderAndJoinerMeet | managed_group_impl.h:373-580 | a run in which a founder takes in a joiner and both reach view 1 with the same members |
| Mesh.TcpConnections.AddConnection | connection_manager.cpp:8-56 | connecting to a lower id and accepting from a higher one, with each way to fail |
| Mesh.TcpConnections.EstablishNodeConnections | connection_manager.cpp:58-69 | one attempt for each other id, in ascending order |
| Mesh.AttemptSucceedsIff | connection_manager.cpp:8-56 | an attempt succeeds exactly if the id is another node's, a peer answers, and one that is connected to gives the id it should have; else no other socket changes |
| Mesh.EstablishedExactly | connection_manager.cpp:58-69 | whatever the network answers, a node ends with sockets for exactly the lower ids that answered as themselves and the ids that came to it |
| Mesh.AllAnswerAllConnected | connection_manager.cpp:58-69 | if every lower id answers as itself and every higher one comes once, the sockets are for exactly the others |
| Mesh.NoDeadlock | connection_manager.cpp:58-69 | in every state that is not final some pair can connect |
| Mesh.MeshCompletes | connection_manager.cpp:58-69 | a run is final exactly after n(n-1)/2 connections |
| Mesh.MeshConnectsAll | connection_manager.cpp:8-69 | at the end each node has a socket for exactly the other ids, leading to that node |
| Mesh.MeshIsEveryLoop | connection_manager.cpp:8-69 | and they are those its own loop over the ids makes of what the network has answered it |
| SavedView.ViewStore.PersistView | view_impl.h:202-216 | the disk after a save that is cut, refused its rename, or goes through |
| SavedView.ViewStore.LoadView | view_impl.h:219-253 | the newer of the two files that hold a whole view |
| SavedView.LoadsNewest | view_impl.h:219-253 | whatever is on the disk, what is loaded is one of the whole views there, none is newer, and the main file wins a tie |
| SavedView.LoadsLastCompletedIff | view_impl.h:201-253 | loading gives the last view whose swap write completed, exactly if no later write cut into a swap file still waiting for its rename |
| SavedView.OneCrashIsSafe | view_impl.h:201-253 | a single crash loses nothing |
| SavedView.RefusedThenCut | view_impl.h:201-253 | a refused rename and then a cut write bring back an older view than the last completed one |
| ViewText.WriteView | view_impl.h:256-270 | the printed form of a view |
| ViewText.ReadFlags | view_impl.h:291-297 | the word loop reads the failure flags of a line |
| ViewText.ViewRoundTripIff | view_impl.h:255-309 | a printed view parses back to itself exactly if its addresses are non-empty words and its flags 0 or 1 |
| ViewText.FlagWords | view_impl.h:263-266 | a member that has failed is printed as T and one that has not as F |
| ViewText.DigitWeight | view_impl.h:257-268 | numbers are decimal: a digit counts for ten to the power of how many follow it |
| ViewText.NoLeadingZero | view_impl.h:257-268 | and printed as short as they can be |
| ViewText.SpacedAt | view_impl.h:258-266 | a list is printed word by word, with one space after each |
| ViewText.ReadIntExactly | view_impl.h:276-303 | a line of white space, an optional sign, digits and anything else gives the number if it is a 32-bit signed one, and throws otherwise |
| ViewText.ReadsAsFarAsItGoes | view_impl.h:271-309 | the first k printed lines set the first k fields: numbers are replaced, lists added to, the rest stays |
| LogFiles.FileWriter.WriteMessage | filewriter.cpp:111-117 | a message joins the write queue |
| LogFiles.FileWriter.PerformWrites | filewriter.cpp:64-91 | the queue is drained into data and records in order, and callbacks become due |
| LogFiles.FileWriter.IssueCallbacks | filewriter.cpp:101-107 | all due callbacks are made, in order |
| LogFiles.OrderKept | filewriter.cpp:48-117 | however the threads interleave, files and callbacks follow the order of enqueueing |
| LogFiles.EnqueuesAnyTime | filewriter.cpp:111-117 | a message can be handed in at any time |
| LogFiles.CanFinish | filewriter.cpp:64-107 | from any moment the two threads can finish, with everything handed in on disk and called back, in order |
| LogFiles.OffsetsFromZero | filewriter.cpp:70-84 | record k bears the view, sender, index and cooked flag of the k-th message handed in, its offset is the length of all data before, and slicing the data by it gives the message |
| LogFiles.TailLength | log_tail_length.cpp:36-75 | the scan loop, with what it does for (0, 0, 0) and for a target that is not there |
| LogFiles.RecoversIff | log_tail_length.cpp:42-75 | a log ending at the target plus the tail of a longer one equals the longer one, exactly if the target is not (0, 0, 0) or the log holds no data |
| LogFiles.MissingTargetHasNoTail | log_tail_length.cpp:48-60 | a target that is not in the log yields an empty tail |
| Framing.ArgumentsRoundTrip | derecho_caller.h:262-272 | serialized arguments are read back whatever follows them |
| Framing.ArgumentsInOrder | derecho_caller.h:262-272 | each argument lies between those before it and those after it |
| Framing.HeaderRoundTrip | derecho_caller.h:515-532 | size, operation and sender are read back from a header |
| Framing.CallRoundTrip | derecho_caller.h:281-304 | operation, sender, invocation id and arguments of a call are read back from its frame |
| Framing.CallLayout | derecho_caller.h:515-532 | a call is four words of eight bytes, the length of what follows the header, operation, sender and invocation id, and then the arguments |
| Framing.PayloadLayout | derecho_group_impl.h:756-774 | a cooked payload is the count in eight bytes, four bytes for each node, in order, and then the call |
| Bytes.ByteWeight | derecho_caller.h:515-532 | byte i of a number counts for 256 to the power i |
| Bytes.WordRange | connection_manager.h:10 | words are exactly the 64-bit numbers and node ids exactly the 32-bit ones |
| Framing.CheckIsRightIff | derecho_group_impl.h:756-774 | the room check after the destinations is right, for any frame, exactly if the destination list alone is within the message; otherwise the subtraction has wrapped around |
| Framing.DerechoCallerSend | derecho_group_impl.h:756-774 | the destinations and then the frame, if the check finds room |
| Framing.DeliverCooked | derecho_group_impl.h:420-448 | the destination loop, and the frame handed over exactly to those it is for |
| Framing.CookedRoundTrip | derecho_group_impl.h:420-448 | every member reads the destinations sent, and exactly those addressed read the call sent |
| Framing.RemoteInvocable.Send | derecho_caller.h:281-304 | the frame, and an empty entry for the invocation's results |
| Framing.RemoteInvocable.ReceiveCall | derecho_caller.h:368-393 | the reply to the call read from a frame, or that it threw |
| Framing.RemoteInvocable.ReceiveResponse | derecho_caller.h:306-326 | a node's answer is recorded under its invocation |
| Framing.ReplyRoundTrip | derecho_caller.h:368-393 | a reply is read back with its invocation id and result |
| Framing.ReplyLayout | derecho_caller.h:368-393 | a reply is the header, one byte that is 1 exactly if the call threw, the invocation id in eight bytes, and then the result, if there is one |
| Framing.AnswersKept | derecho_caller.h:306-326 | after any replies in any order a caller holds, for each invocation, the last one of every node that replied, and for the others what it held before |
| Framing.CallBringsBackResult | derecho_group_impl.h:420-466 | the caller gets, from each member addressed, what the function returned on the arguments sent |

## Left out

- RDMA verbs, RDMC and the SST library: a message arrives whole and in its sender's order, a row as a whole snapshot; the RDMC handlers run only after the transport offers them.
- Threads, locks and wake-ups: each locked section, trigger or handler is one atomic step; the sender trigger, which only wakes the sending thread, has no counterpart, and a trigger that throws half way leaves none of its rows published.
- Message buffers are counted, not identified; a buffer's content travels with its message.
- Persistence mode in the multicast proofs (`file_writer` set): its buffers come back only after the disk write, `get_position` does not look at `persisted_num`, and messages carried in `non_persistent_messages` would also use up indices.
- Number widths in the multicast and membership models: sequence numbers and counters are unbounded; the table keeps `globalMin` as `int` while counts are `long long`, a truncation that is not modelled, and a negative `pause_sending_turns` is not either.
- `MAX_MEMBERS` is a parameter of the membership model (the source sets it to 2); runs in which a view outgrows it, where the program would write past its arrays, are not considered.
- Failover: the leader at rank 0 is never suspected, and `IAmTheNewLeader` and `merge_changes` are not modelled.
- MembershipLists.ViewsAgree: for runs in which no change still needed has been written over, because past that point it is false (Crowding.MembersMayDisagree). The guard of RingFits.RoomyIsSound is enough and not necessary: a proposal past it may be written over a change that all have read, or name the same node.
- MembershipRuns.RingSafety: for runs without late marks, exactly those in which the leader's accounts hold (MembershipRuns.AccountedIffClean).
- MembershipAccounts.StepInv: for steps that install no view hiding a mark; any other step breaks the accounts (MembershipAccounts.UncleanBreaks).
- MembershipPledges.CleanCommittedIsAcked: for runs without late marks, in which it needs nothing said of the members' views.
- MembershipPledges.CommittedIsAcked: for runs in which views agree, and for members that have been in all views since their own: a process that is removed, runs on in its old view and is named again has not acknowledged what was committed in between.
- ManagedGroupEngine.ManagedGroup.Report: for members only; the program does not check, and about anyone else would write before the array.
- DerechoGroupEngine.DerechoGroup.Wedge: RDMC groups, triggers and threads, which it also takes down, have no counterpart; a client that asks for a position again before it sends, and so loses a buffer, is in the class and not in the protocol's runs.
- Framing.DerechoCallerSend: the frame only; the retried send and the pending results after it are not part of it.
- The order in which one sweep of the SST library evaluates the triggers: a member acknowledges what it has heard proposed before it begins a change; otherwise the membership model lets triggers that are enabled run in any order, since a row may arrive between two triggers of one sweep; this allows more than the program does. In the runs of Divergence and Crowding the leader takes no joiner in, commits nothing and marks nobody while it could begin a change or install a view (Camps.PromptRun).
- What a stranded leader does with a node that does not come: it stands still in the model, and blocks on its connections in the program.
- Joiner addresses: `joiner_ip` is not tracked, only member ids; a joiner's id is assumed not to belong to a member, a pending joiner or a running process.
- The recovery constructor, which starts a group at a later view number, and the first joiner's handshake in the founder's constructor: the first view is given.
- Mesh: sockets exist or fail as a whole; a failed connect leaves the map as it was, which holds if the socket is made before the map entry; listeners are up from the start.
- ViewText: a sign in front of a member id, which the stream reader would accept, counts as no number.
- SavedView: a file shorter than the size header reads as nothing; the program then sizes a buffer from an unset variable.
- Framing: byte order is little endian; when the frame does not fit, the program goes on to write through a null pointer, where the model only says that there is no frame; void-returning calls, promises and futures, and the choice of fresh invocation ids are not modelled, and a handler that answers twice for one node overwrites its answer.
- The metadata mode of log_tail_length, the header records of the metadata file, and logs that were not empty when opened beyond what LogFiles.FileWriter keeps about them.
- LogFiles.TailLength: with no record at all the program reads an uninitialised buffer; the model takes the end of the target to be 0.
- Logging, statistics, experiments and main programs.
