# A linear-PBFT replica and its client, verified

This project models the replica of a linear-communication PBFT service (`src/server/async_server.cc`) and the client
that talks to it (`src/client/pbft_client.cc`), and proves what the protocol is for: that correct replicas never
disagree on a committed request, that they execute the same transfers with the same results, that a request committed
on the slow path survives a view change, and that the outcome a client takes for a transfer really is one as long as
no retry is answered from a stale listing, the one way in which the code gets it wrong. It also proves that the
protocol does its work: for every f, with f replicas silent, a client's transfer is executed and answered, and a
silent leader is replaced. The algorithm is that of Castro and Liskov, "Practical Byzantine Fault Tolerance", OSDI
1999, sections 4.2 to 4.4, with the leader collecting votes and broadcasting certificates.

The project has two layers that meet in one transition function.

* **Objects.** `Server.dfy` holds the class `Replica` with the replica's own fields: a vector of references to log
  entries that handlers update in place, the digest table that shares those entries, watermarks, balances,
  checkpoints, view-change messages. `ClientProcess.dfy` holds the class `PbftClient` with its queue of
  heap-allocated transfers. Each handler is a method with the source's branches and loops.
  `Represents(s)` says that an object stands for the value `s`; every handler is proved to take an object standing
  for `s` to one standing for exactly the state that the transition function gives.
* **Values.** `ReplicaState.dfy` and `Client.dfy` give one function for each handler. Invariants are proved of every
  event, then of every run, then of a whole system of `3f + 1` replicas of which at most `f` are faulty.

How the system is modelled:

* A move delivers one event to one correct replica. Messages may be lost, repeated, reordered, delayed and made up.
  View-change timers may fire at any moment, the optimistic timer at any moment after it was started. Faulty replicas
  are everything else: there is no state for them, only the messages they can cause.
* Signatures are symbolic. A good MAC or client signature naming a correct signer on some contents stands for a
  signature that signer made on them; nothing is assumed about the rest, and in particular the receiver's own id in a
  certificate and the MAC of a pre-prepare are not checked, as in the source. Digests are free constructors, so
  hashing has no collisions.
* `slots` keeps every entry ever created, under the sequence number it was created for. The log is the part at or
  above the low watermark; the digest table refers to entries, in the log or not.
* `signed`, `executed`, `sent`, `issued`, `completed` and `heard` are histories that no handler reads.
* `Enabled` states where the source would read a null slot, or a slot outside its vector: an acknowledgement or a
  timer for an empty or truncated slot, a proposal above the high watermark, a checkpoint over a hole, a NEW-VIEW
  list shorter than the recomputed one that agrees with it throughout. Those events are excluded, nothing else is.

Where the files are:

| file | content |
|---|---|
| `Messages.dfy`, `Quorum.dfy` | message values; counting arguments over replica ids |
| `Accounts.dfy`, `CheckpointText.dfy` | balances and the transfer rule; the string hashed at a checkpoint |
| `Selection.dfy` | what `computeBigO` selects, and its nested loops |
| `ReplicaState.dfy`, `Change.dfy` | the transition function; each event as one small change |
| `Window.dfy`, `ExecutionFold.dfy`, `Voting.dfy`, `Gaps.dfy`, `Entries.dfy` | every run, across views: the sliding window, execution, one vote per slot, gaps in execution, what log entries hold |
| `OneView.dfy`, `Agreement.dfy`, `IndexTable.dfy` | the system in one view: certificates, agreement, the digest table |
| `ViewChanges.dfy`, `Handover.dfy`, `Survival.dfy`, `Carryover.dfy` | view changes, NEW-VIEW, survival of slow-path commits |
| `Retries.dfy`, `Reporting.dfy`, `Snapshots.dfy` | every run, across views: when a reply tells the truth, what execution reports, what checkpoints record and when they become stable |
| `Proposals.dfy`, `Certificates.dfy` | every run, across views: each message of the normal case, exactly when it is sent, what it carries and what it does where it arrives |
| `Timeouts.dfy`, `Takeover.dfy` | every run, across views: what is awaited, exactly when a timer or a view change starts a view, what happens between views |
| `Completion.dfy`, `Failover.dfy` | for every f: a request from the client and back with f replicas silent; a silent leader replaced |
| `Scenario.dfy`, `Honest.dfy` | steps of small systems, with adversarial messages and with real ones only |
| `Uniqueness.dfy`, `FastPath.dfy`, `SlowPath.dfy`, `StaleReply.dfy` | reachable states that show where a promise fails, and that hypotheses can be met |
| `Server.dfy` | the replica object |
| `Client.dfy`, `Issuing.dfy`, `ClientProcess.dfy`, `Outcome.dfy` | the client, what it sends, the client object, client and replicas together |

What the proofs say about the code, where a reader might expect otherwise:

* "Prepared" counts `2f` signers only and a pre-prepare's MAC is not checked, so it is not unique, even under a
  correct leader. Two slots hold the same request once their stored signers together exceed `4f + 1`
  (`PreparedAgree`), and for every f at least 1 that bound is the least (`PreparedDiffer`); with typed channels and a
  correct leader they always do (`TypedSlotsAgree`). Agreement rests on the `2f + 1` signers behind every committed
  slot, including fast-path commits and received certificates.
* A pass of execution steps over empty slots, so two correct replicas can execute equally far to different balances
  (`GapsDiffer`). Over every run the executed list has no gap if and only if no event committed a slot over a hole
  (`ContiguousExactly`, `GapFreeExactly`); `StateAgreement` is for such replicas.
* The selection of a NEW-VIEW drops slot 0 and the last slot any proof mentions. `CarriedOver` gives exactly which
  prepared slots are carried over. In `BothLost` slots 0 and 1 commit on the slow path, f + 1 replicas hold both
  prepared, and the selection repeats neither: slot 0 although a later slot is proved, slot 1 because it is the last.
* A NEW-VIEW may be longer than the recomputed list, and a backup votes for all of it, whatever it signed before
  (`RevotesSignAnything`). While accepted lists name earlier views, one vote per slot holds if and only if none of them
  contradicted what was signed (`NoEquivocation`); a list that names the view it opens breaks it later
  (`LaterViewEquivocates`).
* A view change composed by a correct replica verifies elsewhere exactly under the condition of `ComposeVerifies`, in
  every view. A slot committed on the fast path may lack the prepares it needs: in `FastPathFails`, with every replica
  correct and every message sent by whom it names, nobody accepts the view change.
* A pre-prepare of a later view gives a slot to another request and leaves the old digest listed, so a retry of the old
  transfer is answered with the new one's result. `RetryExact` says exactly when a retry is answered truly: when the
  listed entry still holds its digest. In `WrongOutcome` a client completes a transfer as executed that no correct
  replica executed; `ResultSound` excludes such retries, and within one view there are none (`ResultSoundInView`).
* A checkpoint string determines the balances if and only if they are those of one account whose name does not join
  two names in order (`TextUnique`): every larger store prints like a store of one account (`PrintsAsOne`), and from
  the source's own ten accounts two short lists of transfers lead to different balances that print alike
  (`SourceCollides`). Among stores whose names never read as two it does determine them (`TextInjective`).
* For every f the slow path completes with f replicas silent, on messages really sent, and f + 1 answers reach the
  client (`RequestCompletes`, `ClientAnswered`); when the leader of view 1 stays silent, view changes delivered one at
  a time put replica 2 in its place (`SilentLeaderOvercome`). The exact thresholds are stated for every f
  (`AckExactly`, `CommitExactly`, `TimerExactly`, `StableExactly`, `ViewChangeExactly`).
* A leader proposes a listed request again under whatever digest the listed slot holds, so after another request took
  the slot every backup rejects the proposal: `ProposalDelivered` says exactly when it is accepted.
* The timer of a requested view asks for nothing. It only raises the view last asked for, so timers for views up to it
  fall silent (`ViewTimerExactly`, `DigestTimerExactly`).
* The first checkpoint message for a slot the replica has not reached makes a record with a blank digest, and until the
  replica gets there the others count only if their digest is blank too. `SendersGrow` and `StableExactly` say exactly
  which messages count and when a checkpoint becomes stable.
* With a negative amount a balance can fall below zero: `ApplyNonNegative` gives exactly when it stays non-negative.
* The repository's README speaks of a checkpoint every 50 transactions; the code takes one every 10
  (`checkpointStepSize`). The model follows the code and leaves the step a parameter.

## Model

| member | source | states |
|---|---|---|
| Selection.SlotsSelected | src/server/async_server.cc:938-958 | the selected list has an entry for slot n if and only if n is positive and above every stable checkpoint of the list, and some proof names a later slot |
| Selection.BigOSelects | src/server/async_server.cc:904-958 | for every slot strictly between, the entry is a highest-view pre-prepare among all proofs with 2f valid prepares, or the NOP exactly when there is none |
| Selection.CarriedOver | src/server/async_server.cc:899-938 | a slot proved prepared is carried over if and only if it is above every stable checkpoint, is not slot 0, and is not the last slot any proof names |
| Selection.OrderIndependent | src/server/async_server.cc:904-936 | reordering or repeating the messages keeps length and every view, and every context when no two accepted proofs conflict |
| Selection.VerifierIndependent | src/server/async_server.cc:763-780 | two replicas that verify the same prepares select the same contexts |
| Selection.CountValid | src/server/async_server.cc:921-927 | the inner counting loop computes the number of matching, verifying prepares |
| Selection.HighestStable | src/server/async_server.cc:899-910 | the first loop finds the highest stable checkpoint above 0, who claims it, and its data |
| Selection.Gather | src/server/async_server.cc:912-936 | the loop over one message's proofs keeps the running map equal to the best pre-prepare of every slot among all proofs seen |
| Selection.Select | src/server/async_server.cc:898-959 | the nested loops compute the specified selection, of length max(0, maxSequenceNum - maxStableCheckpoint - 1), and the stable checkpoint with its server |
| Accounts.ApplyConserves | src/server/async_server.cc:1142-1151 | a transfer, self-transfers and created accounts included, keeps the total of all balances |
| Accounts.ApplyNonNegative | src/server/async_server.cc:1146-1151 | a transfer keeps all balances non-negative if and only if its amount is not negative, or it is to oneself, or the receiver covers it |
| Accounts.FoldBounded | src/server/async_server.cc:1146-1151 | without negative amounts every balance stays between 0 and the initial total after any list of transfers |
| Accounts.NegativeAmountOverdraws | src/server/async_server.cc:1146-1151 | a concrete negative transfer that drives the receiver below zero |
| CheckpointText.TextInjective | src/server/async_server.cc:1184-1196 | equal checkpoint strings come from equal balances, negatives included, when no account name reads as a name, an amount and a further name |
| CheckpointText.TextUnique | src/server/async_server.cc:1184-1196 | a checkpoint string is printed by one store only if and only if that store has a single account whose name does not join two names in ascending order |
| CheckpointText.PrintsAsOne | src/server/async_server.cc:1184-1196 | every store of two or more accounts prints like a store of one account |
| CheckpointText.JoinedCollides | src/server/async_server.cc:1184-1196 | for any two names in order and any amounts the store of both prints like the store of one account whose name joins them |
| CheckpointText.AddedCollide | src/server/async_server.cc:1184-1196 | on top of any store whose names come first, two accounts print like one whose name joins them |
| ExecutionFold.SourceCollides | src/server/async_server.cc:55-58 | from the source's ten accounts two lists of transfers lead to different balances with one checkpoint string |
| CheckpointText.Print | src/server/async_server.cc:1184-1194 | the printing loop, which drops the last comma and space, builds the specified string |
| Window.NextKeepsWindow | src/server/async_server.cc:408-488 | every event in every view keeps the window: size k, high = low + k - 1, low right after the stable checkpoint, execution at least that far, no entry above the current sequence number; and nothing done is undone |
| Window.WindowAlways | src/server/async_server.cc:24-59 | the window invariant holds over every run, across views |
| Window.TruncationDropsPrefix | src/server/async_server.cc:833-855 | at every moment of every run a stable checkpoint drops exactly the slots up to it, all passed by execution; every other entry keeps its sequence number and contents, and at most k remain, inside the window |
| ExecutionFold.ExecutionRefinesFold | src/server/async_server.cc:1133-1169 | over every run executed sequence numbers strictly increase, balances and results are the fold of the transfer rule over the executed list, and announced checkpoint digests are those of its prefixes |
| ExecutionFold.MoneyConserved | src/server/async_server.cc:1142-1151 | over every run the total of balances is the initial total, and without negative amounts each balance lies between 0 and it |
| ExecutionFold.SourceBalances | src/server/async_server.cc:55-58 | with the source's ten accounts of 10, over every run the total is 100, and without negative amounts every balance lies between 0 and 100, so the 32-bit sums never overflow |
| ExecutionFold.SkippedIsGap | src/server/async_server.cc:1134-1139 | the count of skipped slots is zero if and only if the executed list is 0, 1, 2, ... |
| ExecutionFold.PassSkips | src/server/async_server.cc:1133-1167 | a pass of execution skips a slot if and only if an empty slot lies below a committed one with nothing between to stop it |
| Gaps.NextSkips | src/server/async_server.cc:1133-1167 | an event leaves the count of skipped slots as it is, or raises it, and raises it if and only if it commits a slot over a hole |
| Gaps.ContiguousExactly | src/server/async_server.cc:1133-1167 | over every run, across views, the executed list is 0, 1, 2, ... if and only if no event committed a slot over a hole |
| Gaps.GapFreeExactly | src/server/async_server.cc:1133-1167 | at the end of a system run a correct replica is without gaps if and only if none of its own moves committed a slot over a hole |
| Voting.NextKeepsSlots | src/server/async_server.cc:454-502 | every event keeps: a slot holds a context the replica signed, PRE_PREPARED slots hold fewer than 2f prepares, EXECUTED slots lie at or below the last executed one |
| Voting.NextKeepsVotes | src/server/async_server.cc:389-502 | every event, NEW-VIEWs with re-votes included as long as they name earlier views and contradict nothing signed, keeps one digest per view and slot, and that a null slot was never voted on in the present view |
| Voting.NoEquivocation | src/server/async_server.cc:389-502 | over every run whose accepted NEW-VIEWs name earlier views, a correct replica has signed at most one digest per view and sequence number if and only if no accepted NEW-VIEW contradicted what was signed when it arrived |
| Voting.PassSkipsAlways | src/server/async_server.cc:1133-1167 | the exact condition for skipping holds at every moment of every run |
| Voting.RevotesSignAnything | src/server/async_server.cc:797-809 | from every state some accepted NEW-VIEW makes the replica sign any given context |
| Voting.LaterViewEquivocates | src/server/async_server.cc:797-809 | in a run of two events a NEW-VIEW that names the view it opens, contradicting nothing when it arrives, leads to two digests for one slot, so naming earlier views is needed |
| Voting.OwnSignatureSound | src/server/async_server.cc:560-573 | in every run, when a certificate counts for a slot, the receiver has signed the certified context itself, so its unchecked own entry stands for a vote it cast |
| OneView.AckIsVote | src/server/async_server.cc:517-526 | a verified acknowledgement that matches the slot only by digest is a vote for the slot's own context |
| OneView.AddProofsCounts | src/server/async_server.cc:560-574 | counting a certificate stores exactly its distinct countable signers besides those stored, each under the certified context |
| OneView.CertificateRaises | src/server/async_server.cc:553-673 | a certificate prepares or commits a waiting entry if and only if the distinct signers, stored and countable, reach 2f or 2f + 1, and only a matching one adds any |
| OneView.NextKeepsOneView | src/server/async_server.cc:443-679 | every authentic event within the view keeps the certificate, digest-table, execution and reply invariants |
| OneView.CommittedQuorum | src/server/async_server.cc:672-678 | a committed or executed slot stands for 2f + 1 distinct supporters of its context |
| Agreement.MoveKeepsInv | src/server/async_server.cc:443-679 | a move of any correct replica keeps the system invariant, and votes only grow |
| Agreement.Invariant | src/server/async_server.cc:443-679 | every reachable state of every one-view run satisfies the system invariant |
| Agreement.LocalRun | src/server/async_server.cc:90-123 | a run of the system projects onto a run of each correct replica, so what holds over every run of one holds in the system |
| Agreement.VotesPersist | src/server/async_server.cc:482-502 | along every run, from any state that satisfies it, the system invariant stays and votes once cast stay cast |
| Agreement.QuorumsAgree | src/server/async_server.cc:617-673 | two contexts of one view and slot that both have 2f + 1 supporters are equal |
| Agreement.CommitAgreement | src/server/async_server.cc:593-679 | whatever two correct replicas hold committed for a sequence number, at any two moments of a run and by slow path, fast path or certificate, is the same request, the leader being possibly faulty |
| Scenario.CommitReachable | src/server/async_server.cc:633-679 | with a faulty leader a correct replica of four commits and executes a slot, so the theorems about runs are not empty |
| Agreement.PreparedAgree | src/server/async_server.cc:443-502 | in every reachable state two correct replicas that store more than 4f + 1 prepare signers together for one number hold the same request there |
| Uniqueness.PreparedDiffer | src/server/async_server.cc:448-452 | for every f of at least 1 a reachable state with a correct leader in which two correct replicas have prepared different requests for slot 0, their stored signers being 4f + 1 together |
| Carryover.TypedSlotsAgree | src/server/async_server.cc:443-502 | in typed runs with a correct leader the slots of any two correct replicas with one number hold the same request |
| Agreement.CertificateInvariant | src/server/async_server.cc:525-678 | stored proofs carry their slot's number and digest, at a backup its view; prepared slots have 2f distinct signers, committed ones 2f + 1; every correct signer signed the slot's context |
| Agreement.SameExecution | src/server/async_server.cc:1140-1157 | two executions of one sequence number at correct replicas executed the same transfer |
| Agreement.ExecutedPrefix | src/server/async_server.cc:1133-1169 | of two correct replicas without gaps one has executed exactly the first executions of the other, results included |
| Agreement.StateAgreement | src/server/async_server.cc:1133-1211 | correct replicas without gaps that executed equally far have equal balances and results, and any two checkpoints they announce for one sequence number have the same digest |
| Scenario.GapsDiffer | src/server/async_server.cc:1134-1139 | a reachable state with a faulty leader in which two correct replicas executed equally far to different balances, one of them having stepped over slot 0 |
| IndexTable.IndexAgreement | src/server/async_server.cc:364-488 | while no digest sits in two log slots, the table has exactly the digests of the log's entries, each referring to its own entry, across proposals, pre-prepares and truncation |
| IndexTable.TruncationKeepsIndex | src/server/async_server.cc:844-854 | erasing the digests of the removed slots leaves exactly the rest of the log listed |
| IndexTable.RetryRepeats | src/server/async_server.cc:367-389 | in every reachable state of one-view runs a retry answered from the table reports the outcome of a recorded execution of exactly that transfer, with 2f + 1 supporters behind it |
| Entries.NextKeepsEntries | src/server/async_server.cc:443-488 | every event in every view keeps: a log entry holds the digest of its own transfer, its stored prepares carry that digest, and an EXECUTED one was executed with its recorded result |
| Entries.EntriesAlways | src/server/async_server.cc:443-488 | those facts hold over every run, across views |
| Retries.RetryExact | src/server/async_server.cc:366-389 | at every moment of every run, across views, a retry answered from the table reports an execution of that transfer in the listed slot if and only if the listed entry still holds its digest |
| Retries.NextKeepsReplies | src/server/async_server.cc:366-389 | every event that answers no retry from a stale listing keeps: each reply sent reports an outcome with which exactly that transfer was executed |
| Retries.RepliesAlways | src/server/async_server.cc:1133-1157 | over every run without such answers, across views, every reply is true and is about a genuine request |
| Reporting.PassReports | src/server/async_server.cc:1133-1169 | a pass of execution replies for every slot it executes, once, in order, to the signer of the slot's message with its transfer, its result and the present view |
| Reporting.NextReports | src/server/async_server.cc:1133-1169 | every event replies for exactly the slots it executes, announces exactly the checkpoints due among them, and sends no other reply but to a retry |
| Reporting.EveryExecutionReported | src/server/async_server.cc:1154-1157 | over every run each recorded execution was reported by the very event that made it, and the reply stays sent |
| Reporting.CheckpointsAnnounced | src/server/async_server.cc:1159-1162 | over every run the checkpoints announced are those of every step-th executed sequence number, each once and in order |
| Snapshots.SnapshotsAlways | src/server/async_server.cc:1171-1196 | over every run the balances and digest kept for each recorded checkpoint, and for the stable one, are those after the executions up to it, or blank where the replica took none; every checkpoint taken above the stable one is still recorded |
| Snapshots.StableExactly | src/server/async_server.cc:814-835 | at every moment of every run a message moves the stable checkpoint if and only if it vouches for a slot execution has reached and makes 2f + 1 distinct senders; it moves to that slot with all their messages and the replica's own balances there |
| Snapshots.SendersGrow | src/server/async_server.cc:821-827 | the senders stored for a slot above the stable checkpoint are never forgotten and grow by exactly the sender of each message that vouches for it |
| StaleReply.StaleAnswer | src/server/async_server.cc:477-488 | a run through two views in which a replica answers a retry of a transfer it never executed with the result of another |
| Proposals.ProposesExactly | src/server/async_server.cc:391-440 | at every moment of every run a leader that has to propose a request sends one pre-prepare, for the next slot if the request is new and for its listed slot if another leader opened it, and the slot then stores no vote of an earlier view |
| Proposals.ProposalDelivered | src/server/async_server.cc:443-506 | a backup open to the proposal accepts it and sends its vote for exactly that context if and only if what is proposed is the request's own digest, for a listed request exactly when the slot still holds it |
| Proposals.VoteReturns | src/server/async_server.cc:508-535 | such a backup's vote, delivered to the leader, is the one vote the slot then stores |
| Proposals.OtherwiseIgnored | src/server/async_server.cc:351-440 | a request that is neither answered, forwarded nor proposed, as one the leader has proposed itself, changes nothing |
| Proposals.CurrentExactly | src/server/async_server.cc:408-477 | the last known sequence number moves by a leader's own new proposal, to the next, and by a proposal of the present leader, up to its slot, and by nothing else |
| Certificates.AckExactly | src/server/async_server.cc:508-535 | a vote on a slot's digest is stored besides those there, and the slot becomes prepared with its timer started if and only if it waited and 2f distinct backups have now voted |
| Certificates.CommitExactly | src/server/async_server.cc:593-631 | at every moment of every run a vote to commit is stored besides those there; the slot commits if and only if it was prepared and 2f + 1 distinct replicas have now voted, and then, and only then, a certificate goes out with the slot's own context and exactly the signatures of the stored votes |
| Certificates.TimerExactly | src/server/async_server.cc:1062-1117 | with the votes of all 3f backups the timer commits at once and broadcasts them with the leader's own; with fewer it adds the leader's own vote and broadcasts a PREPARE certificate of exactly the stored ones |
| Certificates.PrepareDelivered | src/server/async_server.cc:537-591 | a PREPARE certificate adds exactly its signers to the votes a waiting backup stores, and prepares the slot if and only if they are now 2f; then, and only then, the backup votes to commit that context to the leader |
| Certificates.CommitDelivered | src/server/async_server.cc:633-679 | a COMMIT certificate adds exactly its signers to the votes a waiting backup stores, commits the slot if and only if they are now 2f + 1, and executes it at once when nothing below waits |
| Certificates.SlowCommitDelivered | src/server/async_server.cc:617-630 | over every run the certificate that follows a commit by PREPARE_OK votes commits the slot at every backup that waits for it |
| ViewChanges.StoredAlways | src/server/async_server.cc:681-693 | over every run the view changes kept for later views verified on arrival under their sender, and a stable checkpoint has 2f + 1 verified messages |
| ViewChanges.ComposeVerifies | src/server/async_server.cc:961-991 | at every moment of every run, across views, a composed view change passes verification at replica j if and only if there is no stable checkpoint yet, or 2f + 1 stored messages match it and every prepared slot stores 2f prepares that verify at j |
| ViewChanges.SlowPathVerifies | src/server/async_server.cc:858-896 | in every run it passes when all stored checkpoint messages carry the digest and every prepared slot of the log stores 2f prepares with good MACs |
| Handover.SlowPathComposed | src/server/async_server.cc:858-896 | in one-view runs it passes when all stored checkpoint messages carry the digest and every committed slot went through the slow path |
| ViewChanges.LeaderNewViewAccepted | src/server/async_server.cc:705-791 | a correct leader's NEW-VIEW is announced, is readable, and is accepted by a lower-view backup if and only if the leader's own view change verifies there and the leader was not among the counted senders |
| ViewChanges.NewViewAlwaysAccepted | src/server/async_server.cc:705-791 | over every run, across views: once a correct replica has the quorum for a later view, a lower-view backup that verifies the same prepares enters it if and only if the leader's own view change verifies there and the leader was not among the counted senders |
| Handover.ComposedVerifies | src/server/async_server.cc:961-991 | the same exact condition in every reachable state of the one-view system and for every other replica |
| FastPath.FastPathFails | src/server/async_server.cc:881-893 | a reachable state, all replicas correct, in which a replica with a stable checkpoint and a slot committed on the fast-path certificate its leader broadcast composes view changes that no replica accepts |
| ViewChanges.AcceptedHasPrefix | src/server/async_server.cc:783-809 | whatever NEW-VIEW a replica accepts announces for every slot in reach of the attached view changes a highest-view context the replica accepts as prepared, or the NOP when there is none; the replica enters the view and signs everything announced |
| Timeouts.DigestTimerExactly | src/server/async_server.cc:1007-1026 | the timer of a request asks for its view if and only if that view is still to come, the request is awaited and the replica does not lead; otherwise nothing changes |
| Timeouts.SlotTimerExactly | src/server/async_server.cc:1028-1046 | over every run the timer of a slot asks for its view if and only if that view is still to come and execution has not reached the slot |
| Timeouts.ViewTimerExactly | src/server/async_server.cc:1048-1059 | the timer of a requested view only raises the view last asked for, and only between views |
| Timeouts.ForwardsToLeader | src/server/async_server.cc:372-389 | a request that a backup cannot answer goes to the leader of the present view, unchanged, and is then awaited |
| Timeouts.AwaitedExactly | src/server/async_server.cc:387-389 | over every run a digest is awaited exactly when a request with it was forwarded and no leader of the moment's view has proposed it since |
| Timeouts.SilentLeaderReplaced | src/server/async_server.cc:1007-1026 | in every run a backup whose forwarded request was never proposed asks for a later view when the request's timer fires |
| Takeover.NextCollects | src/server/async_server.cc:688-695 | every event keeps what is collected for a view still to come and adds exactly the verified view change it delivers |
| Takeover.CollectedExactly | src/server/async_server.cc:688-695 | over every run what is collected for a view still to come is the latest verified view change delivered from each sender |
| Takeover.ViewChangeExactly | src/server/async_server.cc:681-747 | over every run, counting all senders so far: the correct leader announces the view if and only if they are now 2f, with their view changes and its own attached; another replica in normal mode asks for it if and only if they are now f + 1; any other view change changes nothing said |
| Takeover.VerifiedExactly | src/server/async_server.cc:858-896 | a view change verifies if and only if it is validly signed and, unless it claims no checkpoint, attaches 2f + 1 valid messages for it and 2f prepares with good MACs for each slot it claims prepared |
| Takeover.EntersExactly | src/server/async_server.cc:749-797 | a replica enters a NEW-VIEW if and only if it is validly signed, still to come, 2f + 1 attached view changes verify and the announced contexts agree with those it recomputes |
| Takeover.EnteringVotes | src/server/async_server.cc:793-811 | whoever accepts a NEW-VIEW sends its leader one vote for each announced context, in order, and nothing else |
| Takeover.SilentBetweenViews | src/server/async_server.cc:351-353 | a replica that has asked for a view takes no part in the normal case until a view starts |
| Takeover.ChangingAlways | src/server/async_server.cc:993-1004 | over every run a replica not in normal mode has asked, under its own signature, for a view later than its own |
| Failover.SilentLeaderOvercome | src/server/async_server.cc:681-812 | for every f and every 2f other replicas: those that forwarded a request ask for view 2; their view changes, one at a time, leave replica 2 waiting until the last, on which it announces the view; everyone that asked enters it, and replica 2 proposes the request |
| Completion.RequestCompletes | src/server/async_server.cc:351-679 | for every f and every transfer: with f replicas silent the others, on messages that were sent, commit and execute it in slot 0 with the result of the transfer rule, and each tells the client |
| Survival.ComposeCarries | src/server/async_server.cc:961-991 | a view change composed now accounts for every context the replica holds prepared with 2f prepares or has checkpointed |
| Survival.NextKeepsHeld | src/server/async_server.cc:576-590 | every event of a replica in its view, pre-prepares not repeated, keeps: what it voted to commit it holds, and every view change it sent accounts for it |
| Carryover.TypedMove | src/server/async_server.cc:537-631 | a typed move keeps the system invariant with a correct leader: correct replicas sign only what the leader signed, and every correct commit vote the leader stores was cast |
| Carryover.TypedPersist | src/server/async_server.cc:537-631 | along every typed run that invariant stays and votes to commit once cast stay cast |
| Carryover.SlowCommitVoters | src/server/async_server.cc:611-617 | when the leader commits by PREPARE_OK votes, f + 1 correct replicas have voted to commit that context |
| Carryover.QuorumCarries | src/server/async_server.cc:974-990 | any 2f + 1 view changes of distinct replicas include one of a correct replica that accounts for the context |
| Carryover.GenuineAgrees | src/server/async_server.cc:921-935 | a proof backed by 2f distinct voters for its slot proves the very context the correct replicas voted to commit |
| Carryover.SelectionKeeps | src/server/async_server.cc:898-959 | such a context's slot is selected if and only if it is positive, above every stable checkpoint of the list and below a slot some proof names, then with no lower view; with genuine accepted proofs the context itself is selected exactly then |
| Carryover.SlowCommitSurvives | src/server/async_server.cc:593-631 | in every typed run with a correct leader, at every moment after a slow-path commit, f + 1 correct replicas hold it or have checkpointed it, and every collected list of 2f + 1 view changes selects it under exactly that condition |
| SlowPath.BothLost | src/server/async_server.cc:899-938 | a typed run, all replicas correct, in which slots 0 and 1 commit by PREPARE_OK votes, two replicas hold both prepared, and no replica selects anything for either from the view changes of three, slot 0 although slot 1 is proved, slot 1 as the last |
| Server.MessageInfo.AddPrepares | src/server/async_server.cc:560-574 | the loop over a certificate's signatures keeps exactly those that count at the receiver |
| Server.MessageInfo.AddCommits | src/server/async_server.cc:656-670 | likewise for commit certificates |
| Server.MessageInfo.CountPrePrepareOk | src/server/async_server.cc:525-534 | storing an acknowledgement raises the entry exactly at 2f |
| Server.MessageInfo.CountPrepareOk | src/server/async_server.cc:610-617 | storing an acknowledgement commits a prepared entry exactly at 2f + 1 |
| Server.MessageInfo.AddOwnCommit | src/server/async_server.cc:1076-1112 | the leader's own vote, and the direct commit when all 3f have acknowledged |
| Server.Replica.constructor | src/server/async_server.cc:24-59 | a new replica stands for the initial state |
| Server.Replica.ProcessTransfer | src/server/async_server.cc:351-441 | the handler takes the object exactly to the specified next state, on every branch |
| Server.Replica.Propose | src/server/async_server.cc:408-440 | the next slot gets a fresh entry that log and table share, and the pre-prepare is sent |
| Server.Replica.Repropose | src/server/async_server.cc:394-403 | an inherited entry is updated in place for the current view, its proofs dropped |
| Server.Replica.OpenSlot | src/server/async_server.cc:477-488 | the slot's own entry is reused or created, reset to pre-prepared and listed, every other entry untouched |
| Server.Replica.ProcessPrePrepare | src/server/async_server.cc:443-506 | the handler takes the object exactly to the specified next state |
| Server.Replica.ProcessPrePrepareOk | src/server/async_server.cc:508-535 | the handler takes the object exactly to the specified next state |
| Server.Replica.ProcessPrepare | src/server/async_server.cc:537-591 | the handler takes the object exactly to the specified next state |
| Server.Replica.ProcessPrepareOk | src/server/async_server.cc:593-631 | the handler takes the object exactly to the specified next state, the execution pass before the broadcast |
| Server.Replica.ProcessCommit | src/server/async_server.cc:633-679 | the handler takes the object exactly to the specified next state |
| Server.Replica.OptimisticTimer | src/server/async_server.cc:1062-1117 | the timer's body takes the object exactly to the specified next state, fast path or second phase |
| Server.Replica.ExecutePending | src/server/async_server.cc:1133-1169 | the loop over the log executes exactly the slots the recursive specification executes |
| Server.Replica.Transfer | src/server/async_server.cc:1146-1151 | the in-place balance updates are the transfer rule |
| Server.Replica.Checkpoint | src/server/async_server.cc:1171-1211 | the balances are recorded, earlier messages kept, and their digest announced |
| Server.Replica.ProcessCheckpoint | src/server/async_server.cc:814-856 | the handler takes the object exactly to the specified next state |
| Server.Replica.DropSlots | src/server/async_server.cc:837-855 | the truncation loop erases exactly the digests of the removed slots and shifts the vector |
| Server.Replica.VerifyViewChange | src/server/async_server.cc:858-896 | the counting loops with early returns decide the specified predicate |
| Server.Replica.ComposeViewChangeRequest | src/server/async_server.cc:961-991 | the loop over the vector builds the specified request |
| Server.Replica.ProcessViewChange | src/server/async_server.cc:681-747 | the handler takes the object exactly to the specified next state |
| Server.Replica.StartView | src/server/async_server.cc:706-745 | the next leader adds its own request, selects, enters the view and announces it |
| Server.Replica.ProcessNewView | src/server/async_server.cc:749-812 | the handler takes the object exactly to the specified next state |
| Server.Replica.Agrees | src/server/async_server.cc:782-788 | the comparing loop decides agreement with the announced list and never reads past its end |
| Server.Replica.DigestTimer | src/server/async_server.cc:1007-1026 | the timer takes the object exactly to the specified next state |
| Server.Replica.SlotTimer | src/server/async_server.cc:1028-1046 | the timer takes the object exactly to the specified next state |
| Server.Replica.ViewTimer | src/server/async_server.cc:1048-1059 | the timer takes the object exactly to the specified next state |
| Server.Replica.Handle | src/server/async_server.h:149-210 | any enabled event takes an object standing for s to one standing for the next state |
| Server.Replica.Serve | src/server/async_server.cc:90-123 | whatever list of enabled events the object handles, it ends up standing for the state that the run reaches |
| Client.FirstInFirstOut | src/client/pbft_client.cc:168-239 | over every run completed transfers are the first issued ones in order, each popped once, each with f + 1 distinct replicas heard to report its outcome for its timestamp |
| Client.CompletesWhen | src/client/pbft_client.cc:189-200 | a reply completes the front transfer if and only if it verifies, names its timestamp, and is the (f + 1)-th distinct one for its outcome |
| Issuing.NextSends | src/client/pbft_client.cc:101-166 | every event sends at most one request, for the transfer then at the front; a reply exactly when it completes a transfer and another follows, a batch exactly when the queue is then not empty, a timer exactly when its transfer is still in front, and that one to all |
| Issuing.SendsFront | src/client/pbft_client.cc:101-166 | over every run each request ever sent was for the transfer then at the front, under the client's signature, to all replicas or to the leader of the view it knew |
| Issuing.FrontAlwaysSent | src/client/pbft_client.cc:101-166 | over every run the front of a queue that is not empty has been sent to a leader and has a timer, and the client is in the highest view it has heard of |
| Issuing.HeardExactly | src/client/pbft_client.cc:168-187 | over every run the replies heard are exactly the valid ones delivered |
| Issuing.BatchIssues | src/client/pbft_client.cc:217-239 | a batch issues exactly the client's own lines, in order, each stamped with its own reading of the clock |
| Completion.ClientAnswered | src/client/pbft_client.cc:168-239 | for every f and every line of input: the client sends it to replica 1, the 2f + 1 replicas that answer at all execute it, and f + 1 of their replies complete it with the result of the transfer rule |
| ClientProcess.PbftClient.ProcessNotify | src/client/pbft_client.cc:168-215 | the handler takes the client object exactly to the specified next state, the front transfer updated in place or popped |
| ClientProcess.PbftClient.ProcessProcess | src/client/pbft_client.cc:217-239 | the loop queues exactly the client's own lines, in order, and the front is sent |
| ClientProcess.PbftClient.TransferTimer | src/client/pbft_client.cc:249-264 | the timer broadcasts exactly a transfer still at the front |
| Outcome.ResultSound | src/client/pbft_client.cc:189-200 | whatever views the replicas pass through, with distinct timestamps and no retry answered from a stale listing, the i-th completion is of the i-th transfer issued and some correct replica executed exactly that transfer with exactly that outcome |
| Outcome.ResultSoundInView | src/client/pbft_client.cc:189-200 | in one-view runs the same without any hypothesis on retries |
| StaleReply.WrongOutcome | src/client/pbft_client.cc:189-200 | a system and a client run, every other hypothesis of result soundness met, in which the client completes a transfer as executed that no correct replica executed |

## Left out

- Agreement.CommitAgreement: is for runs in which correct replicas stay in one view. Re-votes of a NEW-VIEW keep their
  old views and are not installed in the log, and the leader's handlers do not compare views, so the code does not
  establish agreement across views.
- Voting.NoEquivocation: assumes that accepted NEW-VIEWs name contexts of earlier views; `LaterViewEquivocates` shows
  that one vote per slot can fail otherwise.
- Agreement.StateAgreement: assumes that neither replica has stepped over an empty slot; `GapFreeExactly` gives exactly
  when one has, `GapsDiffer` a state in which the conclusion fails.
- Carryover.SlowCommitSurvives: covers commits by PREPARE_OK votes in one prior view with a correct leader. A fast-path
  commit can leave backups with their own prepare only, and the code does not carry it over. It assumes that the
  prepares attached by correct replicas have good MACs for the selecting replica too; in the code as it stands every
  MAC verifies there.
- Carryover.SelectionKeeps: the code loses slot 0, and the last slot that any proof names; the statement says so.
- ViewChanges.LeaderNewViewAccepted: is for backups that verify the same attached prepares as the leader.
- Outcome.ResultSound: takes as hypotheses that good signatures in the client's name are on transfers it issued, that
  valid replies naming a correct replica were sent by it to this client, and that no correct replica answered a retry
  from a stale listing; `RetryExact` says that this is exactly when such an answer is false, `WrongOutcome` shows that
  the conclusion then fails.
- IndexTable.RetryRepeats: is for one-view runs, as its quorum is; `RetryExact` is for every run.
- CheckpointText.TextInjective: is for stores whose names do not read as a name, an amount and a further name;
  `TextUnique` gives exactly which strings one store prints alone.
- Cryptography: `crypto::verifyMAC` returns true for every input (`src/crypto/crypto.cc:252-256`); the model has the
  per-receiver check that its callers are written for. The serialised bytes that are signed and verified, which differ
  for acknowledgements, are not modelled, nor is the MAC vector growing when a request is signed again.
- CheckpointInfo: a record of the checkpoint map is a value here, replaced as a whole, not an object behind a pointer.
- Integer widths: integers are unbounded; `FoldBounded` and `MoneyConserved` bound balances, sequence numbers and views
  are not bounded.
- Networking: gRPC services, completion queues, stubs and deadlines; a message is a value in `sent`.
- Threads and time: timers run on their own threads in the source and race with handlers; here they are steps, and
  durations are dropped. `retryNewView` and the commented-out Sync messages have no callers.
- Unused or reporting state: `lastCommitted`, `lastCheckpoint`, `selfTriggeredViewChangeMessages`, performance counters
  and the Get queries have no effect on the protocol.
- Reply printing and measurements of the client; a timer compares its transfer as a value, not as a printed string.
- Liveness: progress is proved for runs in which the named messages arrive (`RequestCompletes`, `ClientAnswered`,
  `SilentLeaderOvercome`), nothing under assumptions of fairness or timing. That a timer restarts for the next view is
  covered by timers that fire at any moment for any view.
- Completion.RequestCompletes: is for the first request and the slow path; later slots and the fast path are covered
  step by step (`ProposesExactly`, `AckExactly`, `TimerExactly`, `CommitDelivered`).
- The driver, the command parser, process start-up and the CSV reader.
