# Key aggregation server: a verified model

The server coordinates secure aggregation rounds: participants register ephemeral keys, a reduction tree adds up
their masking keys under protocol 1.1, everybody uploads a masked update, a worker adds the updates up in 64-bit
words, and the sum of the keys clears the sum of the updates. This project models that server in Dafny and proves
what it promises: the key plan it compiles, the durable round protocol it runs, the job lease of its workers, the
arithmetic of the aggregation, and the agreement of files and database rows.

## How it is put together

- `Names`, `Sequences`, `Arithmetic`, `Wrappers`: canonical order of names, decimal rendering, sums, a few integer facts.
- `Shuffling`, `PlanShape`, `PlanProperties`, `PlanTree`, `Topology`: the plan. `Topology` compiles it step by step
  with mutable tree nodes, as the source does; `PlanShape` is the closed form it is proved equal to; the properties
  are proved of the closed form.
- `Ring`, `KeyTree`: 64-bit words, and what the tree's actions mean. GROUP_START adds the sender's key and blind,
  GROUP_ADD the sender's key, GROUP_UNBLIND takes the sender's blind away, TREE_COMBINE adds, TREE_CARRY forwards.
- `States`, `Rounds`: all rows of one round as a value, and each database transaction as a function that commits new
  rows or rolls back. A committed transaction may still answer with an error: the confirmation that reveals
  different commitments does.
- `RoundInvariant`, `RoundSteps`, `TaskSteps`, `JobSteps`: what holds of a round's rows, kept by every transaction.
- `Growth`, `Frames`, `Filing`: what no transaction ever changes, what each one leaves alone, what each one files.
- `Runs`: any sequence of transactions by any callers, from any new round. `RunProperties`, `Replay`, `Confirmations`,
  `Publication`, `Scheduler`, `KeyRuns` and `Clearing` are theorems about all runs. `Refusals` says of every transaction
  exactly when it is refused and with which error, and `Completion` at what time and from which states a round can still be
  completed.
- `Tables`, `Transactions`, `Database`, `Queries`: the imperative database. `Tables` has one field per SQL table and
  one method per statement; `Transactions` has one method per transaction, counting rows and rolling back as the source
  does, proved to do what `Rounds` says; a `Database` carries as invariant that the rows of every round are those its
  history of steps reaches, so the theorems about runs hold of it.
- `Store`, `Digest`, `Worker`: the artifact store, digests and tags, and how the worker adds one input to its sums.
- `Files`, `Ledgers`: rows and files together as a value. A `Ledger` is what database and store hold; a `Move` is one
  small step of the service; the books stay balanced over any sequence of moves, by whatever requests, workers and
  maintenance runs, and nobody's next move is made impossible by the others'. `Queue`: over any such sequence, jobs are
  handed out in the order they were queued.
- `Handlers`, `Removal`, `Bystanders`, `Shifts`, `Service`: the upload handlers, maintenance and the worker as a few moves
  each. The class `Service` runs them on the imperative database and store; `Handlers`, `Removal` and `Shifts` say of the
  ledger what they do, and `Bystanders` what others may do between the worker's requests.

Draws of the shuffle are a stream of numbers, given by the hash of the round's identity and a counter; the plan needs
that an acceptable number eventually comes. Time, fresh names, hashes, signatures and file parsing are parameters.

## Model

| member | source | states |
|---|---|---|
| Shuffling.AcceptedDraw | key-aggregation-server/app/domain/topology.py:39-43 | the rejection loop stops at the first acceptable number from its counter on and leaves the counter just behind it, so no draw is used twice |
| Shuffling.ShuffleInPlace | key-aggregation-server/app/domain/topology.py:36-46 | the swap loop turns the list into the one the accepted draws choose, position by position from the top |
| Shuffling.Shuffle | key-aggregation-server/app/domain/topology.py:33-47 | sorting and swapping give the shuffled order the draws determine |
| Shuffling.ShufflePermutes | key-aggregation-server/app/domain/topology.py:33-47 | the shuffled order has exactly the given participants |
| Shuffling.ShuffleIgnoresInputOrder | key-aggregation-server/app/domain/topology.py:34 | for the same draws the order the participants were listed in makes no difference |
| Shuffling.ChoicesInjective | key-aggregation-server/app/domain/topology.py:36-46 | different choices of slots give different orders |
| Shuffling.ChoicesSurjective | key-aggregation-server/app/domain/topology.py:36-46 | every order of the participants is reached by some choice of slots |
| Shuffling.ShuffleUnbiased | key-aggregation-server/app/domain/topology.py:37-46 | every order is reached by the same number of vectors of accepted draws, for any width of the draws |
| PlanProperties.GroupSizesBalanced | key-aggregation-server/app/domain/topology.py:50-60 | for every count of at least three the sizes add up, are three or four each and as few as possible, or one group of five; the error for unbalanced groups cannot occur |
| PlanProperties.SplitGroupsPartition | key-aggregation-server/app/domain/topology.py:73-79 | slicing the shuffled list by offsets gives consecutive groups of exactly those sizes that join to the list |
| PlanProperties.WidthIsBlockCount | key-aggregation-server/app/domain/topology.py:84-100 | level by level the halving loop keeps one node per started block of groups |
| PlanProperties.HeightIsLeastPower | key-aggregation-server/app/domain/topology.py:86-101 | the halving loop runs exactly the least number of times k with 2^k at least the number of groups |
| PlanProperties.OperatorIsFirstCoordinator | key-aggregation-server/app/domain/topology.py:88-96 | a node is run by the coordinator of the first group it covers |
| PlanProperties.CoveredIsBlock | key-aggregation-server/app/domain/topology.py:84-100 | a node covers exactly its block of consecutive groups, cut off at the last group |
| PlanProperties.RootCoversEveryGroup | key-aggregation-server/app/domain/topology.py:101 | the root covers every group once, in order |
| PlanTree.TaskNameInjective | key-aggregation-server/app/domain/topology.py:112-154 | different tasks have different task_id texts |
| PlanTree.PlanTasksExact | key-aggregation-server/app/domain/topology.py:109-166 | the list holds every task of the groups and the tree exactly once, under pairwise different names |
| PlanTree.DependenciesComeFirst | key-aggregation-server/app/domain/topology.py:109-166 | the list is topologically ordered |
| PlanTree.DependenciesDistinct | key-aggregation-server/app/persistence/database.py:66-70 | no dependency row of a plan is written twice |
| PlanTree.ConsumedExactlyOnce | key-aggregation-server/app/domain/topology.py:109-166 | every task but the root is a dependency of exactly one task, the root of none |
| PlanTree.ReachesRoot | key-aggregation-server/app/domain/topology.py:109-166 | following the consumers from any task ends at the root |
| PlanTree.RoutedToConsumer | key-aggregation-server/app/domain/topology.py:103-166 | the receiver of every output is the sender of the task that consumes it, and the root keeps its own |
| PlanTree.ContributesExactlyOnce | key-aggregation-server/app/domain/topology.py:109-140 | every participant is the sender of exactly one of the key-adding tasks |
| PlanTree.ReductionTaskCounts | key-aggregation-server/app/domain/topology.py:84-100 | a plan over g groups has g - 1 combining tasks and, from two groups on, fewer carrying tasks than tree levels |
| Topology.BuildTree | key-aggregation-server/app/domain/topology.py:81-101 | building level by level gives the forest whose nodes stand where the closed form says, listed by level and index |
| Topology.AssignTargets | key-aggregation-server/app/domain/topology.py:103-108 | the recursive assignment reaches every node below with its parent's operator and no other node |
| Topology.FindLeaf | key-aggregation-server/app/domain/topology.py:141 | walking the tree finds the one leaf of a group |
| Topology.EmitTree | key-aggregation-server/app/domain/topology.py:153-166 | emitting the tree nodes in order gives the tree part of the task list |
| Topology.HeightIsCeilLog2 | key-aggregation-server/app/domain/topology.py:174 | the reported number of tree levels is the number of halvings |
| Topology.DeriveTreePlan | key-aggregation-server/app/domain/topology.py:67-175 | the whole derivation gives the closed-form plan of the shuffled participants, or the error for duplicates or too few |
| Topology.DerivedPlanPartitions | key-aggregation-server/app/domain/topology.py:67-175 | three or more different participants always get a plan, over a partition of exactly them, rooted at the first shuffled participant |
| Ring.WrapHomomorphic | key-aggregation-server/app/worker/aggregation.py:62-64 | adding or subtracting words early or late makes no difference |
| Ring.WrapExactIffFits | key-aggregation-server/app/worker/aggregation.py:62-64 | a word is the number itself exactly when the number fits |
| KeyTree.RingValue | key-aggregation-server/app/domain/topology.py:112-140 | along a group's ring the artifacts carry the blind and the keys so far |
| KeyTree.NodeValue | key-aggregation-server/app/domain/topology.py:84-166 | a node's artifact is worth the keys of the groups it covers |
| KeyTree.RootValueIsKeySum | key-aggregation-server/app/domain/topology.py:109-175 | the root is worth every member's key once, all blinds gone |
| States.TerminalIsAbsorbing | key-aggregation-server/app/domain/states.py:18-34 | a state allows no further transition exactly if it is terminal |
| RoundSteps.RecordJsonSlotKeeps | key-aggregation-server/app/persistence/database.py:336-400 | a registered key or bundle keeps the invariant; the only errors are conflicts |
| RoundSteps.PlanInstalled | key-aggregation-server/app/persistence/database.py:524-548 | the task and dependency rows written for a plan are exactly its tasks and edges, those without dependencies ready and all others waiting |
| RoundSteps.KeyCompleteKeeps | key-aggregation-server/app/persistence/database.py:428-551 | a confirmation keeps the invariant, and is answered with a conflict exactly if the round takes none or the participant committed to something else; so the hard-coded source state of the mismatch branch is the real one, no key is ever missing for the plan, and the plan can always be derived |
| TaskSteps.RecordTaskArtifactKeeps | key-aggregation-server/app/persistence/database.py:628-696 | an uploaded task artifact keeps the invariant |
| TaskSteps.AcknowledgeScheduled | key-aggregation-server/app/persistence/database.py:751-768 | completing a task and waking what it unblocks leaves every task waiting exactly while a dependency is not completed |
| TaskSteps.AcknowledgeTaskKeeps | key-aggregation-server/app/persistence/database.py:726-778 | an acknowledgement keeps the invariant and never meets an existing receipt |
| TaskSteps.RecordFinalKeyKeeps | key-aggregation-server/app/persistence/database.py:780-837 | publishing the final key keeps the invariant |
| TaskSteps.AcknowledgeFinalKeyKeeps | key-aggregation-server/app/persistence/database.py:860-907 | acknowledging the final key keeps the invariant, the last receipt opening update collection |
| JobSteps.RecordUpdateKeeps | key-aggregation-server/app/persistence/database.py:919-992 | an update keeps the invariant; the last one missing queues the one job |
| JobSteps.ReclaimLeaseKeeps | key-aggregation-server/app/persistence/database.py:998-1040 | taking back a lapsed lease keeps the invariant |
| JobSteps.ClaimJobKeeps | key-aggregation-server/app/persistence/database.py:1041-1059 | a claim keeps the invariant |
| JobSteps.CompleteJobKeeps | key-aggregation-server/app/persistence/database.py:1175-1212 | publishing a result keeps the invariant and never meets an earlier result |
| JobSteps.FailJobKeeps | key-aggregation-server/app/persistence/database.py:1214-1241 | giving up a job keeps the invariant |
| JobSteps.ExpireRoundKeeps | key-aggregation-server/app/persistence/database.py:1072-1102 | the deadline sweep keeps the invariant |
| JobSteps.CompleteParticipantKeeps | key-aggregation-server/app/persistence/database.py:1253-1287 | finishing keeps the invariant, the last participant completing the round |
| JobSteps.AbortRoundKeeps | key-aggregation-server/app/persistence/database.py:1289-1313 | aborting keeps the invariant |
| JobSteps.NewRoundStarts | key-aggregation-server/app/persistence/database.py:207-252 | a new round over at least three different participants satisfies the invariant |
| Growth.RecordUpdateGrows | key-aggregation-server/app/persistence/database.py:919-992 | an update leaves all recorded rows as they are |
| Growth.AcknowledgeTaskGrows | key-aggregation-server/app/persistence/database.py:751-768 | an acknowledgement only moves tasks forward and changes no upload |
| Growth.CompleteJobGrows | key-aggregation-server/app/persistence/database.py:1175-1212 | publication changes no row of a job that is closed and no artifact |
| Runs.TransactKeeps | key-aggregation-server/app/persistence/database.py:179-1313 | every transaction keeps the invariant and rolls back only for conflicts, constraint violations or a lost claim; it reports a conflict exactly when its own checks bar the request, so no guarded state change inside any transaction ever fails |
| Refusals.RefusedExactlyWhen | key-aggregation-server/app/persistence/database.py:179-1313 | in every state a round can be in, each transaction is refused exactly when foreseen, with exactly that error, and commits otherwise |
| Runs.TransactGrows | key-aggregation-server/app/persistence/database.py:179-1313 | every transaction leaves artifacts, idempotency records, receipts, uploads, keys, commitments, updates and the audit log as recorded |
| Runs.ReachedKeeps | key-aggregation-server/app/persistence/database.py:179-1313 | the invariant holds in every state any run of a new round reaches |
| Runs.ReachedGrows | key-aggregation-server/app/persistence/database.py:179-1313 | later states of a run keep everything earlier ones recorded |
| RunProperties.BarriersHold | key-aggregation-server/app/persistence/database.py:336-1287 | in every reachable state everybody has contributed to every barrier passed: keys, equal commitments, the plan, completed tasks and receipts, updates, completion |
| RunProperties.AuditDeterminesState | key-aggregation-server/app/persistence/database.py:287-327 | the versioned events are numbered 1 to state_version, replaying them gives the state, and there are at most seven versions, six under protocol 1.0 |
| RunProperties.TerminalStays | key-aggregation-server/app/persistence/database.py:287-327 | the row of a terminal round never changes again and nothing versioned is logged |
| RunProperties.RetentionMeasuredOnce | key-aggregation-server/app/persistence/database.py:299-320 | the retention window runs from creation and, from the end of the round on, from that end |
| RunProperties.UpdatesCounted | key-aggregation-server/app/worker/aggregation.py:43-44 | once everybody has uploaded there is one update row per participant and their number is the expected count |
| RunProperties.InputsFrozen | key-aggregation-server/app/worker/aggregation.py:42-50 | from the update barrier on the worker's input rows and tags never change, so its count check cannot fail |
| Replay.TransactRecords | key-aggregation-server/app/persistence/database.py:361-371 | whatever is answered positively is recorded under its key with its digest |
| Replay.RecordDecides | key-aggregation-server/app/persistence/database.py:342-349 | a recorded key decides the answer alone and changes nothing; finishing a round first looks at its state |
| Replay.ExactlyOnce | key-aggregation-server/app/persistence/database.py:342-349 | after a positive answer, at any later point the same key gets that answer for the same content and a conflict for other content, and changes nothing; for finishing a round exactly while the result is out |
| Confirmations.ConfirmAcceptedIff | key-aggregation-server/app/persistence/database.py:428-502 | under a new key a confirmation is refused exactly when barred and otherwise committed; it fails the round and is answered with the mismatch exactly if in key setup everybody else has committed and somebody to something else, and crosses the barrier exactly if all others committed to the same |
| Confirmations.MismatchRepeatedIsAccepted | key-aggregation-server/app/persistence/database.py:458-500 | repeating a committed confirmation is always answered with its acceptance and changes nothing; that is the first answer again exactly if the commitments had not differed |
| Completion.MismatchReachable | key-aggregation-server/app/persistence/database.py:458-500 | at any time from its creation on, every new round has a run at that time that ends in the confirmation answered with the mismatch |
| Completion.MismatchOfThree | key-aggregation-server/app/persistence/database.py:458-500 | a run of three participants, on a clock that does not go back, in which the mismatch is answered and its repetition accepted |
| Completion.CompletableFrom | key-aggregation-server/app/persistence/database.py:179-1313 | at any time, from every state reached by then, some continuation on a clock that does not go back completes the round exactly if it was not cut short, no two participants have committed to different keys, and the deadline is still to come, somebody holds the job, or aggregation is over |
| Completion.CompletableByRequests | key-aggregation-server/app/persistence/database.py:254-285 | with participants looking at the round before their requests, as every endpoint of theirs does, exactly if it is completed already, or all that holds and the deadline is not past |
| Completion.TreeCompletable | key-aggregation-server/app/persistence/database.py:577-778 | at any time from its creation on, every new round of protocol 1.1 has a run at that time that completes its key tree |
| Replay.OneUpdateAnswer | key-aggregation-server/app/persistence/database.py:943-962 | all accepted uploads of one client's update get the same answer |
| Publication.ClaimTakes | key-aggregation-server/app/persistence/database.py:1041-1059 | a claim is granted exactly for a queued job of an aggregating round before its deadline, and counts as one attempt |
| Publication.HeldByLastClaimant | key-aggregation-server/app/persistence/database.py:1041-1070 | attempts are the granted claims, at most three, and whoever holds the job was granted the last one |
| Publication.PublishedExactlyWhen | key-aggregation-server/app/persistence/database.py:1175-1212 | a publication succeeds exactly if its token holds the job, the round is being aggregated and the file is new; the lease does not matter |
| Publication.PublishedByLastClaimant | key-aggregation-server/app/persistence/database.py:1175-1212 | what is published comes from the last claimant, of an aggregating round |
| Publication.PublishedAtMostOnce | key-aggregation-server/app/persistence/database.py:1175-1212 | at most one publication of a round succeeds, over all workers, retries, expiries and aborts |
| Publication.NeverOrphaned | key-aggregation-server/app/persistence/database.py:994-1102 | an aggregating round has a claimed or claimable job, a round past aggregation its completed job with tag and result, and no round two results |
| Publication.ClaimableAgain | key-aggregation-server/app/persistence/database.py:998-1059 | a lapsed claim before the deadline is followed by a new one or, after the last attempt, by the failure of the round |
| Scheduler.WaitsExactlyForDependencies | key-aggregation-server/app/persistence/database.py:741-768 | in every reachable state a task waits exactly while some dependency is not completed |
| Scheduler.NeverStuck | key-aggregation-server/app/persistence/database.py:594-626 | while some task is not completed, some task is ready or uploaded |
| Scheduler.UploadAcceptedIff | key-aggregation-server/app/persistence/database.py:652-681 | an upload under a new key is accepted exactly if the round is in key aggregation, the task is ready and the sender's own, and the file is new |
| Scheduler.AckAcceptedIff | key-aggregation-server/app/persistence/database.py:741-756 | an acknowledgement under a new key is accepted exactly if the sender names the ciphertext it uploaded |
| Scheduler.FinalKeyAcceptedIff | key-aggregation-server/app/persistence/database.py:802-826 | a final key under a new key is accepted exactly once, from the root client, when all tasks are completed |
| Scheduler.OutputsReachConsumers | key-aggregation-server/app/persistence/database.py:698-724 | in every reachable state the sender of a task that is not waiting may fetch every dependency's artifact, and the root client the root artifact |
| Scheduler.AdvancedBySteps | key-aggregation-server/app/persistence/database.py:628-778 | the tree is as far along as the uploads and acknowledgements newly accepted |
| Scheduler.TwoStepsPerTask | key-aggregation-server/app/persistence/database.py:628-778 | a run has accepted at most two steps per task, and exactly that many when all tasks are completed |
| KeyRuns.ContributionIsWorth | key-aggregation-server/app/domain/topology.py:109-166 | a sender that follows its action in words carries the word of the task's exact worth |
| KeyRuns.PayloadsSound | key-aggregation-server/app/persistence/database.py:628-696 | in every reachable state every uploaded task carries the word of its exact worth |
| KeyRuns.RootIsKeySum | key-aggregation-server/app/persistence/database.py:628-778 | under every interleaving, once all tasks are completed the root artifact carries the sum of every participant's key, each once |
| Clearing.ClearedSum | key-aggregation-server/app/worker/aggregation.py:47-76 | the worker's sum minus the root artifact is the word of the sum of all clients' values, and the sum itself exactly if it fits |
| Tables.Connection.Transition | key-aggregation-server/app/persistence/database.py:287-327 | the guarded update moves the row, keeps a version and logs it, or fails and changes nothing |
| Tables.Connection.InsertArtifact | key-aggregation-server/app/persistence/database.py:41-44 | names and paths are unique over all rounds, kinds per client of a round; a file on record for another round is refused by a constraint; a round's other tables and other rounds stay |
| Tables.Connection.InsertTasks | key-aggregation-server/app/persistence/database.py:528-548 | the loops over the plan write exactly the initial task and dependency rows |
| Tables.Connection.DeleteRows | key-aggregation-server/app/persistence/database.py:1141-1164 | deleting table by table meets every foreign key, leaves no row of the round and all rows of the others |
| Transactions.RecordJsonSlot | key-aggregation-server/app/persistence/database.py:336-400 | the counting barrier does what the all-participants barrier says |
| Transactions.KeyComplete | key-aggregation-server/app/persistence/database.py:428-502 | counting distinct commitments decides agreement; a failed barrier is rolled back |
| Transactions.RecordTaskArtifact | key-aggregation-server/app/persistence/database.py:628-696 | the statements give the specified rows and answer |
| Transactions.AcknowledgeTask | key-aggregation-server/app/persistence/database.py:726-778 | the statements give the specified rows and answer, with rollback when a receipt exists |
| Transactions.RecordFinalKey | key-aggregation-server/app/persistence/database.py:780-837 | the statements give the specified rows and answer, the artifact row being rolled back when a final key exists |
| Transactions.AcknowledgeFinalKey | key-aggregation-server/app/persistence/database.py:860-907 | counting receipts decides the barrier |
| Transactions.RecordUpdate | key-aggregation-server/app/persistence/database.py:919-992 | counting updates decides the barrier, and everything is rolled back when a job exists already |
| Transactions.CompleteJob | key-aggregation-server/app/persistence/database.py:1175-1212 | the result row inserted before the state check is rolled back when the round has moved on |
| Transactions.CompleteParticipant | key-aggregation-server/app/persistence/database.py:1253-1287 | counting completed participants decides the barrier |
| Database.Database.Serve | key-aggregation-server/app/persistence/database.py:154-164 | serving any request steps exactly the round it names, as specified, and keeps every round reachable by its history; it is refused by a constraint instead exactly where it would have filed a file that is on record for another round |
| Database.Database.CreateRound | key-aggregation-server/app/persistence/database.py:179-252 | a create request makes one round; its repetition is answered with that round, or refused for other content |
| Database.Database.ClaimJob | key-aggregation-server/app/persistence/database.py:994-1059 | every lapsed lease is taken back, then the oldest claimable job is handed out, or there is none |
| Database.Database.NextRowNumber | key-aggregation-server/app/persistence/database.py:987-992 | the row number of a new job is one more than the largest among the jobs there are |
| Queue.QueuedFirstClaimedFirst | key-aggregation-server/app/persistence/database.py:1041-1046 | over any sequence of steps of the service, a job queued while another round had none keeps the smaller row number, and a claim never prefers the other while it is claimable itself |
| Database.Oldest | key-aggregation-server/app/persistence/database.py:1041-1046 | the loop finds the entry with the least row number |
| Database.Database.ExpireRounds | key-aggregation-server/app/persistence/database.py:1072-1102 | exactly the overdue rounds that have not ended expire |
| Database.Database.RetentionCandidates | key-aggregation-server/app/persistence/database.py:1104-1124 | exactly the ended rounds past their retention, each with the paths of its artifacts |
| Database.Database.PurgeRound | key-aggregation-server/app/persistence/database.py:1126-1164 | an ended round past its retention disappears from every table, create records included, all others staying as they are; any other round is refused |
| Queries.NextKeyAction | key-aggregation-server/app/persistence/database.py:577-626 | the client's first ready task in the order of stage, level and name, or its part in the final key, or nothing |
| Queries.OfferedTaskAccepted | key-aggregation-server/app/persistence/database.py:577-681 | an offered task can be uploaded: only the newness of the file is left to check |
| Queries.OfferedFinalKeyAccepted | key-aggregation-server/app/persistence/database.py:603-826 | an offered publication is accepted |
| Queries.SomebodyCanAct | key-aggregation-server/app/persistence/database.py:577-626 | in every reachable state of key aggregation some participant can take the next step |
| Queries.TaskArtifact | key-aggregation-server/app/persistence/database.py:698-724 | a task artifact is handed out exactly to its receiver once completed, and is then always there |
| Queries.JobInputs | key-aggregation-server/app/persistence/database.py:1166-1173 | the join gives each client's update with its tag, in the order of the clients |
| Queries.ResultOf | key-aggregation-server/app/persistence/database.py:1243-1251 | a result is found exactly if the job is completed, and always past aggregation |
| Filing.StepFiles | key-aggregation-server/app/persistence/database.py:628-1212 | a file gets a row exactly if its request is newly accepted, and a terminal round gains none |
| Store.ArtifactStore.PutStream | key-aggregation-server/app/storage/filesystem.py:32-51 | a stream within the limit becomes one file with all its chunks; otherwise nothing is left |
| Store.ArtifactStore.PutBytes | key-aggregation-server/app/storage/filesystem.py:53-64 | bytes within the limit become a file |
| Store.ArtifactStore.Delete | key-aggregation-server/app/storage/filesystem.py:66-68 | a file is removed, and a missing one is no error |
| Digest.CiphertextDigest | key-aggregation-server/app/api/v1.py:374-389 | the digest is that of the nonce and the file without its last sixteen bytes, however the file was cut into chunks, or a refusal for shorter files |
| Digest.TagRoundTrip | key-aggregation-server/app/worker/aggregation.py:84 | the emitted tag passes the check of uploaded tags and reads back as the same number |
| Worker.TakeInput | key-aggregation-server/app/worker/aggregation.py:49-69 | one turn of the loop checks the next input and adds it: every coordinate is the word of the sum so far, the tag the sum in the field |
| Worker.OrderDoesNotMatter | key-aggregation-server/app/worker/aggregation.py:49-69 | the sums do not depend on the order of the inputs |
| Files.PutOnRecord | key-aggregation-server/app/api/v1.py:714-722 | a newly accepted file goes from its way onto the record |
| Files.RoundRemoved | key-aggregation-server/app/worker/aggregation.py:98-102 | removing the rows of a round none of whose files is left strands no file |
| Ledgers.MoveKeeps | key-aggregation-server/app/api/v1.py:685-725 | every small step of the service, a request, an arriving or discarded file, a sweep, a deletion, a purge, leaves files and rows in agreement and every file with the content its row describes |
| Ledgers.StaysBalanced | key-aggregation-server/app/worker/aggregation.py:95-104 | so does any sequence of steps by any requests, workers and maintenance runs |
| Ledgers.EndedRoundsKeepFiles | key-aggregation-server/app/worker/aggregation.py:98-102 | over any sequence of steps an ended round keeps exactly its row and its files until it is purged, and its name and paths are not used again |
| Ledgers.MaintenanceStaysPossible | key-aggregation-server/app/worker/aggregation.py:98-102 | over any sequence of steps, other maintenance runs included, the files of a round being removed may still be deleted, deleted ones stay deleted, and once all are gone the rows may be purged |
| Ledgers.StaysInFlight | key-aggregation-server/app/api/v1.py:700-724 | over any sequence of steps by others an uploaded file keeps its content and may still be committed or discarded by whoever brought it |
| Ledgers.FilesOnRecordStay | key-aggregation-server/app/worker/aggregation.py:95-104 | over any sequence of steps no file on record is lost or changed before its round has ended, is past its retention and is to be removed |
| Handlers.UpdateHandled | key-aggregation-server/app/api/v1.py:700-724 | an update is on record with its content exactly if newly accepted, and no file is left of it otherwise |
| Handlers.TreeHandled | key-aggregation-server/app/api/v1.py:452-496 | every refusal of a member ends the round, a tree artifact is on record exactly if newly accepted, and what is accepted leaves the rows as the transaction does |
| Removal.MaintenanceIsExact | key-aggregation-server/app/worker/aggregation.py:95-104 | exactly the rounds not past their retention remain, as the expiry sweep left them, with all their files |
| Service.Service.Ask | key-aggregation-server/app/api/v1.py:700-724 | a request steps its round as specified; its file is on record exactly if newly accepted, and still on its way otherwise |
| Service.Service.UploadUpdate | key-aggregation-server/app/api/v1.py:685-725 | the handler refuses for exactly the listed reasons and otherwise answers what the transaction answers; the update is on record with its content exactly if newly accepted, and nothing else has changed |
| Service.Service.UploadTaskArtifact | key-aggregation-server/app/api/v1.py:435-496 | every refusal after the membership check ends the round; the artifact is on record with its content, and exactly its task uploaded, exactly if newly accepted; no file is left otherwise |
| Service.Service.UploadFinalKey | key-aggregation-server/app/api/v1.py:553-611 | every refusal after the membership check ends the round; the final key is on record with its content and is the round's exactly if newly accepted; no file is left otherwise |
| Service.Service.Aggregate | key-aggregation-server/app/worker/aggregation.py:42-75 | the claim is renewed before every input and at the end, before each of which others make any requests, files included, and run maintenance; the result is, for every tensor and coordinate, the word of the sum over the inputs as they were when the job was claimed, and the tag sum in the field, or a fault there is |
| Service.Service.RunOnce | key-aggregation-server/app/worker/aggregation.py:36-93 | the oldest claimable job is claimed, and the file on record afterwards holds the encoded sum of the round's inputs with a well-formed tag, or the job is given up and no file is left behind; it is given up over its inputs only because the claim was lost or an uploaded file or tag is malformed, never because a file is missing or changed, whatever others do meanwhile |
| Shifts.PublicationHandled | key-aggregation-server/app/worker/aggregation.py:76-93 | whatever others ask, upload or remove meanwhile, the result file is on record with its content exactly if it was published; otherwise neither it nor the claim is left |
| Shifts.AggregatingIsReadable | key-aggregation-server/app/worker/aggregation.py:42-57 | a round being aggregated is not being removed, its inputs are as many as its participants, and every file is there with the digest on record, so the worker's presence and digest checks never fail |
| Bystanders.ActedStillReads | key-aggregation-server/app/worker/aggregation.py:95-104 | no request, upload or maintenance run of others takes or changes a file of a round that is there and not being removed |
| Shifts.PublishedFileClears | key-aggregation-server/app/worker/aggregation.py:70-87 | the published file, cleared by the root artifact of the completed tree, gives the word of the sum of all clients' values, and the sum itself exactly if it fits |
| Shifts.WorkerClears | key-aggregation-server/app/worker/aggregation.py:36-93 | from the worker's run to the clients: if it published, the file on record, cleared by the root artifact, gives the word of the sum of all clients' values, and the sum itself exactly if it fits |
| Service.Service.RunMaintenance | key-aggregation-server/app/worker/aggregation.py:95-104 | overdue rounds expire, exactly the ended rounds past their retention are removed with their files, and nothing else changes |

Two promises hold only under a condition the code itself checks, and are stated so. Finishing a round looks at the
state before the idempotency record, so a repeated finish is answered from the record exactly while the result is out
(`Replay.ExactlyOnce`). And a repeated confirmation gets its first answer exactly if the commitments had not differed:
the last one missing in key setup, if it differs from one of the others, is answered with the mismatch once and with
the recorded acceptance from then on (`Confirmations.MismatchRepeatedIsAccepted`); `Completion.MismatchOfThree` is such
a run.
A lapsed lease that nobody has taken back may still publish (`Publication.PublishedExactlyWhen`).

## Left out

- HTTP routing, bearer authentication, request validation and error translation; only the checks they establish are
  kept: a caller is a participant of the round, a round has at least three different participants.
- Cryptography and tensor files: hashes, signatures and parsers are parameters; what a client puts into an encrypted
  artifact is given by the meaning of its action.
- SQLite itself: each transaction is taken as atomic and serialisable; a table is a map from rounds to the round's rows.
- Create records are kept apart from the other idempotency records, as federation names are never round names.
- Crashes within one file write, directory synchronisation, polling and signals.
- Topology.DeriveTreePlan: tree_levels is the rounded-up binary logarithm itself, without the floating-point function the
  source computes it with; hashing the plan and the counter's eight bytes are left out.
- Digest.TagRoundTrip: header values carry no surrounding white space, which the source's parsers would skip.
- Service.Service.RunOnce: between the worker's own requests others make any requests, uploads included, and run
  maintenance, each as a whole and under file names of their own; finer interleavings are in `Ledgers`, and so are new
  rounds.
- Completion.CompletableFrom: a run is of transactions; `Completion.CompletableByRequests` adds that participants look at
  the round first, one look standing for those of all requests after it.
- Replay.ExactlyOnce: within the life of a round; a purged round forgets its records.
- Member enrolment, settings, start-up, the reading endpoints that only return rows, and the tampering worker.
