# WeftMark, modelled and proved in Dafny

WeftMark coordinates coding agents through one append-only, hash-chained ledger. Each service
reads a snapshot of the ledger, decides, and appends one record if the head has not moved. This
project models the ledger, the services that decide over it, and the algorithms they rest on, and
proves what must hold of every run.

The ledger

- `Records.dfy` holds the records and the chain. A digest is a free datatype: genesis, or the
  sequence, previous digest and draft it covers. Equal digests then mean equal content, with no
  assumption about SHA-256. A request digest is the request itself.
- `SqlTables.dfy`, `SqlRuns.dfy` and `SqlLedger.dfy` are the SQL backend: the four tables, the four
  statements of an append as functions, every sequence of actions of every client from arbitrarily
  stale snapshots, and a class whose methods execute the statements, take snapshots, import, export,
  check checkpoints and append idempotently.
- `JsonlLedger.dfy` is the file backend, line by line. `LedgerApi.dfy` is paged reading of the SQL ledger.

The services

- `Serial.dfy` is optimistic concurrency: any interleaving of clients that snapshot, decide and
  compare-and-append is a serial run, for any deciding service; `Backends.dfy` has the same of clients
  on the SQL and the JSONL ledger.
- `Claims.dfy` (over `Leases.dfy`), `Tasks.dfy`, `WorkBindings.dfy`, `Completion.dfy` and
  `PlanImport.dfy` are the services. Each operation is a decision on a ledger prefix; the methods
  beside it run the source's retry loop on a `LedgerStore.Store` while other clients append.
- `System.dfy` puts all services on one ledger and proves what holds after every run; `Draining.dfy`
  follows its plan until nothing is left to do.
- `TaskHistories.dfy` follows a task over such runs, and `PlanContents.dfy` says field by field what an
  imported plan leaves in a ledger.
- `ChangeSets.dfy` is a Change Set and its lineage; `HandoffContext.dfy`, with `HandoffRendering.dfy`
  and `Tokens.dfy`, is the budgeted context of a handed-over task, and `HandoffGuarantees.dfy` what it
  always shows and what it may leave out.

The algorithms: `Graphs.dfy` is the theory of paths and cycles; `GraphSearch.dfy` has the walk of
`add_dependency` and the depth-first search of the source-plan reader; `TaskFiles.dfy` has Kahn's
loop of the task-file checker and the agreement of both; `Planning.dfy` has the planner.

Five promises of the code hold only under a condition. Each has an input for which it fails and the
exact condition under which it holds:

- Claims exclude each other in a run exactly when no written renewal in it is blocked, for its renewed
  locks, at the latest time so far (`Services.LeasesExcludeIff`): renewal makes no conflict check. Other
  operations may be dated at will. `Claims.BackdatedRenewalBreaksExclusion` is a run that fails it.
- A summary listed as included in a handoff context is rendered exactly when everything from the first
  summary that fits onwards fits in turn (`HandoffContext.IncludedAreRenderedIff`); the append helper
  answers that the section has started, not that the item was added.
  `HandoffContext.IncludedButAbsent` is a context that lists a summary it does not contain.
- The diff excerpt is the longest cut that fits exactly when every cut the bisection probes on the way to
  it fits (`Tokens.ShortenIsLongestIff`), as with the fallback counter. `Tokens.SearchMissesLongest` is a
  counter for which it is not.
- File scopes that share a file are seen to overlap unless both are patterns whose literal parts come
  apart inside a path segment, and only then not (`Leases.SharedFileMissedIff`); `Leases.MissedPatterns`
  is such a pair.
- Planning does not fail on the references of a sound ledger, except exactly when a relation it reads
  later names a task created after its first read (`Planning.ThreeReadsPlan`); `Planning.ReadsCanMiss`
  is such a case.

Time is an integer number of microseconds. `sorted` is an insertion sort proved to sort
(`Common.dfy`). Where a text is hashed to make an identifier, the identifier is the text.

## Model

| member | source | states |
|---|---|---|
| Chain.HeadCovers | src/weftmark/adapters/jsonl_ledger.py:77-95 | The head digest of a valid chain determines the whole chain. |
| Chain.ChainFields | src/weftmark/adapters/jsonl_ledger.py:77-95 | A ledger is valid exactly if its entries are numbered from one, each names the digest before it, and each digest is over its own sequence, previous digest and draft. |
| Chain.SameHeadSameLog | src/weftmark/application/claims.py:354-362 | No ABA: two valid ledgers with one head digest are one ledger, which is what comparing the head alone relies on. |
| Chain.AppendValid | src/weftmark/adapters/ledger_codec.py:94-99 | A record made for the head extends a valid chain to a valid chain. |
| TaskIntents.TransitionKeepsHistory | src/weftmark/domain/task.py:132-156 | An allowed transition yields a task whose event history the constructor accepts. |
| TaskHistories.TransitionAcceptedIff | src/weftmark/domain/task.py:132-156 | A transition is written exactly for a move of the state table other than to done, not dated before the last change; it leaves that one task in the state asked for with one event more, by that actor, for that reason, at that time, and every other task as it was. |
| TaskHistories.ReachableIsLawful | src/weftmark/domain/task.py:33-47 | Every task of every reachable ledger got to its state from idea or todo by moves of the state table, one after the other in time. |
| TaskHistories.LawfulEnds | src/weftmark/domain/task.py:33-47 | A task that is done was in progress just before, and no event follows done or abandoned. |
| TaskHistories.TaskIsForever | src/weftmark/domain/task.py:132-156 | Over every run of all services a task keeps its intent, priority, scopes and every event of its history, and done or abandoned it never changes again. |
| JsonlLedger.JsonlFile.ReadLocked | src/weftmark/adapters/jsonl_ledger.py:77-95 | Reading succeeds only on the lines of a valid chain and otherwise reports the first fault, at its line, after a valid part. |
| JsonlLedger.JsonlFile.AppendIfHead | src/weftmark/adapters/jsonl_ledger.py:40-49 | Appends one line exactly for a readable file with the expected head; any error leaves the file as it was. |
| JsonlLedger.JsonlFile.Append | src/weftmark/adapters/jsonl_ledger.py:34-38 | Appends the next entry of the chain; only corruption is refused, and then nothing is written. |
| JsonlLedger.WrittenHasNoFault | src/weftmark/adapters/jsonl_ledger.py:77-111 | What the ledger wrote is read back without a fault at any line. |
| JsonlLedger.FaultyUnreadable | src/weftmark/adapters/jsonl_ledger.py:77-95 | Lines with a fault are the lines of no valid chain: corruption is never read as history. |
| SqlTables.BatchExact | src/weftmark/adapters/sql_ledger.py:98-139 | On tables of any reachable database the four statements never abort half way: they add entry, receipt and head together, or change nothing, and read back the receipt under the key. |
| SqlTables.AppendedValid | src/weftmark/adapters/sql_ledger.py:98-139 | An effective append leaves valid tables in every stream. |
| SqlRuns.AppendedLater | src/weftmark/adapters/sql_ledger.py:98-139 | An effective append keeps every log and receipt, adds its record to its own log and changes no other. |
| SqlTables.KeyedFacts | src/weftmark/adapters/sql/001_ledger.sql:17-36 | An operation key leads to one entry within the head, and to its receipt. |
| SqlTables.SelectedIsNumbered | src/weftmark/adapters/sql_ledger.py:173-192 | However the engine answers the ordered selection, it is the rows numbered 1 to the head, and their records are the log. |
| SqlTables.ValidIsAccepted | src/weftmark/adapters/sql_ledger.py:173-216 | Every check of a snapshot passes on a stream with valid tables, and it returns exactly the log. |
| SqlRuns.RunOk | src/weftmark/adapters/sql_ledger.py:98-139 | Over every sequence of stream creation, imports and batches from stale snapshots the tables stay valid, logs only grow and stored operations never change. |
| SqlRuns.ReachableIsAccepted | src/weftmark/adapters/sql_ledger.py:173-216 | In every reachable database each stream is a gap-free chain with one matching receipt an entry and its head on the last entry, and its snapshot is accepted. |
| SqlRuns.OneEntryPerKey | src/weftmark/adapters/sql/001_ledger.sql:17-29 | No two entries of a stream share an operation key. |
| SqlRuns.StoredForever | src/weftmark/adapters/sql_ledger.py:234-266 | The entry stored for an operation is the same in every later state. |
| SqlRuns.TakenKeyReadsBack | src/weftmark/adapters/sql_ledger.py:131-139 | A batch under a taken key changes nothing and reads back the stored entry with the digest of its own request. |
| SqlRuns.ExactlyOnce | src/weftmark/adapters/sql_ledger.py:234-266 | After a commit, answered or lost, and any later actions of anyone, every batch under that key reads back that very entry and appends nothing. |
| SqlRuns.StoredMatchesRequest | src/weftmark/adapters/sql_ledger.py:203-214 | A stored entry has the draft of its request, and a previous digest equal to the expected one if that was given. |
| SqlRuns.AppendIfHeadIsCas | src/weftmark/adapters/sql_ledger.py:231-266 | Under an unused key the compiled batch is a compare-and-swap on the ledger: it appends exactly when the head digest is the one compiled against. |
| SqlRuns.ImportReproduces | src/weftmark/adapters/sqlite_ledger.py:109-142 | Import into an empty stream reproduces every source entry with its digest and leaves other streams alone; otherwise it changes nothing. |
| SqlRuns.CheckpointCovers | src/weftmark/adapters/sql_ledger.py:268-278 | Whenever a checkpoint passes, the first entries are exactly those its digest covers. |
| SqlRuns.HeadStaysTrusted | src/weftmark/adapters/sql_ledger.py:268-278 | A head taken from a reachable state passes as checkpoint in every later state. |
| SqlLedger.Host.ExecuteInsertEntry | src/weftmark/adapters/sql_ledger.py:111-122 | The guarded insert changes the tables as the statement says, or aborts on a unique key and changes nothing. |
| SqlLedger.Host.Batch | src/weftmark/adapters/sqlite_ledger.py:59-80 | The four statements in order on mutable tables are the specified batch; an abort restores everything. |
| SqlLedger.Host.SelectRows | src/weftmark/adapters/sql_ledger.py:176-180 | The ordered selection returns all rows of the stream, by increasing sequence, once each. |
| SqlLedger.Host.TakeSnapshot | src/weftmark/adapters/sql_ledger.py:173-216 | A snapshot is returned exactly when all checks hold of the selected rows. |
| SqlLedger.Host.SnapshotOfValid | src/weftmark/adapters/sql_ledger.py:167-216 | On a reachable database a snapshot fails only for a stream that was never created, and otherwise is the log with its head. |
| SqlLedger.Host.CreateStream | src/weftmark/adapters/sql_ledger.py:158-165 | Creates an empty stream at genesis, or leaves the existing one. |
| SqlLedger.Host.AppendIdempotent | src/weftmark/adapters/sql_ledger.py:234-266 | With up to sixteen tries between any actions of other clients: an answer is the entry stored for this very request; a conflict means the key belongs to another request; a moved head means the key is unused and the head is not the expected one or, if none is expected, that others acted in each of the sixteen tries; a key known before is answered from the store. The tables are what others made of them and at most the one append it answers; an error adds nothing. |
| SqlLedger.Host.ImportRecords | src/weftmark/adapters/sqlite_ledger.py:115-142 | The import loop, tracking the head row at each step inside one transaction, is the specified import and is all or nothing. |
| SqlLedger.Host.ImportJsonl | src/weftmark/adapters/sqlite_ledger.py:109-142 | Imports exactly the lines of a valid ledger into an empty stream, which then holds those lines; any error changes nothing. |
| SqlLedger.Host.ExportJsonl | src/weftmark/adapters/sql_ledger.py:224-226 | Exports the canonical records in order, so after an import the source comes back. |
| SqlLedger.Host.VerifyCheckpoint | src/weftmark/adapters/sql_ledger.py:268-278 | The checks on the snapshot decide the checkpoint on the log; a stream that was never created is an error. |
| Serial.StepConsistent | src/weftmark/application/claims.py:354-362 | One step of one client keeps the ledger equal to a serial run and only extends ledger and history. |
| Serial.InterleavingsAreSerial | src/weftmark/application/claims.py:354-362 | For any deciding service, whatever interleaving of reads, appends, lost races and crashes yields the ledger of the completed operations run one at a time, each decided as it would have alone. |
| LedgerStore.Store.RecordIfHead | src/weftmark/application/ledger.py:48-58 | Appends the draft exactly when the head is the expected one. |
| Leases.OverlapSymmetric | src/weftmark/domain/lock.py:215-243 | Two scopes overlap in either order or in neither. |
| Leases.OverlapOfOtherKinds | src/weftmark/domain/lock.py:215-222 | Scopes that are not both files overlap exactly when they are the same scope, and every scope overlaps itself. |
| Leases.FileOverlapIff | src/weftmark/domain/lock.py:225-256 | Exactly when file scopes overlap: literals when equal, a literal and a pattern when the pattern matches, patterns when the path segments of one literal part begin with those of the other or a literal part is empty. |
| Leases.PathPrefixIsSegments | src/weftmark/domain/lock.py:255-256 | The text comparison of path prefixes compares whole path segments. |
| Leases.MissedWithinSegment | src/weftmark/domain/lock.py:225-256 | Two patterns that match one file are not seen to overlap exactly when their literal parts come apart inside a path segment. |
| Leases.SharedFileMissedIff | src/weftmark/domain/lock.py:225-256 | Of any two file scopes that share a file, exactly two patterns whose literal parts come apart inside a path segment are not seen to overlap. |
| Leases.StarsMissedIff | src/weftmark/domain/lock.py:225-256 | For literals with a star the shared file need not be given: the pairs that share one and are missed are those where one literal continues the other inside a path segment. |
| Leases.MissedPatterns | src/weftmark/domain/lock.py:225-256 | The patterns src/a* and src/ab* both match src/abc and are not seen to overlap. |
| Leases.LockNameIdentifiesClaim | src/weftmark/application/claims.py:92-106 | The names given to locks never coincide between two claims, so the exemption for one lock id never hides a conflict. |
| Claims.CollectClaims | src/weftmark/application/claims.py:398-403 | The dictionary loop finds the last version of each claim, or reports a malformed record. |
| Claims.FindConflict | src/weftmark/application/claims.py:108-119 | The nested conflict loops find a conflict exactly when one exists with another claim. |
| Claims.BlockedIff | src/weftmark/application/claims.py:108-119 | The conflict loops find exactly the claims that hold, at that time, a scope overlapping a requested one. |
| Claims.SemanticConflictIff | src/weftmark/application/claims.py:108-119 | Otherwise acceptable scopes that are not files are refused as a conflict exactly when some claim holds one of those very scopes then. |
| Claims.AcquireAcceptedIff | src/weftmark/application/claims.py:75-126 | Acquiring is accepted exactly for a lease in range, an unused id, at least one scope, none twice, and no scope that overlaps one another claim holds then. |
| Claims.RenewAcceptedIff | src/weftmark/application/claims.py:128-161 | Renewing is accepted exactly for the owner, for a lease in range, while every lock is active, has not run out and was not changed later. |
| Claims.ReacquireAcceptedIff | src/weftmark/application/claims.py:163-229 | Reacquiring is accepted exactly for the owner of a claim whose every lock has run out, on the expected head if one is given, if no other claim holds an overlapping scope then. |
| Claims.ExtendAcceptedIff | src/weftmark/application/claims.py:231-312 | Extending is accepted exactly for the owner of a claim that is held, with at least one scope it does not have, none of those twice, if no other claim holds one overlapping them. |
| Claims.ReleaseAcceptedIff | src/weftmark/application/claims.py:314-343 | Releasing is accepted exactly for the owner while every lock is active, has not run out and was not changed later. |
| Claims.RefusedForItsReason | src/weftmark/application/claims.py:75-343 | Every refusal is for the reason it names: no such claim, another owner, an id in use, a lease out of range, a lock that is not active or not run out, nothing new, a moved head, or a scope another claim holds. |
| Claims.DecideNow | src/weftmark/application/claims.py:75-343 | One round of any operation, with its dictionary, lock and conflict loops, makes the specified decision. |
| Claims.Perform | src/weftmark/application/claims.py:75-343 | The retry loop: success leaves what others appended and after it the one record the operation decides on that; an error leaves what others appended, and is the refusal of that ledger or that others won every race, eight or, against an expected digest, one. |
| Claims.WritesObtain | src/weftmark/application/claims.py:75-343 | Each written operation obtains what it is for: acquire, renew, reacquire, extend and release leave exactly the scopes asked for, every lock active and not run out from then until exactly the time asked for, new and changed locks dated then, and locks that an extension does not add as they were. |
| Claims.OperationKeepsExclusion | src/weftmark/application/claims.py:75-343 | Any operation not earlier than the last keeps all claims exclusive from its time on. |
| Claims.VersionSucceeds | src/weftmark/application/claims.py:75-343 | Only acquiring makes a claim, under an unused id; every other operation is made by the owner, keeps Change Set, owner and locks, and is refused once the claim is released. |
| Claims.RenewGood | src/weftmark/application/claims.py:138-160 | Renewal is safe without a conflict check because it refuses locks that are not active. |
| Claims.ExclusiveLater | src/weftmark/domain/lock.py:108-115 | Activity is an interval: what holds apart now stays apart while nothing is written. |
| Services.ClaimStateIsDefined | src/weftmark/application/claims.py:63-67 | In every reachable ledger, whatever the operation times, the locks of a claim agree at any time, so its state is always defined. |
| Services.RunKeepsClaims | src/weftmark/application/claims.py:75-343 | After every run, whatever the operation times, each claim has its own name, its locks numbered from one under that name, no scope twice, and one state and expiry for all its locks. |
| Services.RunsObtain | src/weftmark/application/claims.py:75-343 | After every run each claim operation that is written obtains exactly the scopes it asked for, for exactly the time it asked for. |
| Claims.OthersKeepExclusion | src/weftmark/application/claims.py:75-343 | Acquiring, reacquiring, extending and releasing keep claims exclusive at any time from their own on, even when dated before other records. |
| Claims.RenewalSettlesIff | src/weftmark/application/claims.py:128-161 | A renewal leaves claims exclusive from the latest record on exactly when the conflict check would pass for its renewed locks at the latest time so far. |
| Claims.RenewalExclusiveIff | src/weftmark/application/claims.py:128-161 | A renewal at any time keeps claims exclusive exactly when the conflict check that acquiring makes would pass for it. |
| Claims.BackdatedRenewalBreaksExclusion | src/weftmark/application/claims.py:128-161 | A concrete run in which a renewal dated before another claim's lease leaves both active on one scope. |
| Graphs.EdgeClosesCycleIff | src/weftmark/application/tasks.py:120-128 | Adding an edge to an acyclic graph closes a cycle exactly when its target already reaches its source. |
| Graphs.CandidateEdgeIrrelevant | src/weftmark/application/tasks.py:121-128 | The walk answers the same with the candidate edge already in the graph. |
| Graphs.AcyclicMeansNoClosedPath | src/weftmark/adapters/weft_plan.py:374-389 | Acyclicity by reachability is the absence of closed paths. |
| Graphs.AcyclicHasSink | src/weftmark/application/task_planning.py:84-100 | Every nonempty set of nodes of an acyclic graph has one that depends on none of them. |
| GraphSearch.Reaches | src/weftmark/application/tasks.py:401-412 | The stack walk ends on every graph and decides reachability exactly. |
| GraphSearch.CycleSearch.Visit | src/weftmark/adapters/weft_plan.py:377-386 | The recursive visit returns with the node finished and the visiting set restored, or a cycle exists. |
| GraphSearch.ValidateGraph | src/weftmark/adapters/weft_plan.py:355-389 | Accepts exactly the plans whose references resolve, none to itself, and whose dependencies are acyclic. |
| TaskFiles.Serve | scripts/validate_tasks.py:83-88 | One turn of the inner loop keeps every counter equal to the number of open dependencies and queues exactly the tasks that became ready. |
| TaskFiles.KahnSort | scripts/validate_tasks.py:78-91 | The visit order is topological; all nodes are visited exactly when the graph is acyclic; leftovers are the positive counters and each depends on another leftover. |
| TaskFiles.LoadTask | scripts/validate_tasks.py:70-76 | Loads one task's references into the graph and its mirror, or names what is wrong with it. |
| TaskFiles.Validate | scripts/validate_tasks.py:55-95 | From the dependency loop on, the checker accepts exactly the tasks whose dependencies are known, none its own, and acyclic, and then orders all of them; a reported cycle lists tasks that each depend on another listed one. |
| TaskFiles.DetectorsAgree | scripts/validate_tasks.py:78-91 | On one dependency graph the depth-first search accepts exactly what Kahn's loop orders completely, up to the conflict references that only the former looks at. |
| Tasks.CollectTasks | src/weftmark/application/tasks.py:341-349 | The dictionary loop finds the last version of each task, or reports a malformed record or identity. |
| Tasks.CollectRelations | src/weftmark/application/tasks.py:374-385 | The relation loop finds every relation once, or reports a wrong identity or a rewritten relation. |
| Tasks.RefusesEdge | src/weftmark/application/tasks.py:117-128 | The graph dictionary with the candidate edge, walked from the target, decides whether the target reaches the source. |
| Tasks.DecideAddDependencyNow | src/weftmark/application/tasks.py:101-140 | One round of add_dependency, with its loops, makes the specified decision. |
| Tasks.RefusedExactlyOnCycle | src/weftmark/application/tasks.py:113-128 | A new edge between existing tasks is refused exactly when it would close a cycle, and recorded exactly when not. |
| Tasks.TaskOpKeepsPlan | src/weftmark/application/tasks.py:42-186 | Every operation keeps the plan sound: records decode, relations join existing tasks, histories are valid and dependencies acyclic. |
| Tasks.AddConflictKeepsPlan | src/weftmark/application/tasks.py:142-186 | Adds exactly the canonical pair with its reason and nothing else. |
| Tasks.RelationsIdentified | src/weftmark/application/tasks.py:352-385 | Every collected relation is stored under its own identity. |
| Planning.Evaluate | src/weftmark/application/task_planning.py:63-107 | Every task is evaluated once, in order of ids; it is eligible exactly when selectable, with its dependencies done and no conflicting task in progress; each kind of obstacle there is has its reason, which lists exactly what is in the way. |
| Planning.EligibleIff | src/weftmark/application/task_planning.py:84-100 | A task is eligible exactly when it is idea or todo, each of its dependencies is done, and no task it conflicts with, in either direction, is in progress. |
| Planning.Next | src/weftmark/application/task_planning.py:35-53 | The answer is the front of the one ranking of all eligible tasks, in strict order of priority, creation time and id by characters; the skipped list holds every other task with its reasons. |
| Planning.NeverDeadlocks | src/weftmark/application/task_planning.py:63-107 | In an acyclic plan nobody works on, with work left, some task is eligible. |
| Planning.Drain | src/weftmark/application/task_planning.py:35-53 | On plan values: finishing the first choice of next over and over finishes every open task once, after its dependencies, in as many rounds as there were open tasks. |
| Draining.StepMoves | src/weftmark/application/tasks.py:42-186 | An operation of any service that writes no plan record but one of a task changes only that task's state and history in the plan. |
| Draining.RoundsDrain | src/weftmark/application/task_planning.py:35-53 | On ledgers: rounds of operations of all services, each taking the first choice of the planner to done, finish unfinished tasks once each and after their dependencies; work left means another choice, and as many rounds as there were unfinished tasks leave nothing. |
| Draining.EffortIsRound | src/weftmark/application/task_claims.py:129-316 | In every reachable ledger a todo task that is the first choice and has no binding can be taken to done by a round: reserve, complete the binding, record a merged Change Set, acquire, release, record a releasable review, start, complete. |
| Planning.SoundLedgerPlans | src/weftmark/application/task_planning.py:66-86 | On one sound ledger no relation names a missing task, so planning does not fail on its references. |
| Planning.ThreeReadsPlan | src/weftmark/application/task_planning.py:63-86 | Over the three reads of a growing sound ledger planning fails exactly when a relation read later names a task created after the first read; what it answers as eligible is eligible in the first ledger. |
| Planning.ReadsCanMiss | src/weftmark/application/task_planning.py:63-86 | Ledgers on which it fails. |
| Planning.NextFromLedger | src/weftmark/application/task_planning.py:35-107 | The selection over three snapshots, between which others append, succeeds and fails accordingly. |
| WorkBindings.LatestWork | src/weftmark/application/task_claims.py:130-140 | The reversed scan finds the last record of the task's history. |
| WorkBindings.WorkOpKeepsBindings | src/weftmark/application/task_claims.py:129-155 | A task has one reservation, at most one completion of that very binding, and nothing after it. |
| WorkBindings.IdentityNeverChanges | src/weftmark/application/task_claims.py:129-155 | Whatever is appended, a bound task keeps its Change Set, claim, agent, session, base revision and creation time, and stays completed. |
| WorkBindings.ReserveWork | src/weftmark/application/task_claims.py:129-155 | Returns the binding in force: the last one found, with nothing appended, or a new one with the Change Set, claim, agent, session, base revision and time asked for, not completed, the one record appended to a ledger without any; an error appends nothing and is a malformed record on that ledger or eight lost races. |
| WorkBindings.FinishWork | src/weftmark/application/task_claims.py:275-316 | Returns the reserved binding completed, found so or by the one record appended; an error appends nothing and is a missing or malformed record on that ledger or eight lost races. |
| WorkBindings.DecidesIff | src/weftmark/application/task_claims.py:129-316 | What these two record, find and refuse is what the decisions in the runs of all services do. |
| WorkBindings.ReacquireForRunnableTask | src/weftmark/application/task_claims.py:240-273 | A reacquired claim is the one record appended, to a ledger on which its task was in progress and the claim expired, established by reading the ledger before and after the task; an error appends nothing and is one that the task or the claim service makes on a ledger it saw, or that others appended in each of eight rounds. |
| Completion.CompletionIsProven | src/weftmark/application/task_completion.py:217-286 | A done record is decided only on a ledger that shows, record by record: the binding completed, its Change Set merged, its claim the owner's and released with all locks, and the last review of that Change Set releasable, within policy, ready, and of the last observed head in both its own and its decision's field; the record adds one event by that actor for that reason to the task in progress. |
| Completion.CompletesIff | src/weftmark/application/task_completion.py:111-161 | A completion is written exactly on a ledger that shows all of that of a task in progress, not changed later. |
| Completion.StaleReviewIsRefused | src/weftmark/application/task_completion.py:180-214 | A last review whose head, or whose decision's head, is not the last observed one is always refused for a task that is not done. |
| Completion.LimitIsPrefix | src/weftmark/application/task_completion.py:315-333 | Looking before a sequence is looking at the prefix of the chain. |
| Completion.ProofIsStable | src/weftmark/application/task_completion.py:217-286 | Evaluating the proof again on a longer ledger with the same done record finds the same Change Set, claim and review. |
| Completion.CompletionLoop | src/weftmark/application/task_completion.py:111-164 | The task returned is done: by the one record appended to a ledger that proves it, or found so after a like try, with nothing appended; an error appends nothing and is the refusal of that ledger or eight lost races. |
| Completion.Complete | src/weftmark/application/task_completion.py:57-164 | The whole workflow, with others appending around every part, returns only such a task, for the completed binding and this actor and reason, and appends at most the release and the done record; each error is that of one part, after which nothing more is appended. |
| Services.InterleavingsAreRuns | src/weftmark/application/claims.py:354-362 | Any interleaving of clients of all services yields the ledger of a run of their completed operations. |
| Backends.BackendIsSerial | src/weftmark/application/claims.py:354-362 | For any store whose append adds the draft exactly on the snapshot's head, whatever its clients interleave, the stored ledger is that of a serial run of their completed operations. |
| Backends.SqlServicesRun | src/weftmark/adapters/sql_ledger.py:231-266 | Clients of all services on the SQL ledger, each append a batch under a key of its own compiled from its snapshot, leave the log of a run. |
| Backends.FileServicesRun | src/weftmark/adapters/jsonl_ledger.py:40-49 | Clients of all services on the JSONL ledger leave the lines of a run. |
| Services.RunIsSound | src/weftmark/application/tasks.py:42-186 | After every run the ledger is a chain with a sound acyclic plan, one binding a task, and every done task proven. |
| Services.DoneStaysProven | src/weftmark/application/task_completion.py:111-161 | In every reachable ledger each done record extends a prefix with that full proof by one event, is the last record of its task, and proves the same at any later time. |
| Services.BindingIsForever | src/weftmark/application/task_claims.py:129-155 | Over every run a task keeps the binding identity it once had, and a completed binding stays as it is. |
| Services.ReachablePlansNeverDeadlock | src/weftmark/application/task_planning.py:35-53 | The plan of every reachable ledger is acyclic; if its tasks are all idea, todo or done and one is not done, some task is eligible. |
| Services.LeasesExcludeIff | src/weftmark/application/claims.py:75-343 | Exactly which runs are exclusive: after every prefix no two claims hold overlapping scopes active at one instant, from its latest claim record on, if and only if no written renewal in it is blocked for its renewed locks at the latest time so far. |
| Services.LeasesExclude | src/weftmark/application/claims.py:75-343 | So in every run whose renewals are in time order, whatever the times of its other operations, no scope is held active by two claims at one instant from the latest claim record on, and no file but by two patterns whose literal parts come apart inside a path segment. |
| Claims.ExclusiveHoldsOnce | src/weftmark/domain/lock.py:215-256 | Claims that exclude each other hold no scope twice, and share a file only by such patterns. |
| Services.ClaimIsForever | src/weftmark/application/claims.py:75-343 | Over every run, in whatever order of times, a claim keeps its Change Set, agent, session and locks, is only extended, and never changes once released. |
| SourcePlans.ContainedIsInduced | src/weftmark/application/plan_import.py:124-154 | A ledger that holds all of the plan and nothing else holds exactly the subgraph of tasks, dependencies and conflicts induced by the tasks that are not done. |
| SourcePlans.PartNeverRefused | src/weftmark/application/plan_import.py:184-254 | On a ledger with parts of an accepted plan no dependency or conflict of it is refused, in particular not as a cycle; creating only if the task is already there. |
| SourcePlans.PartStaysWithin | src/weftmark/application/plan_import.py:184-254 | Whatever importers of one plan write, the ledger holds nothing outside the plan, also while tasks change state. |
| SourcePlans.TaskOpGrows | src/weftmark/application/tasks.py:42-186 | Tasks and relations are only added, and what a task is for never changes. |
| PlanImports.PerformTask | src/weftmark/application/tasks.py:42-186 | One call of the task service with its retries: on success what it is for holds, and a record it wrote is the one it decides on the ledger before; on a ledger of this plan only a crash, busyness, or an equal task made by another importer stops it. |
| PlanImports.OwnWritePays | src/weftmark/application/plan_import.py:184-254 | Each append of an import is one record less to append: nothing is written twice. |
| PlanImports.ImportSnapshot | src/weftmark/application/plan_import.py:101-254 | With a receipt it changes nothing and answers from it, or reports drift. Otherwise success means that every source task not done is stored with its title, its purpose as why, its deliverables, no note, its priority and its scopes, that all dependencies and conflicts among them are stored, and that the report and the receipt list them. A task stored with other fields stops it before anything is appended, as does a conflict stored for another reason; on a ledger of this plan it fails only by crashing or being kept busy. |
| PlanImports.Survey | src/weftmark/application/plan_import.py:124-182 | The import is refused for another intent only if some task of the plan is stored with another title, why, what, note, priority or scopes, and always if one was; likewise for the reason of a conflict. |
| PlanContents.ContainedIsStored | src/weftmark/application/plan_import.py:305-320 | A ledger that contains a plan stores every task of it field by field, every dependency as that pair and every conflict as the ordered pair with the import's reason. |
| PlanContents.WithinIsStored | src/weftmark/application/plan_import.py:305-320 | What importers of the plan store is, field by field, a task, dependency or conflict of it. |
| PlanContents.IntendedIff | src/weftmark/application/plan_import.py:369-378 | Two intents count as the same exactly when title, why, what, note and priority agree and the scopes do in any order. |
| PlanImports.ImportAgain | src/weftmark/application/plan_import.py:488-506 | A second import under the same label answers the tasks, skipped tasks and satisfied dependencies of the first if the source is the same, and drift otherwise. |
| PlanImports.RecordReceipt | src/weftmark/application/plan_import.py:262-302 | Records one receipt, or answers from the one another importer recorded; a receipt of another digest is drift. |
| PlanImports.ImportUntilDone | src/weftmark/application/plan_import.py:101-302 | Crashing after any append any number of times and running again ends with exactly the plan, each stored task having the fields of its source task and each source task not done being stored, with no more records appended than were missing at the start, and with every task in the state its source asks for and without events. |
| PlanImports.ImportedIsIdle | src/weftmark/application/plan_import.py:305-320 | A plan just imported is idle: every task is idea or todo as its source says, without events, over exactly the imported relations, so it can be drained. |
| PlanImports.TaskFreeIsOurs | src/weftmark/application/plan_import.py:101-254 | A sound ledger without tasks meets the conditions of the import, with all records of the plan still to append. |
| ChangeSets.RecordLineageKeeps | src/weftmark/domain/changeset.py:248-299 | A recorded event continues the chain of events and replaying them still gives the current position. |
| ChangeSets.AmendWidens | src/weftmark/domain/changeset.py:208-246 | After an amendment the declared scopes are exactly the old ones and the added ones. |
| ChangeSets.AmendmentsAreDisjoint | src/weftmark/domain/changeset.py:208-246 | An amendment records exactly the scopes that were not declared before, at least one, once each. |
| ChangeSets.FollowLands | src/weftmark/application/change_binding.py:147-192 | A refresh lands on the observation, records at most two events and changes nothing else. |
| ChangeSets.FollowAccepts | src/weftmark/application/change_binding.py:147-192 | A refresh is refused exactly when something moved and the state or the time does not allow it. |
| ChangeSets.RefreshObserves | src/weftmark/application/change_binding.py:147-192 | A refresh succeeds exactly on the same repository context, not before the last observation, and with an allowed move, and then describes exactly what was observed. |
| ChangeSets.LineageReplay | src/weftmark/application/change_binding.py:122-192 | Over every run of plan, create, refresh, transition and amend, replaying the events from the planned base gives the current base, head and branch, events agree end to end, and the scopes are the initial ones and the disjoint amendments. |
| ChangeSets.StateChangesIff | src/weftmark/domain/changeset.py:156-171 | A change of state is accepted exactly for a move of the table, not dated before the last change, and leaves the state and time asked for and nothing else changed. |
| ChangeSets.OthersKeepState | src/weftmark/domain/changeset.py:208-299 | A refresh or an amendment keeps the state, and changes nothing of a Change Set that is neither active nor in review. |
| ChangeSets.AmendAcceptsIff | src/weftmark/domain/changeset.py:208-246 | An amendment is accepted exactly for an active Change Set or one in review, not before its last change, for scopes without duplicates of which one is new. |
| ChangeSets.CreatedIsActive | src/weftmark/application/change_binding.py:122-145 | A created binding is of the planned Change Set made active at the observed head, in its own repository, worktree, branch and base. |
| ChangeSets.MergedOnlyAfterReview | src/weftmark/domain/changeset.py:55-72 | Over every run a Change Set is merged or closed only after it was in review, and closed only after it was merged. |
| ChangeSets.SettledForever | src/weftmark/domain/changeset.py:55-72 | Over every run a closed or abandoned Change Set never changes again, and a merged one only to be closed. |
| ChangeSets.CreatedRuns | src/weftmark/domain/changeset.py:55-72 | Every run from a creation starts active and reaches merged or closed only through review. |
| LedgerApi.OneRecordFits | src/weftmark/adapters/ledger_api.py:102-110 | Any admitted record, escaped into the response, fits an empty page. |
| LedgerApi.EscapedReadsBack | src/weftmark/adapters/ledger_api.py:102-110 | A JSON reader (RFC 8259, section 7) gets back exactly the bytes that were escaped. |
| LedgerApi.EscapedLength | src/weftmark/adapters/ledger_api.py:102-110 | Escaping an admitted record adds one byte for each quote and backslash and none for anything else. |
| LedgerApi.CursorRoundTrip | src/weftmark/adapters/ledger_api.py:96-113 | Every cursor handed out is accepted and read as its sequence. |
| LedgerApi.CursorIsUnique | src/weftmark/adapters/ledger_api.py:96-97 | No two texts are the same cursor. |
| LedgerApi.FillPage | src/weftmark/adapters/ledger_api.py:101-110 | The loop stops at the end of the ledger or at the first record that a limit excludes, never before it has read one. |
| LedgerApi.Entries | src/weftmark/adapters/ledger_api.py:91-114 | A page is the longest run of records after the cursor within both limits, and hands out a cursor exactly when more records follow. |
| LedgerApi.SnapshotIsChecked | src/weftmark/adapters/sql_ledger.py:173-216 | A snapshot of a reachable database with admitted records is what paging expects, and its records are the log. |
| LedgerApi.RunKeepsPortable | src/weftmark/adapters/ledger_codec.py:94-104 | Actions that pass the size checks of the codec keep every stored record within the limit. |
| LedgerApi.FollowPages | src/weftmark/adapters/ledger_api.py:91-114 | Following the cursor from 0 with any limits returns every record of the log once and in order, although other clients of the database act between pages until they stop. |
| Tokens.ApproximateIsCeiling | src/weftmark/application/handoff_context.py:57-60 | The fallback count is the least number of tokens that covers the text. |
| Tokens.StripGrows | src/weftmark/application/handoff_context.py:237-239 | Stripping a longer prefix leaves at least as much. |
| Tokens.ApproximateGrowsOn | src/weftmark/application/handoff_context.py:57-60 | The fallback counter never charges less for a longer cut. |
| Tokens.SearchFindsIff | src/weftmark/application/handoff_context.py:233-246 | Bisection ends at the longest fitting cut exactly when every cut it probes at or below it on the way fits. |
| Tokens.ShortenIsLongestIff | src/weftmark/application/handoff_context.py:221-246 | The answer is the longest cut that fits exactly when every cut probed on the way to it fits. |
| Tokens.ShortenLosesNothingIff | src/weftmark/application/handoff_context.py:221-246 | There is a longest cut that fits whenever the search is used, and the answer is it under that condition only. |
| Tokens.GrowingFindsLongest | src/weftmark/application/handoff_context.py:221-246 | For a counter that grows on the text, such as the fallback counter, the answer is the longest cut. |
| Tokens.SearchMissesLongest | src/weftmark/application/handoff_context.py:221-246 | A text, budget and counter for which the search ends at a shorter cut than the longest. |
| Tokens.Truncate | src/weftmark/application/handoff_context.py:221-246 | The loop answers what the specified search answers, and it fits the budget for any counter. |
| HandoffContext.Classify | src/weftmark/application/handoff_context.py:320-362 | The reference loops compute the specified split of references and refuse exactly a record of another id or Change Set. |
| HandoffContext.SplitClassifies | src/weftmark/application/handoff_context.py:320-362 | Each reference is critical, optional or missing, once, by what its record says. |
| HandoffContext.ExpandFits | src/weftmark/application/handoff_context.py:203-218 | Expansion only adds text and never pushes it past the target or past what it already cost. |
| HandoffContext.ExpandPartitions | src/weftmark/application/handoff_context.py:371-396 | Each considered summary is deferred or included, once; the deferred ones come first. |
| HandoffContext.ExpandLoop | src/weftmark/application/handoff_context.py:371-396 | The section loop leaves the content and lists the two above are about, for any counter. |
| HandoffContext.ExpandContent | src/weftmark/application/handoff_context.py:203-218 | A section adds its header and exactly the lines of the rendered summaries, one a line, or nothing. |
| HandoffContext.IncludedAreRenderedIff | src/weftmark/application/handoff_context.py:203-218 | The deferred summaries are those before the first that fits; the included ones, all after it, are all rendered exactly when everything from there on fits in turn. |
| HandoffGuarantees.FirstFitIs | src/weftmark/application/handoff_context.py:203-218 | The first summary that fits is the first whose text, under a new header, costs no more than the target. |
| HandoffGuarantees.FitInTurnIff | src/weftmark/application/handoff_context.py:203-218 | Summaries fit in turn exactly when the content with the section up to each of them is within the target. |
| HandoffContext.RefusedButIncluded | src/weftmark/application/handoff_context.py:371-396 | For any handoff with two passed evidences and a budget that only the first fits, both are listed as included, none is deferred, and the second one's line is not in the content. |
| HandoffContext.IncludedButAbsent | src/weftmark/application/handoff_context.py:371-396 | Such a handoff, with the fallback counter at one character a token. |
| HandoffContext.PathsAllOrNone | src/weftmark/application/handoff_context.py:441-458 | Either the first path fits and all considered paths are listed as included, or none is; the content has the header and the rendered lines. |
| HandoffContext.ExpandPaths | src/weftmark/application/handoff_context.py:442-458 | The path loop leaves the content and list that is about, for any counter. |
| HandoffContext.NormalizedIs | src/weftmark/application/handoff_context.py:441 | The paths considered are those that are not blank, each once, in order. |
| HandoffContext.ExpandDiff | src/weftmark/application/handoff_context.py:470-490 | The excerpt added is the one the search cuts for the smaller of the profile's excerpt budget and the rest of the target, and only if the target still holds with it. |
| HandoffRendering.QuotedBreaks | src/weftmark/application/handoff_context.py:115-118 | Quoted text has no control character, so no newline or return; of the characters at which Python splits lines it has exactly those of U+0085, U+2028 and U+2029 that the value has. |
| HandoffRendering.QuotedInjective | src/weftmark/application/handoff_context.py:115-118 | Different values are never quoted alike. |
| HandoffContext.CapsuleContent | src/weftmark/application/handoff_context.py:284-546 | The content is the mandatory part, then the rendered evidence, decision and path lines under their headers, then the excerpt of the diff for the smaller of its own budget and the room left under the target, and nothing else; the excerpt is there exactly when it is asked for, not empty and within the target. |
| HandoffContext.CapsuleFits | src/weftmark/application/handoff_context.py:364-534 | The content starts with everything mandatory and costs at most the larger of the target and the mandatory part. |
| HandoffContext.CapsuleLists | src/weftmark/application/handoff_context.py:315-521 | Each referenced evidence or decision and each changed path is included or deferred, once. |
| HandoffContext.Materialize | src/weftmark/application/handoff_context.py:284-546 | Answers exactly that context, within the hard maximum; it is refused for a foreign record exactly when a referenced record has another id or Change Set, for size exactly when the mandatory part is too large, and the last hard check cannot fail. |
| HandoffGuarantees.CriticalIsShown | src/weftmark/application/handoff_context.py:95-113 | For every budget and counter: evidence that is declared, running, failed, unavailable or stale and decisions that are not ready are listed as included and stand in the content on lines of their own, and so does a line for each reference to a missing record. |
| HandoffGuarantees.OnlyOptionalIsCut | src/weftmark/application/handoff_context.py:364-521 | For every budget and counter: evidence deferred for the target or a limit is passed or superseded, and such a decision ready; other deferred references have no record. The diff is deferred exactly if there is one and no excerpt of it is included. |
| HandoffGuarantees.MandatoryEvidence | src/weftmark/application/handoff_context.py:315-340 | The mandatory evidence lines are those of exactly these evidences and of the missing references. |
| HandoffGuarantees.MandatoryDecisions | src/weftmark/application/handoff_context.py:341-362 | The mandatory review lines are those of exactly the decisions that are not ready and of the missing references. |
| HandoffGuarantees.OrientationIsShown | src/weftmark/application/handoff_context.py:121-143 | Every context shows, each on a line of its own, the id, task, Change Set, goal, repository, base, head, branch, worktree, observation, scopes, known failures and next action of the handoff. |
| HandoffGuarantees.EvidenceLineTells | src/weftmark/application/handoff_context.py:146-158 | Evidence of one id and kind in different states is never rendered alike. |
| HandoffGuarantees.DecisionLinesTell | src/weftmark/application/handoff_context.py:166-185 | Decisions of one id with different outcomes are never rendered alike. |

## Left out

- SHA-256, canonical JSON text, the Nostoi verifier, file locks, fsync and torn writes: digests and requests are structural, JSONL is lines, a batch is atomic as the host contract states.
- The 256 KiB limit on a record as a refusal of append and import; paged reading assumes of the actions of clients that their records passed it.
- SQL parsing and the schema row: the four statements are functions on tables, tied to a class that executes them.
- Formats of identifiers, labels, texts and time zones, and the refusal of secret text: single-branch checks.
- `fnmatch` is a parameter of the overlap of file scopes; of it is assumed only, where named, that a match starts with the literal part of the pattern, that a name without magic characters matches itself only, and that a trailing star matches anything.
- The event lists of locks, and the payload encoders and decoders of the services: a payload is kept decoded, and a payload of another shape is the malformed record.
- The order in which several errors of one request are noticed, where it cannot be told from the ledger.
- `WorkspaceService._record` and the scope amendment after `extend_scope` append without comparing the head, so they are not part of the serial runs; Change Sets and reviews enter a run as arbitrary records of their kinds.
- The order of steps of `claim` and `_finish` around reservation, claim, transition and completion: the steps themselves are modelled.
- The report of what drifted between two source plans; only that drift is detected.
- The field checks of the task-file checker before its dependency loop: required fields, status, priority, accept and evidence.
- Reading and parsing plan files, and Python's recursion limit in the depth-first search.
- PlanImports.ImportUntilDone: runs alone; with other importers of the plan beside it, the loop may give up as busy.
- Draining.RoundsDrain: takes rounds as given; one is exhibited for a todo task without binding, not for one whose work was begun before.
- Liveness of the retry loops of eight and sixteen tries: proved is what a result or an error implies.
- Authorization, transport and error mapping of the HTTP contract; backup files; attestation.
- The runtime, forge, intake, lifecycle, kanban, control and status modules: the same patterns with easier members, or input and output.
