# DOJ, verified

A Dafny model of the parts of the DOJ online judge whose correctness spans several functions, requests or machines,
with proofs of what they keep over every input and every run. `dafny verify dfyconfig.toml` checks all of it.

| file | models |
|---|---|
| `Basics.dfy`, `Text.dfy`, `Verdicts.dfy` | shared vocabulary: a library sort, permutations, split and join, decimal numbers, byte order, statuses |
| `Judging.dfy`, `Fencing.dfy`, `RowHistory.dfy`, `SubmissionStore.dfy` | the judging protocol: leases, heartbeats, results, rejudges, progress records |
| `TimedLease.dfy` | the same lease in real time: the judger's heartbeat loop against the 60 s deadline |
| `Wakeups.dfy` | the event broker and the long polls that wait on it |
| `PackageGC.dfy`, `ProblemGc.dfy` | the package garbage collector among uploads, edits, leases and results; its object names |
| `CaseNames.dfy`, `Manifest.dfy`, `Paths.dfy`, `PackageRuns.dfy`, `StandIns.dfy`, `PackageEdits.dfy` | test cases inferred from file names, kept under uploads, deletions and score edits, by concurrent editors; the path rules at upload and at the judger |
| `Ranking.dfy`, `IcpcBoard.dfy`, `OiBoard.dfy`, `Visibility.dfy` | the two scoreboards, the freeze, who may see a verdict, problem labels and filters |
| `RunnerGate.dfy`, `ReleaseGate.dfy` | the runner's connection loop; judger and runner together, and the gate before the user's program |
| `OutputCompare.dfy`, `Scoring.dfy`, `TaskResults.dfy` | the output comparer, and verdict and score from exit code to posted result |
| `CacheTrim.dfy` | the judger's package cache, trimmed under try-locks |

Code that updates state step by step is modelled by methods and classes, each proved against a function or predicate
(`Store`, `Broker`, `ProgressReporter`, `ObjectStore`, `RunnerConn`, the rank and label loops, the case loops);
protocols are transition systems in which a database transaction, an object-store call or a message is one step.
Theorems about runs quantify over all interleavings.

## What the proofs found

* **Heartbeats race.** Besides the loop (`judger/worker_progress.go:33`) the worker's main thread sends one heartbeat
  before it posts the result (`judger/worker.go:134`). A loop heartbeat read earlier can be committed after it and set
  `lease_until` back, while the main thread's has put off the loop's next one by ten seconds. With round trips of at
  most `d` the loop alone keeps the lease exactly if 2d + 1 s <= 60 s, and the whole task keeps it exactly if
  2d + 11 s <= 60 s, that is up to 24.5 s; the judger's HTTP client allows 30 s.
* **Two silent returns to the queue.** A lease whose payload cannot be built goes back to the queue without an event
  (`server/api/worker/lease.go:107-115`). And a poll skips rows that another transaction has locked: a heartbeat or
  result for an attempt that a rejudge has superseded locks the row (`server/api/worker/result.go:39`, `:101`) before it
  sees the attempt differs, so a poll woken by the rejudge's event can find nothing and go back to sleep. Polls find
  such a row only when a timer of theirs or some other event wakes them. No other cause makes a poll miss a row.
* **Stand-ins.** After a deletion the case list is filtered by all files, although it is inferred only from those under
  `data/`: in any package, a file such as `judge/1.in` keeps the case whose input is deleted, and judgers refuse every
  task of that package. List and files agree exactly as long as no deletion leaves such a stand-in, and after any edit
  of a package in agreement judgers accept its tasks exactly if no stand-in was left and the sizes are within their
  limits.
* **Whole-row saves bypass the compare-and-swap.** `server/api/public/problems.go:195` and `:242` write back the package
  column they read, even after a deletion, which that undoes. Edits serialize exactly as long as every such save finds
  the package it read; otherwise a committed edit is lost.
* **The collector's premises are exact.** A step is safe, whatever harmless steps follow, exactly if it brings no
  archive into a row that is gone or that the running collection may still take. Uploads that take at most `D` are safe
  exactly if `D` is at most the grace period; a Put of a name about to be deleted, from the row's current version, is
  always a danger; so is a whole-row save that brings back such an archive, which no save does that finds the package
  it read.
* **A second result for one attempt** is refused to judgers with a token and applied again for a local one.
* **The three visibility rules** agree on contests of the two kinds that can be created. On any other kind the SQL text
  would ignore the freeze and `submissionViews` would not; no such contest is reachable.
* **The case comparator** is cyclic on arbitrary texts. On stems of file names it is an order exactly if no number too
  large for an int lies, as a text, the wrong way round between two that fit, as 9223372036854775808 does between 93
  and 921.
* **A full score** always means an accepted task exactly if no case is worth 0.

## Model

| member | source | states |
|---|---|---|
| Judging.StepKeepsInv | server/api/worker/lease.go:68-120 | every step of the protocol (submit, lease, hand-out, guarded reset, heartbeat, result, both rejudges, progress saves landing in any order) keeps: leases in force or superseded, tickets fenced by the row's attempt, queued rows unclaimed, live rows without cases, progress tied to tickets |
| Judging.ValidNumbersAreOneToN | server/api/worker/result.go:182-190 | range check and duplicate check alone force the case numbers to be exactly 1..n (pigeonhole) |
| Judging.ValidResultMeans | server/api/worker/result.go:163-205 | the checks of a result in figures: verdicts, 10,000 cases, 256 KiB of message, 120 s, 4 GiB, 128 bytes of id, 1024 runes, distinct numbers in range |
| Judging.ValidHeartbeatMeans | server/api/worker/result.go:211-228 | a heartbeat names no stage or one of six, and nothing negative |
| Fencing.AttemptsGrow | server/api/worker/lease.go:84-96 | over any run a row's attempt never falls, and rises between two points exactly if a lease or rejudge of it lies between them |
| Fencing.TicketWasHandedOut | server/api/worker/lease.go:104-119 | every attempt a worker holds came from one lease transaction and one finished build after it |
| Fencing.HandOutsAreDistinct | server/api/worker/lease.go:68-120 | no run hands out the same attempt of a submission twice |
| Fencing.PostIsFenced | server/api/worker/result.go:37-60 | a heartbeat or result is ignored if and only if the submission was leased again or rejudged since the lease it speaks for; one that is not applied changes nothing |
| Fencing.AppliedPostIsLatest | server/api/worker/result.go:99-131 | an applied post speaks for the highest attempt ever handed out or being built, its row is not queued, and no other row changes |
| Fencing.ResetIsFenced | server/api/worker/lease.go:107-115 | the reset after a failed build takes effect if and only if nothing superseded the failed lease |
| Fencing.PostAfterResult | server/api/worker/auth.go:95-104 | the outcome of a further post after an applied result: ignored once superseded, else refused to remote judgers and applied for local ones |
| Fencing.WhatUsersSee | server/api/public/submissions.go:426-435 | in every reachable state shown progress belongs to the row's current, handed-out attempt, queued rows show none, live rows have no cases, case numbers are 1..n |
| Fencing.ShownIsCached | server/api/public/submissions.go:426-435 | exactly a live row's record for its present attempt is shown |
| RowHistory.JudgingWasRenewed | server/api/worker/lease.go:68-120 | every row being judged in a reachable state is so since a lease or an applied heartbeat that nothing has renewed or ended since |
| RowHistory.ExpiredLeaseIsTakenOver | server/api/worker/lease.go:71-100 | until 60 s after that step nobody can be leased the row; from then on whoever asks is leased it, unless another transaction holds it, or a row submitted no later |
| RowHistory.QueuedRowIsTaken | server/api/worker/lease.go:71-100 | so is a queued row, at once |
| RowHistory.PostedVerdictStays | server/api/worker/result.go:110-148 | from an applied result until the next one or a rejudge the row carries the posted status, score, message, time and memory, and the posted cases if any were sent; nobody holds it or is leased it |
| RowHistory.FinishedRowsCarryAResult | server/api/worker/result.go:110-148 | every row of a reachable state is unfinished, with score 0, no message, no measurements and no cases, or carries the last applied result since its last rejudge |
| RowHistory.HolderMayPost | server/api/worker/auth.go:95-104 | while a lease is neither ended nor superseded, posts for it are applied for its judger and for local callers and refused to other judgers |
| RowHistory.RowsStartAnew | server/api/public/submissions.go:396-424 | a submit writes an empty queued row, and any row can be rejudged, alone or with its problem: it is as it was submitted, under the next attempt |
| RowHistory.ProgressWasReported | server/api/worker/result.go:65-79 | every progress record saved or yet to be saved was reported by a finished build or an applied heartbeat, in one of six stages |
| RowHistory.ReportsAreSaved | server/api/worker/result.go:65-79 | and every such report is to be saved |
| RowHistory.LandedSavesAreShown | server/api/public/submissions.go:426-435 | a save that lands replaces the record and is shown if it is of a live row's present attempt; a dropped one is not |
| SubmissionStore.ValidateResult | server/api/worker/result.go:163-205 | the loop with its set of seen numbers accepts exactly the valid requests; "too large" is answered only for sizes |
| SubmissionStore.Store.LeaseTx | server/api/worker/lease.go:71-100 | nothing is leased only if every unlocked row is finished or being judged before its deadline; otherwise an oldest row that is queued, or whose deadline is missing or passed, is leased, and its whole new row is stated: the judger's, under the next attempt, for 60 s |
| SubmissionStore.Store.TryLease | server/api/worker/lease.go:68-120 | lease transaction, build and guarded reset together: such a row is leased, or requeued under a fresh attempt if its build fails; nothing happens only if there is none |
| SubmissionStore.Store.Heartbeat | server/api/worker/result.go:37-60 | the handler's transaction refines the protocol's heartbeat step; applied, it sets the deadline to 60 s from now and changes nothing else |
| SubmissionStore.Store.Result | server/api/worker/result.go:99-151 | update, delete and batch insert of cases together refine the protocol's result step; applied, the row of that attempt stores the posted verdict, report and cases and loses its judger and deadline |
| SubmissionStore.Store.RejudgeProblem | server/api/public/submissions.go:396-424 | exactly the problem's rows are requeued, emptied of report and cases, and superseded |
| TimedLease.ProgressReporter.Flush | judger/worker_progress.go:55-69 | when the loop posts: never for an empty stage, else on a stage change, every second on other changes, every 10 s regardless |
| TimedLease.ProgressReporter.FlushNow | judger/worker_progress.go:71-82 | posts whatever the time, unless the stage is empty |
| TimedLease.LeaseOutlivesTask | judger/worker.go:43-138 | if 2d + 11 s <= 60 s, at no moment of any schedule up to the task's end is the lease expired, so no other judger can be leased the row; the task may be refused, fail to download, end without a result or run through |
| TimedLease.LeaseOutlivesLoopAlone | judger/worker_progress.go:33-69 | in tasks without the extra heartbeat 2d + 1 s <= 60 s suffices |
| TimedLease.LoopBoundIsExact | judger/worker_progress.go:33-69 | while only the loop sends, no schedule expires the lease if and only if 2d + 1 s <= 60 s |
| TimedLease.StaleCommitExpiresLease | judger/worker.go:134-138 | beyond the bound a loop heartbeat committed after the main thread's later one expires the lease while the result is being posted |
| TimedLease.TaskBoundIsExact | judger/worker_progress.go:16-82 | no schedule expires the lease before the task ends if and only if 2d + 11 s <= 60 s |
| TimedLease.TasksEnd | judger/worker.go:43-138 | with any delay a task can end in each of the four ways: refused, failed to download, without a result, or posted after the extra heartbeat |
| Wakeups.Broker.Publish | server/events/broker.go:38-48 | every subscriber with fewer than 16 events waiting gets the event, the others lose just this one, none blocks |
| Wakeups.MoveKeepsAwake | server/api/worker/lease.go:68-120 | from any state in which no poll sleeps (parked, its channel empty) over a submission neither yet to be announced nor locked, a move leads to one that has such a poll if and only if some poll is asleep and the move is a failed build's reset, or some transaction's letting go, of a queued row with no event to come |
| Wakeups.NoLostWakeup | server/api/worker/lease.go:32-58 | over every run, whatever full 16-slot buffers dropped: no poll ever sleeps over such a submission if and only if, while a poll was asleep, no failed build put a row back and no transaction let go of a queued row it had locked, with no event to come for it |
| Wakeups.ResetIsSilent | server/api/worker/lease.go:107-115 | for every submission and any two polls there is a run, from its submit to the failed-build reset of its lease, that leaves it queued with no event to come for the sleeping poll |
| Wakeups.StaleHeartbeatIsSilent | server/api/worker/result.go:37-60 | and one, through a rejudge, to the end of a superseded heartbeat that had the row locked when the woken poll queried |
| Wakeups.NothingIsLost | server/api/worker/lease.go:68-120 | over every run each unfinished submission is queued, in building or being judged, in one of these only; it comes with a submit or rejudge, goes with a result, and no other move brings or loses one |
| Wakeups.ServedPollsLeave | server/api/worker/lease.go:32-58 | a poll that was given a task or left is unsubscribed, the others stay subscribed |
| Wakeups.WokenPollsFind | server/api/worker/lease.go:43-58 | a poll that sleeps over a free submission can lease it once a timer of its own or any event has woken it |
| PackageGC.HarmlessIsExact | server/problem_gc.go:52-95 | from any world that keeps the invariant, a step can be followed by harmless steps to a lost archive if and only if it brings into a row an archive that is gone or that the running collection may still take |
| PackageGC.CollectorIsSafe | server/problem_gc.go:52-95 | in every interleaving of the collector's phases with creations, deletions, uploads, edits, saves, leases, payload reads, hand-outs and results, if uploads commit within the grace period, no Put re-creates a doomed name and no whole-row save brings back an archive that is gone or that the running collection may still take: the archive of every live row and of every task still current stays in the store |
| PackageGC.CarefulHandlersAreSafe | server/problem_gc.go:52-95 | the same for histories in which, instead, every whole-row save that ends finds a live row with the package it read |
| PackageGC.GarbageIsCollected | server/problem_gc.go:52-95 | from any world one undisturbed collection deletes any archive older than 24 h that no live row names, unless its problem's row is unreadable or a submission of it is being judged, and nothing else changes |
| PackageGC.DeletedIsGarbage | server/api/public/problems.go:248-268 | after a problem's deletion no live row names its archive, and the other problems' rows are as they were |
| PackageGC.AbandonedIsForgotten | server/api/public/problem_package_assets.go:130-147 | an upload given up can no longer be committed |
| PackageGC.GraceIsExact | server/problem_gc.go:18-21 | histories whose uploads take at most D are safe if and only if D is at most the grace period |
| PackageGC.LateCommitLosesArchive | server/api/public/problem_package_assets.go:130-147 | for every longer D, a history whose upload loses its archive before the commit |
| PackageGC.RecreatedNameIsLost | server/api/public/problem_package_assets.go:130-147 | from any world that keeps the invariant, a Put of a doomed name from the row's current version can be committed at once and then loses its archive |
| PackageGC.ADoomedName | server/problem_gc.go:75-93 | such a world can come about |
| PackageGC.StaleSaveLosesArchive | server/api/public/problems.go:221-246 | a whole-row save that takes no time by the clock, begun before the package is emptied and ended after a collection, names a collected archive; all else punctual |
| ProblemGc.KeysRoundTrip | server/problem/package.go:84-86 | every object name an upload writes is recognized as its problem's; different archives have different names |
| ProblemGc.RecognizedShape | server/problem_gc.go:97-106 | exactly the names problems/<number>/packages/<hash>.zip are recognized, the number positive and below 2^64, the hash 64 hexadecimal digits |
| ProblemGc.ObjectStore.Collect | server/problem_gc.go:52-95 | one undisturbed run deletes exactly the old, unkept, unprotected archives that can be deleted, and counts them |
| CaseNames.ScanDigitRun | contract/cases/cases.go:35-52 | the loop with its start marker finds the maximal digit run at the first digit |
| CaseNames.StemsHaveShape | contract/cases/cases.go:9-33 | a parsed stem is a number or a text without digits |
| CaseNames.OrderIsExact | contract/cases/cases.go:54-61 | on any set of stems of the parser's shape the comparator is a strict total order if and only if no overflowing number lies, as a text, the wrong way round between two fitting ones |
| CaseNames.ArbitraryTextsCycle | contract/cases/cases.go:54-61 | on arbitrary texts it is cyclic |
| CaseNames.OrderUpTo | contract/cases/cases.go:9-61 | on stems of file names whose numbers are at most N it is a strict total order, for every such set, if and only if N fits an int |
| CaseNames.SmallestTangle | contract/cases/cases.go:54-61 | 93, 921 and the first number beyond the ints go round in a circle |
| CaseNames.NumberedName | contract/cases/cases.go:9-33 | in any directory, with slashes of either kind, a number with .in is the input of that case, and with .out or .ans its answer |
| CaseNames.NamedCase | contract/cases/cases.go:9-33 | so is a text without digits, under its own name |
| CaseNames.SpacesDoNotCount | contract/cases/cases.go:9-33 | white space around a name does not count |
| CaseNames.AtoiMeans | contract/cases/cases.go:54-61 | numbers are read with and without sign exactly as far as they fit 64 bits |
| Manifest.InferCases | server/problem/package.go:234-261 | maps filled in loops, stems taken in any order, sorted: exactly the suggested cases, each once, in order |
| Manifest.InferenceIsDetermined | server/problem/package.go:234-261 | unless three stems go round in a circle there is one possible result, with distinct ids, whatever the map order and the sort |
| Manifest.FittingNumbersAreOrderly | server/problem/package.go:234-261 | numbers that fit an int never do |
| Manifest.ValidateCaseFiles | server/problem/package.go:176-193 | accepts exactly the file lists in which no two data files are the same kind for the same case |
| Manifest.PackageCases | server/api/public/problem_package_assets.go:259-279 | the in-place filter keeps, in order, the cases for which any files still have both kinds |
| Manifest.DeletionIsReinference | server/api/public/problem_package_assets.go:259-279 | filtering after any deletion equals inferring anew, scores and order included, if and only if nothing stands in |
| Manifest.DataOnlyNeverStandsIn | server/api/public/problem_package_assets.go:259-279 | if all recognized files lie under data/, nothing stands in |
| PackageRuns.AgreementOverRuns | server/api/public/problem_package_assets.go:156-257 | over a package's whole life of uploads, deletions and score edits the list is the inferred one if and only if no deletion left a stand-in |
| PackageRuns.ScoresStayNonNegative | server/api/public/problem_package_assets.go:203-257 | along any run of edits no case's points are negative |
| Paths.UploadsPassJudgers | judger/worker.go:223-241 | a path under data/ or judge/ is one that `CleanKey` leaves as it is, as uploads demand (server/storage/object.go:150-163), if and only if it is local, `Clean` leaves it as it is, it has no backslash, as judgers demand, and it does not end in white space |
| Paths.LocalMeans | judger/worker.go:223-241 | a path is local if and only if it is relative and, with ".", ".." and empty segments worked off, does not lead out |
| PackageRuns.RunnableMeans | judger/worker.go:166-242 | the judger's checks in figures: 1 to 10,000 cases, distinct ids of 1 to 128 bytes, points not negative, paths of at most 1024 bytes, the cases' files among them |
| PackageRuns.WhichEditsAreTaken | server/api/public/problem_package_assets.go:156-257 | a deletion can always be made, a score be set exactly for a listed case and if it is not negative, an upload taken exactly if its files are unambiguous, clean and at most 10,000 |
| PackageRuns.AgreeingPackagesRun | judger/worker.go:166-242 | while list and files agree, judgers accept the package's tasks if and only if there are cases and case count, id lengths and path lengths are within their limits |
| PackageRuns.EditLeavesRunnable | judger/worker.go:166-242 | after any upload, deletion or score edit of such a package, judgers accept its tasks if and only if a deletion left no stand-in and the same limits hold |
| PackageRuns.RunsStayRunnable | judger/worker.go:166-242 | along any life of a package without stand-ins, judgers accept its tasks if and only if there are cases and no id and no path is too long; there are never too many cases |
| StandIns.DeletedInputStaysListed | server/api/public/problem_package_assets.go:259-279 | in any package, deleting the input of a case with a stand-in keeps the case listed without its file, where inferring anew would drop it, and judgers refuse the package |
| StandIns.AStandIn | server/api/public/problem_package_assets.go:156-201 | upload data/1.in, data/1.out and judge/1.in, and judgers accept the tasks; delete data/1.in, and they refuse them |
| PackageEdits.EditsSerialize | server/api/public/problem_package_assets.go:281-300 | however editors and whole-row saves interleave: at every moment the row is what the committed edits made of it, none lost, none applied to a version its client had not seen, if and only if every save found the package it read |
| PackageEdits.StaleSaveLosesEdit | server/api/public/problems.go:127-199 | a save begun before an edit and ended after its commit undoes it, whatever the edit |
| PackageEdits.ActsOnce | server/api/public/problem_package_assets.go:281-300 | an editor swaps or gives up at most once for each start, a save ends at most once for each beginning |
| PackageEdits.AgreementUnderConcurrency | server/api/public/problem_package_assets.go:281-300 | without stale saves, agreement of list and files carries over to concurrent editing |
| Ranking.RankEntries | server/api/public/contest_rank.go:112-126 | in-place sort and numbering: a permutation, sorted, ranks 1..n |
| Ranking.BoardIsUnique | server/api/public/contest_rank.go:112-126 | two boards over the same entries are equal if the comparator separates them, whatever the map order |
| Text.BeforeMeans | server/api/public/contest_rank.go:121 | the order of names: at the first difference the smaller character first, a text before its continuations |
| IcpcBoard.IcpcRank | server/api/public/contest_rank.go:129-233 | the fold over nested maps, sorted and numbered, is a board of the declarative entries: one line for each user with a row on a contest problem; more problems solved first, then less penalty, then fewer submissions, then the name |
| IcpcBoard.EntryMeans | server/api/public/contest_rank.go:188-216 | a line: its accepted cells are counted, their penalties summed, and the submissions are the user's finished pre-freeze rows on contest problems |
| IcpcBoard.SolvingNeverDrops | server/api/public/contest_rank.go:129-233 | whoever solves a further problem stays above everybody who was below and sends nothing, whatever else is sent |
| IcpcBoard.TallyMeans | server/api/public/contest_rank.go:162-185 | over finished pre-freeze rows: solved iff some AC; penalty = clamped minutes to the first AC + 20 per penalizable row before it; the rest counts as pending |
| IcpcBoard.CellMeans | server/api/public/contest_rank.go:193-216 | a cell's status, tries, score and penalty in terms of the counted and the waiting rows |
| IcpcBoard.SolvedIsFinal | server/api/public/contest_rank.go:162-185 | rows after the first AC never change the problem's penalty |
| IcpcBoard.BoardIsDetermined | server/api/public/contest_rank.go:188-233 | with distinct names there is one board, strictly ordered |
| IcpcBoard.FreezeHides | server/api/public/contest_rank.go:162-216 | any two histories that agree before the freeze, in time and sender also after it, give the same whole board |
| IcpcBoard.FrozenTotalsAreEarly | server/api/public/contest_rank.go:162-216 | AC, penalty and submission counts equal those of the board of the pre-freeze rows alone |
| OiBoard.OiRank | server/api/public/contest_rank.go:55-127 | the fold is a board of the declarative entries: one line for each user with a row on a contest problem; the higher score first, then the name |
| OiBoard.EntryMeans | server/api/public/contest_rank.go:88-112 | a line: its accepted cells are counted, the best scores summed, and the submissions are all the user's rows on contest problems |
| OiBoard.TallyMeans | server/api/public/contest_rank.go:70-112 | per problem: the best finished score, accepted iff some row is |
| OiBoard.TallyCounts | server/api/public/contest_rank.go:70-94 | attempts, pending and finished counts are the numbers of the user's rows, of the live ones and of the others |
| OiBoard.BoardIsDetermined | server/api/public/contest_rank.go:55-127 | any permutation of the rows and any map order give the same board, strictly ordered, if names are distinct |
| Visibility.SubmissionViews | server/api/public/policy.go:151-208 | the two loops give each row its own view by the rule; on a running ICPC contest with a freeze others see a verdict if and only if the row was sent before it, on a running OI contest nobody does but administrators |
| Visibility.ViewMeans | server/api/public/policy.go:188-206 | the rule in the fields of row, contest and request, for verdict and code |
| Visibility.SecretsStaySecret | server/api/public/policy.go:188-206 | non-interference: views, shown rows and labels do not depend on the verdicts and scores a viewer may not see |
| Visibility.RulesAgree | server/api/public/policy.go:211-251 | per row, SQL text and views agree if and only if no contest of another kind freezes it; the progress rule always agrees with the views |
| Visibility.RulesAreOne | server/api/public/contests.go:472-474 | on contests of the two kinds that can be created, the three rules agree on every row for every viewer |
| Visibility.CodeStaysClosed | server/api/public/policy.go:188-206 | while a contest with the problem runs, only owner and administrators see code |
| Visibility.FillProblemUserState | server/api/public/problem_state.go:260-322 | the row loop computes the label as a join (accepted, pending, tried, none) over the rows, in any order |
| Visibility.FiltersMatchLabels | server/api/public/problem_query.go:47-106 | each status filter lists exactly the problems with that label, so the four partition the problems |
| Visibility.AssignmentProgress | server/api/public/assignment_progress.go:91-163 | for every user and problem the fold gives the same join, in any row order |
| Visibility.FillProblemUserStateInContest | server/api/public/problem_state.go:324-397 | the loop over the newest-first rows: accepted if a shown finished row is; else on OI contests tried if one is shown and finished, pending if there are rows; elsewhere the newest row decides |
| Visibility.NewestDecides | server/api/public/problem_state.go:355-389 | elsewhere than on OI contests, without a shown accepted row, the newest row decides: tried if it is shown and finished, else pending |
| Visibility.OiLabelIsBoardLabel | server/api/public/problem_state.go:374-381 | on OI contests whose results the viewer may see, that label is the scoreboard's |
| Visibility.BoardLabelByRows | server/api/public/contest_rank.go:99-112 | the scoreboard label depends only on which of the user's rows there are, not on order or on other users |
| Visibility.LabelIsCell | server/api/public/contest_rank.go:96-112 | the label a user sees in an OI contest with visible results is the status in the user's cell of the board over everybody's rows |
| RunnerGate.KeysIdentifyCases | judger/runner/serve.go:253-255 | with filtered task ids, a release key names one case of one task |
| RunnerGate.RawKeysCollide | judger/runner/serve.go:253-255 | with unfiltered ones it need not |
| RunnerGate.SafeIdMeans | judger/runner/exec_helpers.go:211-229 | a filtered id is not empty, has only letters, digits, dashes and underscores, and is the id itself if that is so |
| RunnerGate.AnswerMeans | judger/runner/serve.go:101-219 | for every message: when it ends the connection, what it opens, closes or keeps, and that it is answered with an error exactly if it does not fit |
| RunnerGate.GreetedAndCompiled | judger/runner/serve.go:101-151 | a case is run only after a greeting and after a successful compilation of its task on this connection |
| RunnerGate.ClosedOnceByItsOwnRelease | judger/runner/serve.go:146-212 | for any messages and goroutine returns: no release channel is closed twice, and a closed one was opened by a run request and closed later by a release of that same case, with no newer channel for it in between |
| RunnerGate.RunnerConn.Receive | judger/runner/serve.go:101-219 | one turn of the loop on the mutable maps refines the value-level step and never closes a closed channel |
| RunnerGate.RunnerConn.Return | judger/runner/serve.go:151-155 | the deferred removal refines the value-level step |
| ReleaseGate.StepKeepsInv | judger/container_runner.go:159-218 | every step of either machine keeps the two message streams, the maps and the processes consistent |
| ReleaseGate.GatesOpenOnlyForConfined | judger/container_runner.go:178-197 | in every run, with timeouts, failures and late messages: a gate is open only if at an earlier step the judger, having no group for the case yet, read that case's own pid and put it into one |
| ReleaseGate.NoProgramStartsUnconfined | judger/runner/exec_builtin.go:105-145 | no user program starts before its process is in its case's control group |
| ReleaseGate.GivingUpIsFinal | judger/container_runner.go:159-218 | a judger that has given up sends nothing more; it gives up when it cannot make a group, and without a group root lets programs go without one |
| ReleaseGate.EveryCaseCanRun | judger/container_runner.go:159-218 | the gate lets programs through: for every task there is a run in which each case in order is confined, let go, started and read back |
| OutputCompare.NormalizedLines | judger/runner/check.go:92-103 | the loops that trim and shrink the slice compute the right-trimmed lines without trailing empty ones, joined |
| OutputCompare.LinesOfWritten | judger/runner/check.go:92-103 | lines written with LF, CR or CRLF are read back, up to trailing blanks and empty lines |
| OutputCompare.NormalizedIsIdempotent | judger/runner/check.go:92-103 | normalizing twice is normalizing once |
| OutputCompare.EqualIffSameLines | judger/runner/check.go:88-90 | outputs compare equal if and only if their line lists are equal, the empty case included |
| OutputCompare.VerdictsByLines | judger/runner/check.go:68-86 | default: AC iff same lines; strict: AC iff identical, PE iff only the lines agree, WA iff default says WA |
| OutputCompare.TailsDoNotCount | judger/runner/check.go:92-103 | an answer is accepted with blanks and tabs at the ends of its lines and with any line ending |
| OutputCompare.LinesAreExact | judger/runner/check.go:92-103 | of texts without such tails and without empty lines at the end, exactly the same lines are accepted |
| OutputCompare.DefaultIsCongruence | judger/runner/check.go:68-90 | default mode is an equivalence: accepted variants of answer and output change no verdict |
| Scoring.TestlibMeans | judger/runner/exec_helpers.go:85-119 | when a checker accepts, awards partial points or fails, by code and parsed points; every score lies in [0, points], AC means full points, non-AC with positive points less |
| Scoring.ApplyStats | judger/container_cgroup.go:65-83 | the statistics' overrides, all fields; they keep every result within its points |
| Scoring.RunBuiltin | judger/runner/exec_builtin.go:105-181 | accepted iff nothing disturbed the run, the statistics are clean and the comparer accepts; otherwise the verdict of the first trouble, in order; full or no points |
| Scoring.CollectWaitResults | judger/runner/exec_helpers.go:16-30 | the last of at most two late ends of each process counts, else what was known |
| Scoring.RunCustom | judger/runner/exec_custom.go:172-233 | accepted iff both processes end in time, no overflow, the program ends well or by a broken pipe, the checker accepts and the statistics are clean; in time an overflow outranks a broken program and both outrank the checker; out of time the checker's refusal stands if it came first |
| TaskResults.ReceiveResult | judger/container_runner.go:198-209 | the judger's end of a case: overrides and a time for killed programs |
| TaskResults.RunTask | judger/container_runner.go:74-113 | first failing verdict, sum of scores, peaks of time and memory; a missing case result ends the task without one |
| TaskResults.AcceptedMeansFullScore | judger/container_runner.go:74-113 | accepted iff every case is; with positive points iff the score is their sum; else the first failing case's verdict |
| TaskResults.JudgeTask | judger/container_runner.go:80-113 | from the circumstances of each case to the task: accepted iff every case passes, and with positive points iff the score is full |
| TaskResults.FullScoreMeans | judger/container_runner.go:74-113 | a score is full if and only if every case that is not accepted is worth 0 |
| TaskResults.FullScoreMeansAccepted | judger/container_runner.go:74-113 | for the cases of a task, a full score always means accepted if and only if every case has positive points |
| TaskResults.UnscoredPackage | server/problem/package.go:54-59 | where no case has a score of its own, accepted iff the score is 10 per case |
| TaskResults.ToRequest | judger/worker_http.go:38-64 | the posting loop numbers cases from 1 and sends positive measurements only |
| TaskResults.PostedIsTaken | server/api/worker/result.go:163-205 | the server takes a posted task result iff it is within the size limits, and stores cases 1..n in the order they ran |
| CacheTrim.Trim | judger/worker_cache.go:147-205 | kept, locked and undeletable entries stay; the running total is the size of what is left; that fits or consists of such entries; entries go in the order of their last use, and none while one used earlier that could go stays; no more goes than needed |
| CacheTrim.TrimIsDetermined | judger/worker_cache.go:147-205 | with distinct times the evictions and their order are fixed by what was found |

## Left out

- HTTP, gorm, Redis, Docker, control group files, zip and checksums: tables are maps of rows, the object store a map
  from names to times, the cache one record a submission, hashes stand for contents.
- Statements inside one database transaction are not interleaved; rows another transaction locks are a parameter.
- Liveness: an oldest row whose payload can never be built is picked again each time.
- Authentication, rate limits, the limit on outstanding submissions, the contest and assignment windows of a submit.
- PackageGC.CollectorIsSafe: one collector process; a deleted problem comes back only by a whole-row save, not by an
  administrator or a backup; archives are parsed names, whose texts ProblemGc treats (a name with leading zeros in its
  number parses too).
- PackageEdits.EditsSerialize: deletion of the problem row while editors or savers are under way.
- TimedLease.LeaseOutlivesTask: all clocks agree and local steps take no time; a heartbeat that fails is not modelled.
- ReleaseGate.NoProgramStartsUnconfined: starts after greeting and compilation; a pid stands for a process, its mapping
  from inside the container is not part of this model, nor is the removal of a group when a case ends.
- Scoring.RunBuiltin: errors before the process starts (missing paths, pipes) are a missing case result; the runner's
  processes are a record of how they ended.
- Scoring.TestlibMeans: the number at the start of a message is an optional integer; float parsing and rounding are not
  part of this model. Message texts are kept only where a later step reads them.
- TaskResults.PostedIsTaken: sizes of messages in bytes are a parameter.
- IcpcBoard.TallyMeans: minutes are an integer division, where the source converts a float.
- Manifest.InferCases: names are ASCII; trimming and lower-casing beyond ASCII are not part of this model.
- Paths.UploadsPassJudgers: the libraries' path functions as on Unix; white space is ASCII.
- `DataCaseFileLess` on names without a recognized kind, where it is not transitive.
- CacheTrim.TrimIsDetermined: entries with equal times can be evicted in either order.
- The `score` of assignment progress while rows are pending, which depends on row order.
- The ICPC label of `fillProblemUserStateInContest` is not the ICPC board's (other pending rules), so no lemma
  relates them.
- Administration, settings, notifications, backups and the web client.
