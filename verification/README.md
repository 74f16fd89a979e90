# Verified models of the speculation runtime

The runtime starts tool calls before they are asked for and reuses work only where it can be shown to be still valid.
The modules here model the parts of it whose correctness rests on an order of small steps or on two algorithms agreeing,
and prove what those parts promise. `dafny verify dfyconfig.toml` checks everything.

| files | part of the system | form |
|---|---|---|
| VersionClock, VersionClockSteps, VersionClockSafety, VersionClockNames, VersionClockAnswers, VersionClockAlone | the object version clock of the execution domain | state machine: every atomic operation is one step, all tasks and clients interleave |
| QueueReplay, QueueReplayPipes, QueueReplayProofs, QueueReplayRoom, QueueReplayCramped, QueueReplayDrain, QueueReplayEnds, QueueReplayAccepts, QueueReplayPolls, QueueReplayJob | the ordered queue interpreter of a held decision: dry run and replay | interpreter on private queues and kernel queues, and the loop as a method of a class |
| Tracer, TracerSafety, TracerDecisions, TracerBreach, TracerStaleFlag, TracerRelease, TracerDue, TracerTurns | the stop-the-world barrier of the process tracer in descriptor mode | state machine of kernel and tracer |
| EffectTransaction, EffectTransactionProofs, EffectTransactionWindow | the sealed effect transaction, with the lifecycle lane it uses | state machine: every await is a step boundary |
| DescriptorTable | letting an image in and replacing a held process's descriptor table | methods on a process object |
| ProcessImage | writing, loading and restoring a memory image | methods on byte arrays and a process object |
| OwnershipClosure | which captured descriptors others can still reach | methods on arrays |
| PathWalk | the worklist path walk | method against a recursive resolution |
| DigestCache | cached digests and the timestamp rule | state machine of files, captures and cache |
| DependencyOrder | the dependency-first traversal | method against a recursive visit |
| ActionKeys, Ranking, CandidateStore, CandidateRuns | action matching, and the multi-index store | functions, and a class whose methods change the store |
| ContentChunks | chunked content, range reads, incremental writes | classes and methods on buffers and files |
| StreamPreview, StreamPreviewTold | the incremental scanner of streamed calls | a class against a specification function |
| Basics | what the modules share | |

## How the models relate to the code

* Clock. Tasks run the BPF programs one atomic operation at a time; a map lookup is one atomic read of a record. The eight
  slots, the 32 compare-and-swap attempts and every mark of a loss are as in the code. An object in a request has two
  records, its own and its mount's; each is one probe. The kernel may write an object from the moment its hook returned
  until its call ends.
* Queues. Events are already decoded. The kernel's sockets hold buffers whose rights travel with the first byte, so a
  message-wise read stops where the kernel stops. What a send takes from a socket's budget is free up to 8192 bytes, the
  charge the code assumes. The kernel's pipes hold slots of at most a page: a write may go on in a page an earlier write
  began, a page that came by tee or in part by splice is not written to, and a slot is free once all of it is read. The
  interpreter sees bytes only, so results hold for bytes arranged in slots in any way.
* Tracer. Kernel and tracer act in any order. A thread that execs takes its leader's number and disappears under its own.
* Effect transaction. The lane runs its entries in order, is sealed by the first dispose and runs the final callback once
  after everything admitted has settled. The observer in `Seen` remembers what the backend was asked to do; `Allowed` is
  the contract it checks.
* Images and tables. The kernel is a map from numbers to descriptions, where any call may be refused, or from addresses to
  bytes.
* Digest cache. A write is stamped first and its bytes follow in pieces; captures may read between them.
* Digests and keys are injective: a digest stands for its bytes, a key for what it encodes.

## Where the code does not do what its comments or its design suggest

* A cached digest can be stale for a device on which the lag of a stamp and the time the bytes of a write keep coming
  after it are together within the threshold, but not a millisecond below it: times are compared in whole milliseconds
  (`DigestCache.FreshExactlyWithinTolerance`).
* `vforking` is not cleared by the report of an exec on a record that is kept, so the barrier can be taken while that
  process runs (`TracerDecisions.FlagIsAccurateExactly`, `TracerBreach.ContinuationBreaksExactly`,
  `TracerStaleFlag.StaleFlagDefeatsTheBarrier`).
* A process whose decision is still pending is detached without it when the session drains and nobody has a job,
  although detaching is meant for when no decision remains (`TracerRelease.PendingLetGoExactly`,
  `TracerRelease.DueDecisionNeverComes`).
* The dry run polls before the drain and the replay after it, so an accepted list can be refused in the replay
  (`QueueReplayDrain.DrainedReplaysExactly`).
* Only splice and tee count a slot for every byte. A plain write that follows one can be accepted although all slots of
  the pipe are taken, and the replay then fails (`QueueReplayProofs.FailsExactlyWhenCramped`,
  `QueueReplayRoom.ReplaysExactly`, `QueueReplayCramped.CrampedWriteFails`).
* A poll for room on a pipe counts bytes too: after splice or tee it can report room where the kernel's pipe is full
  (`QueueReplayPolls.PollAfterTees`; without them it tells the truth, `QueueReplayPolls.PollsAreTrue`).
* "A reserved commit owns its proof window" (src/effect-transaction.ts:192) holds except when a validate call that waited
  for an earlier commit, which failed recoverably, has not resumed by the time the next commit picks its proof: it may
  then join, and reset the state the next commit checks (`EffectTransactionWindow.CommitOwnsItsWindowExactly`,
  `EffectTransactionWindow.OneIsLeftBehind`).
* `getOrCreate` indexes a new entry under the projections of the key it was asked for, not of the entry's own key
  (`CandidateStore.Store.GetOrCreate`, `CandidateStore.MisfiledEntryIsMissed`, `CandidateRuns.LookupAfter`).
* A names-only query can miss a change in flight (`VersionClockNames.WrongExactly`, `VersionClockNames.SafeSampleExactly`).

## Model

| member | source | states |
|---|---|---|
| VersionClockAnswers.EveryAnswerIsSound | src/linux-execution-domain.c:1000-1027 | In every run of tasks and clients from the start, losses included, of fewer than 2^64 events: an answer CHANGES gave says something of every probe it was asked, in order; the mount record, read last, had not been written since the sample; and no record whose content it reports clean had been either, nor since the first sample if every earlier answer of the chain reported it clean |
| VersionClockAnswers.RefusedExactly | src/linux-execution-domain.c:1021-1023 | With nothing lost a request is refused for the mounts if and only if a change of them was published above the sample, one is under way, or the mount record carries any mark |
| VersionClockAnswers.MountReadIsClean | src/linux-execution-domain.c:1021-1023 | A request that got past the mount record has read it unchanged since the sample |
| VersionClockAnswers.ContentDirtyExactly | src/linux-execution-domain.c:1016-1018 | With nothing lost a content query finds a record dirty if and only if a value above the sample was published for it, some task holds it, it carries a mark other than the three that content ignores, or, if names are asked too, its binding is newer |
| VersionClockAnswers.ActiveExactly | src/linux-execution-domain.c:381-389 | A record counts as held if and only if some task holds it |
| VersionClockAnswers.LostRefuses | src/linux-execution-domain.c:1002-1025 | Once anything is marked lost no request is begun and none is answered for the rest of the run |
| VersionClockSafety.CleanAnswerIsSound | src/linux-execution-domain.c:1007-1020 | In every run of tasks and clients from the start, with nothing marked lost and fewer than 2^64 events: a record whose content CHANGES reports clean was not written between the sampled version and the moment it was read; and if every earlier answer of the chain also reported it clean, not since the first sample, although each answer's version is the next sample |
| VersionClockSafety.ReturnedHookStaysVisible | src/linux-execution-domain.c:1012-1018 | The other direction: once a hook on a record has returned, every later query about its content with an older sample finds it dirty for the rest of the run, and so does a query about its names if the hook was one that marks names |
| VersionClockSafety.HookPublishes | src/linux-execution-domain.c:387-391 | When the last compare-and-swap of a hook is done, the record's version, and for a name hook its binding, is at least the clock value the hook drew, whatever other tasks did to the record meanwhile |
| VersionClockSafety.CleanMeansUnwritten | src/linux-execution-domain.c:1016-1018 | Under the invariant a record with an old version and no active holder has no write in any window of later writes |
| VersionClockSafety.WriteVisible | src/linux-execution-domain.c:384-391 | A write that takes effect is visible to a client with any sample at all: the writer still holds a slot it must settle with a newer version |
| VersionClockSafety.ActKeepsVisible | src/linux-execution-domain.c:549-557 | A visible write stays visible under any step of any task: a hold is only given up after the version was raised |
| VersionClockSafety.CountersConserved | src/linux-execution-domain.c:363-392 | In every run with nothing lost, whenever no task is inside a hook or a completion, clock.active is the sum of the records' active counts and of the filled slots plus pending mount changes, and clock.uncertain is the number of records with an uncertain mask |
| VersionClockSafety.ActKeepsSums | src/linux-execution-domain.c:534-561 | Also in the middle of a hook or a completion each counter is exactly what the program counters of all tasks account for, after any atomic step |
| VersionClockSafety.VersionsNeverDecrease | src/linux-execution-domain.c:344-353 | Over any run no object version, binding or clock value goes down and no loss mark is taken back, although the compare-and-swap loops race |
| VersionClockSafety.RunKeepsInv | src/linux-execution-domain.c:343-392 | The invariant behind these results holds after every run in which nothing is lost |
| VersionClockSafety.HappenKeeps | src/linux-execution-domain.c:534-561 | Any one event, of any task or client, keeps the invariant |
| VersionClockSafety.NamesAloneMissChangesInFlight | src/linux-execution-domain.c:1016-1017 | One such run, step by step: a query for names only is answered clean although a name changed after the sample, because the hook published its clock value before it |
| VersionClockSafety.HookedStateIsReached | src/linux-execution-domain.c:363-392 | The state that counterexample starts from is reached from the initial state: a call is entered and its name hook runs to its end |
| VersionClockNames.NamesDirtyExactly | src/linux-execution-domain.c:1016-1017 | In every run from the start with nothing lost: a query about names alone finds a record dirty if and only if some name hook on it that has published drew a clock value above the sample |
| VersionClockNames.WrongExactly | src/linux-execution-domain.c:1016-1017 | Such an answer against a sample is wrong, clean although a name changed since, if and only if a change since belongs to a hook that drew its value at or before the sample, and no name hook on the record that drew a later one has published |
| VersionClockNames.QuietRecordIsSafe | src/linux-execution-domain.c:1016-1017 | What a client can check: if the record had no active holder at the sample, every later answer about its names alone against that sample is right, in every continuation |
| VersionClockNames.LateSampleIsSafe | src/linux-execution-domain.c:1012-1018 | The same whenever every name hook on the record that can still have its change take effect drew its value after the sample |
| VersionClockNames.SafeSampleExactly | src/linux-execution-domain.c:1012-1018 | For a sample between programs: all continuations answer rightly about the names if and only if no call in progress has run a name hook on the record |
| VersionClockNames.StepBinding | src/linux-execution-domain.c:344-353 | Among all atomic steps only the end of a name hook moves a binding, and it moves it to its own value if that is newer |
| VersionClockSteps.StepMonotone | src/linux-execution-domain.c:344-353 | One atomic step moves the clock by at most one and lowers no version and no binding |
| VersionClockSteps.StepKeepsTask | src/linux-execution-domain.c:363-392 | Every atomic step keeps the local invariant of whichever task makes it: which slots are filled, which record its program works on, and what may be written |
| VersionClockSteps.StepKeepsPublished | src/linux-execution-domain.c:344-353 | After a finished advance the record's version is at least the value that was to be published; it ends early only when another task published a newer one |
| VersionClockSteps.StepAccounts | src/linux-execution-domain.c:369-391 | Each step changes the shared counters by exactly what it changes in the acting task's holdings and debts, a birth that clears the uncertain mask included |
| VersionClockSteps.StepAccountsObject | src/linux-execution-domain.c:549-557 | Each step changes a record's active count by exactly what it changes in the acting task's holds on that record |
| VersionClockSteps.StepKeepsGuard | src/linux-execution-domain.c:549-557 | A hold that guards a write is given up only when the record's version has passed the sample |
| VersionClockSteps.StepCount | src/linux-execution-domain.c:382-386 | Filling and emptying the eight slots changes the holds on a record exactly at the add and at the subtract on its active count |
| VersionClockSteps.ArmedGuards | src/linux-execution-domain.c:381-389 | A record whose hook returned is guarded against every sample as long as its call is not completing |
| VersionClockAlone.HookAlone | src/linux-execution-domain.c:363-392 | What the steps of a hook add up to when nothing interrupts it: the record has the next clock value as its version, and as its binding if names changed; one more holder unless the task held it; none of its old marks if the hook announces a new object; the marks of the hook except the two that only say what it is, and that of an unseen birth once the birth was seen; and both counters of the clock follow |
| VersionClockAlone.SlotAlone | src/linux-execution-domain.c:549-557 | And the end of a call for each slot: a newer version, one holder less, a free slot |
| VersionClockAlone.MountAlone | src/linux-execution-domain.c:539-547 | And for announced mounts: a newer version exactly if the call succeeded and resolved no path, one holder less in any case |
| VersionClockAlone.EveryHookCounts | src/linux-execution-domain.c:363-392 | In every run a hook that is called goes on until the kernel may write the record, or its loss is marked |
| VersionClockAlone.LostExactly | src/linux-execution-domain.c:344-392 | In every run what is marked lost is exactly what its steps gave up: a swap after 32 attempts, a hook without room for task, record or slot, a wrapped value, a mount change without a record |
| VersionClockAlone.DrawsAreCounted | src/linux-execution-domain.c:534-561 | In every run the clock is the number of values drawn from it, so no two are equal below 2^64 |
| VersionClockAlone.NothingLeftOver | src/linux-execution-domain.c:534-561 | In every run a task between calls is as at the start: nothing of one call disturbs the next |
| QueueReplayProofs.AcceptedListsReplay | src/linux-held-exec.c:2393-2700 | Any list the dry run accepts and in which no write is cramped (a plain write to a pipe that has taken bytes by splice or tee since its last write, and holds as many bytes as it has slots) is carried out by the replay on kernel queues equal to the snapshot, however the bytes of pipes lie in slots and whatever each send costs up to the assumed 8192 bytes; private queues end equal, and each kernel queue whose socket was not closed holds exactly the interpreted bytes with the rights at the same offsets |
| QueueReplayProofs.ReplayFollows | src/linux-held-exec.c:2444-2692 | The same from any state in which kernel and private queues are in step |
| QueueReplayProofs.StepInStep | src/linux-held-exec.c:2468-2691 | Any one accepted event that is not a cramped write is carried out by the kernel as recorded and keeps the queues in step |
| QueueReplayProofs.ReceiveInStep | src/linux-held-exec.c:2537-2570 | An accepted read, with or without rights, gets from the kernel exactly the recorded bytes and rights |
| QueueReplayProofs.RecvMsgAgrees | src/linux-held-exec.c:2541-2548 | A read the interpreter accepts never runs past the first message that carries rights: recvmsg returns the same bytes, the rights of that message, and the same rest as plain reads |
| QueueReplayProofs.FirstIsHead | src/linux-held-exec.c:2541-2542 | The linear search over all messages finds exactly the first queued message of the queue, and retiring it changes no other queue's messages |
| QueueReplayProofs.PipeSendInStep | src/linux-held-exec.c:2571-2609 | Writes, splices and tees between pipes that pass the checks, a cramped write excepted, find the slots they need in any arrangement, and leave both pipes as interpreted |
| QueueReplayProofs.PipeWrites | src/linux-held-exec.c:2584-2590 | What the writable test, the page that has to be read of a full pipe and the page all writes share are for: together they see to a slot for every plain write after plain writes |
| QueueReplayProofs.PipeCarries | src/linux-held-exec.c:2571-2583 | Counting a slot for every byte sees to the slots a splice or tee needs, whatever pages its bytes lie in |
| QueueReplayProofs.FailsExactlyWhenCramped | src/linux-held-exec.c:2577-2594 | Over all kernel pipes in step with the private ones, an accepted send on a pipe succeeds for every arrangement of slots if and only if it is not a cramped write |
| QueueReplayRoom.ReplaysExactly | src/linux-held-exec.c:2393-2700 | For every given kernel that holds the snapshot: an accepted list is carried out to its end if and only if no plain write in it meets a pipe whose slots are taken; of all reasons to refuse a recorded operation no other can occur |
| QueueReplayRoom.StepFailsExactly | src/linux-held-exec.c:2468-2691 | The same for one event, from any state with the same bytes and messages |
| QueueReplayCramped.CrampedWriteFails | src/linux-held-exec.c:2577-2594 | A list the dry run accepts and the replay cannot carry out: tee a byte into an empty pipe of one page, then write a byte |
| QueueReplayPipes.WriteFits | src/linux-held-exec.c:2584-2590 | A write the checks let through fits, and leaves room for the next one |
| QueueReplayPipes.ReadKeepsRoom | src/linux-held-exec.c:2549-2553 | A read keeps room for the next write, and a page read from a full pipe makes some |
| QueueReplayPipes.SparseWriteFits | src/linux-held-exec.c:2577-2578 | After splice or tee a write fits if there are fewer bytes than slots |
| QueueReplayProofs.SocketSendInStep | src/linux-held-exec.c:2584-2609 | A send that passes the checks fits the socket's budget and appends its bytes and rights at the captured peer as interpreted |
| QueueReplayProofs.CloseInStep | src/linux-held-exec.c:2610-2627 | A replayed close stays logical: it touches no kernel queue, and a closed socket only loses its private contents |
| QueueReplayProofs.ShutdownInStep | src/linux-held-exec.c:2682-2690 | A shutdown of either direction leaves both ends as interpreted |
| QueueReplayProofs.StartInStep | src/linux-held-exec.c:2406-2443 | The private queues of a snapshot, aliases and captured messages included, are in step with the kernel's |
| QueueReplayProofs.BytesConserved | src/linux-held-exec.c:2537-2609 | Over any accepted list, for every queue: bytes taken out followed by bytes left are the bytes at the start followed by the bytes put in; a socket whose last close was replayed drops its rest |
| QueueReplayProofs.StepConserves | src/linux-held-exec.c:2549-2604 | The same for one event, which moves bytes of no third queue |
| QueueReplayProofs.SealedForGood | src/linux-held-exec.c:2616-2623 | A socket whose last close was replayed stays empty and nothing is read from it again |
| QueueReplayProofs.PipesWithinCapacity | src/linux-held-exec.c:2591-2594 | No accepted list makes a pipe hold more than its capacity |
| QueueReplayDrain.DrainedReplaysExactly | src/linux-held-exec.c:2918-2941 | From capture to replay: on the kernel queues left by the drain, whatever their slots, the replay carries out every accepted list without a cramped write if and only if no captured pipe that still holds bytes goes from full to writable through the draining |
| QueueReplayDrain.DrainedReplays | src/linux-held-exec.c:2918-2941 | For one list: accepted before the drain and no pipe flips, then it is carried out after the drain, and the kernel ends as interpreted |
| QueueReplayDrain.DryRunPredictsReplay | src/linux-held-exec.c:2918-2941 | The two interpretations compared: every list the dry run accepts is accepted again by the interpretation of the replay if and only if no pipe flips so; the kernel is in DrainedReplaysExactly |
| QueueReplayDrain.FlipBreaks | src/linux-held-exec.c:2933-2941 | Whenever a pipe does, a list of one poll is accepted by the dry run and refused by the replay |
| QueueReplayDrain.FlipTells | src/linux-held-exec.c:2651-2654 | That list is a poll that saw the pipe full |
| QueueReplayDrain.LooseStep | src/linux-held-exec.c:2584-2656 | Nothing but a poll of a pipe that flips can tell the two passes apart |
| QueueReplayEnds.EndsExactly | src/linux-held-exec.c:2610-2690 | After every accepted list a queue is at its end of file, or has a side shut, if and only if it was captured so or the list holds a shutdown or a last close that says so, at its own or at the opposite side; and its reader meets an error if and only if the other end was closed with bytes left unread there |
| QueueReplayEnds.EmptyReadExactly | src/linux-held-exec.c:2537-2547 | A read of no bytes is then accepted if and only if the handle can read, the queue is at its end by these events, and nothing was left unread by the closer |
| QueueReplayEnds.WouldWaitExactly | src/linux-held-exec.c:2671-2682 | A read is recorded as one that would wait if and only if it does not wait and the queue is empty, not at its end and without an error |
| QueueReplayEnds.BrokenExactly | src/linux-held-exec.c:2671-2682 | A write is recorded as broken if and only if the handle can write and one of the two sides was shut |
| QueueReplayEnds.SocketPollExactly | src/linux-held-exec.c:2628-2661 | What a poll reports of a socket, other than room: bytes, its reading side shut, both sides shut, bytes left unread, exactly by these events |
| QueueReplayEnds.PipePollExactly | src/linux-held-exec.c:2628-2661 | And of a pipe: to the reader that the writers are gone, to the writer that the readers are |
| QueueReplayEnds.ListSets | src/linux-held-exec.c:2662-2670 | A handle waits or not as the list last set it through any handle of its description, or as captured |
| QueueReplayAccepts.SocketSendExactly | src/linux-held-exec.c:2584-2606 | After every accepted list a send on a socket is accepted if and only if both sides are open by the events so far, all of it was sent, a page and sixteen writes of the list are not exceeded, the budget bears a full charge for each, and rights come with bytes and name captured handles |
| QueueReplayAccepts.PipeWriteExactly | src/linux-held-exec.c:2584-2594 | And a plain write on a pipe: a reader is left, room was captured or a page has been read, all of it was written or it filled an empty pipe without waiting, and the page of all writes and the capacity bear it |
| QueueReplayAccepts.CarryExactly | src/linux-held-exec.c:2571-2594 | A splice or tee is accepted if and only if it takes some bytes from the front of another pipe by a handle that can read, every byte finds a slot of its own, and a write of as many bytes is accepted |
| QueueReplayAccepts.CloseExactly | src/linux-held-exec.c:2470-2612 | A last close is accepted if and only if it names an end, nobody outside keeps it open, and no message still on its way carries a right that does |
| QueueReplayAccepts.ShutdownExactly | src/linux-held-exec.c:2478-2684 | A shutdown is accepted of a socket only, and what is no queue can only be closed |
| QueueReplayAccepts.WriteWaitsExactly | src/linux-held-exec.c:2671-2682 | A write is recorded as one that would wait if and only if the pipe is full, or too full for a write that is never split |
| QueueReplayAccepts.FaultExactly | src/linux-held-exec.c:2671-2682 | A bad descriptor is recorded exactly for the direction the handle lacks, and no other error is accepted |
| QueueReplayAccepts.SocketRoomExactly | src/linux-held-exec.c:2646-2650 | A poll for room on a socket is answered if and only if every charge the kernel may have come to gives the same answer, and with that answer |
| QueueReplayAccepts.RoomReported | src/linux-held-exec.c:2643-2661 | An accepted poll reports room exactly as answered; a select counts failures as room |
| QueueReplayAccepts.ListCounts | src/linux-held-exec.c:2584-2590 | Over any accepted list the counters of a queue are the number and the bytes of the writes to it |
| QueueReplayPolls.PollsAreTrue | src/linux-held-exec.c:2651-2654 | In every replay, on every kernel that holds the snapshot, a poll for room on a pipe that nothing was spliced or teed into is answered as the kernel has it at that point |
| QueueReplayPolls.PollAfterTees | src/linux-held-exec.c:2651-2654 | After two tees of a byte each it need not be: the accepted poll saw room, and the kernel's pipe is full |
| QueueReplayJob.Job.ResourceEvents | src/linux-held-exec.c:2393-2700 | The loop itself: without apply it leaves the kernel alone and accepts exactly what the dry run accepts; with apply it interprets and applies event by event. When it refuses, `done` events came before and queues and kernel are exactly as these left them, and the next one is refused or not carried out |
| TracerSafety.OnlyFlaggedRunUnderLease | src/linux-held-exec.c:3158-3181 | In every run of kernel and tracer in descriptor mode: while a decision has a lease, no other process runs user code unless its record says it is blocked in a vfork |
| TracerSafety.StartKeepsInv | src/linux-held-exec.c:3162-3174 | Starting a decision when every listed process is stopped or flagged establishes that for all processes, also those born but not yet reported |
| TracerSafety.StepKeepsInv | src/linux-held-exec.c:3123-3298 | Every kernel event and every turn of the trace loop keeps the invariant |
| TracerSafety.RunKeepsInv | src/linux-held-exec.c:3123-3298 | So does every run |
| TracerDue.DueExactly | src/linux-held-exec.c:3276-3288 | In every run a decision on a process is due if and only if the report of an exec of it made it so, counted above one while the session did not retire, whatever record there was; and since then its decision did not start in vain, end or give back its lease, and the process was not reported dead or detached |
| TracerDue.ExecWaitsForItsDecision | src/linux-held-exec.c:3158-3180 | From the report of such an exec on nobody at all is continued, in any run, until one of these steps |
| TracerDue.DueIsTakenUp | src/linux-held-exec.c:3160-3174 | As long as the session does not drain, the barrier can be taken for a due decision, and the decision started once everybody is stopped or flagged |
| TracerDue.ExecIsDue | src/linux-held-exec.c:3276-3288 | After the report of an exec a decision is due exactly if the exec is watched or one was due before |
| TracerTurns.ContinuedExactly | src/linux-held-exec.c:3159-3180 | In every run, while the session does not drain, the barrier is of a process whose decision is due; so if none is, exactly the listed processes are continued that are stopped, have no job and do not await their parent's event |
| TracerTurns.AwaitsExactly | src/linux-held-exec.c:3226-3259 | In every run a process awaits its parent's event if and only if it was first heard of by its own stop and has not been named since; until then it is neither continued nor detached |
| TracerTurns.StopEndsExactly | src/linux-held-exec.c:3175-3179 | In every run a reported group stop is listened to when its process is continued, a vfork event leaves it blocked, and after any other stop it runs |
| TracerTurns.ArmedJobStays | src/linux-held-exec.c:3214-3221 | Once a job is armed no step of any run drops its process's record until the job ends, the process's death included |
| TracerTurns.RestoredOrDead | src/linux-held-exec.c:3135-3139 | A restored image leaves the process stopped and heard of, or dead, and nobody else touched |
| TracerTurns.SessionExactly | src/linux-held-exec.c:3235-3252 | In every run the program counts as launched once an exec was reported; the session drains once it is told to or a birth is reported before that, and retires then or when told to |
| TracerTurns.DrainingStartsNothing | src/linux-held-exec.c:3159-3187 | From draining on no barrier is taken, no job begins and nobody is continued, in any run |
| TracerSafety.ReportKeepsInv | src/linux-held-exec.c:3222-3298 | So does each wait report, in whatever order parents' and children's reports arrive |
| TracerDecisions.BarrierHolds | src/linux-held-exec.c:3158-3181 | In every run without such a step, while a decision has its lease every other process is stopped, blocked in a vfork, dead, or not started |
| TracerDecisions.FlagIsAccurateExactly | src/linux-held-exec.c:3241-3287 | In every run: the flag vforking is right in every state, that is, a flagged process is in its vfork or its end has not been reported, if and only if no exec is reported for a flagged process whose record is kept (the root's skipped exec, a retiring session, or no earlier image decided), and no flagged process is let go before its exec is reported |
| TracerDecisions.StepMisleadsExactly | src/linux-held-exec.c:3241-3298 | From any state in which the flags are right, exactly those two kinds of step make one wrong |
| TracerDecisions.ExecKeepsFlag | src/linux-held-exec.c:3267-3287 | After the report of an exec the flag is set if and only if it was before and the record is kept: only a record of its own, which an exec after an observed image gets, clears it |
| TracerDecisions.KeptFlagMisleads | src/linux-held-exec.c:3267-3287 | A report that keeps the flag leaves it wrong at once |
| TracerDecisions.HeldProcessesStayStopped | src/linux-held-exec.c:3169-3180 | In every run, a process that is listed with its decision pending or under way is stopped in its exec or its restored image, or dead |
| TracerDecisions.StepKeepsHeld | src/linux-held-exec.c:3158-3191 | Every step keeps that of every process still listed, and that only first threads are held |
| TracerRelease.OutstandingJobStays | src/linux-held-exec.c:3128-3191 | In every run, as long as its job is outstanding a process is neither continued nor detached and no step lets it go; it keeps its record and its job through every step but the end of the job and the report of its death, execs over it included |
| TracerRelease.PendingLetGoExactly | src/linux-held-exec.c:3037-3043 | In every run, a process whose decision is pending and has not started is stopped and is never continued; some step lets it go if and only if the session drains, nobody has a job, and the process lives and does not await its parent's event: it is then detached without its decision |
| TracerRelease.DueDecisionNeverComes | src/linux-held-exec.c:3180-3187 | There is a run from the start that ends so: a program execs twice, the session drains, and the program can be detached with its decision pending |
| TracerRelease.OnlyDetachingLetsGo | src/linux-held-exec.c:3158-3191 | Of all steps of kernel and tracer only its own detaching lets a live process go that has a job or a pending decision |
| TracerRelease.StepKeepsListed | src/linux-held-exec.c:3123-3298 | Every step keeps the records of held processes stopped, not listening and their image's own |
| TracerDecisions.ReportFlags | src/linux-held-exec.c:3248-3248 | A report sets the flag only for a vfork event, clears it for the end of the vfork, and for an exec keeps it exactly on a record that is kept |
| TracerBreach.ContinuationBreaksExactly | src/linux-held-exec.c:3158-3181 | From every reachable state whose barrier is whole, stale flags or not: a continuation breaks the barrier if and only if in it a decision starts while another process moves that the ready test passes over because of its stale flag; nobody else can move when a decision may start |
| TracerBreach.StepBreaksExactly | src/linux-held-exec.c:3158-3298 | No other step breaks a whole barrier: nobody starts to move under a lease |
| TracerBreach.StaleFlagLetsIn | src/linux-held-exec.c:3162-3174 | A stale flag on a running process is all it takes: as soon as everyone else is stopped or flagged, the next decision that is due breaks the barrier in two steps |
| TracerBreach.IntruderIsStale | src/linux-held-exec.c:3162-3174 | Whoever can move when a decision may start is flagged, out of its vfork, and nothing the tracer could still be told of explains it |
| TracerStaleFlag.StaleFlagDefeatsTheBarrier | src/linux-held-exec.c:3241-3298 | There is a run from the start, with one such report, in which a decision holds its lease while another process runs user code |
| EffectTransactionProofs.EveryFactIsAllowed | src/effect-transaction.ts:180-274 | In every interleaving of validate, commit, abort, reconstruct, release and input transfer: the backend's commit starts only when the own validation that ended last is valid, none has started since and no commit failed since; commits never overlap and never start again after success or a poisoned failure; validations do not overlap; the branch is disposed once, after any admitted commit settled, all proofs and transfers ended and all query resources were released; no proof starts after disposal |
| EffectTransactionWindow.CommitOwnsItsWindowExactly | src/effect-transaction.ts:191-261 | In every run, when a commit has picked the proof it waits for: however the run goes on, its check starts the effect exactly if the last own validation then in the lane ends valid (and does not run across the failure of an earlier commit), or, if there is none, if the proof at hand is trusted. This holds of all continuations if and only if the transaction is closed or no own validation still waits for an earlier commit |
| EffectTransactionWindow.OneIsLeftBehind | src/effect-transaction.ts:191-193 | A run reaches a commit that does not own its window |
| EffectTransactionWindow.ProofsWaitForTheirCommit | src/effect-transaction.ts:191-193 | In every run a proof asked for while a commit is under way starts only when that commit is over |
| EffectTransactionWindow.ChecksExactly | src/effect-transaction.ts:253-261 | In every run a commit's check starts the effect if and only if the own validation that ended last was valid, started after the last failure and has no successor under way |
| EffectTransactionProofs.AdmittedExactly | src/effect-transaction.ts:244-251 | In every run a commit call is admitted if and only if nothing is being committed, has been or was spoiled, the transaction is open, and a proof is pending or the last own one was valid with no failure since |
| EffectTransactionProofs.ValidateExactly | src/effect-transaction.ts:191-209 | In every run a validate call on an open transaction joins the lane at once if nothing is being committed or the commit has succeeded, and otherwise waits |
| EffectTransactionProofs.ResumeExactly | src/effect-transaction.ts:193-198 | So does one that has waited, when the commit it found is over |
| EffectTransactionProofs.ReconstructExactly | src/effect-transaction.ts:224-226 | In every run a reconstruction begins if and only if the transaction is open, not spoiled and not in the backend's commit |
| EffectTransactionProofs.ShownExactly | src/effect-transaction.ts:180-223 | In every run inputs count as handed over exactly if they were given before the closing; the state is aborting exactly between a closing with nothing committed or under way and the disposal |
| EffectTransactionProofs.CommitNeedsAProof | src/effect-transaction.ts:253-261 | The gate inside the commit in terms of the run's history: it opens only on a trusted proof, on an undisposed branch, with no own validation running |
| EffectTransactionProofs.FinalPhasesStayInRuns | src/effect-transaction.ts:180-210 | Committed and poisoned are never left, whatever is called afterwards |
| EffectTransactionProofs.FinalPhasesStay | src/effect-transaction.ts:244-272 | The same from any state the invariant holds in |
| EffectTransactionProofs.FinishedPhase | src/effect-transaction.ts:180-190 | After disposal the state is committed exactly if the backend's commit succeeded, poisoned exactly if it failed without being recoverable, and aborted otherwise |
| EffectTransactionProofs.PlainUseCommits | src/effect-transaction.ts:244-272 | The plain sequence of calls does reach committed, so the guarantees are not empty |
| EffectTransactionProofs.StepKeeps | src/effect-transaction.ts:156-277 | Every step of every caller keeps the invariant |
| EffectTransactionProofs.CheckCommitKeeps | src/effect-transaction.ts:253-269 | The step after the awaited validation, whatever happened while it was awaited |
| EffectTransactionProofs.StartEffectKeeps | src/effect-transaction.ts:256-261 | In a validated state the proof at hand is one that nothing has invalidated |
| EffectTransactionProofs.EndLaneKeeps | src/effect-transaction.ts:198-207 | The end of a proof: a query's answer never becomes the transaction's own |
| EffectTransactionProofs.FailCommitKeeps | src/effect-transaction.ts:264-269 | A failure forgets the proof, so the next commit needs a new one |
| EffectTransactionProofs.SettleCommitKeeps | src/effect-transaction.ts:55-61 | Only a recoverable failure permits another attempt |
| EffectTransactionProofs.DrainLaneKeeps | src/runtime-lifecycle.ts:61-98 | Closing runs after everything admitted to the lane and after all tracked work |
| DescriptorTable.Adopt | src/linux-held-exec.c:2703-2727 | Gate and replacement together: exactly the images whose entries are each a captured position as it will be, or one of the first three descriptors as the process has it, are let in; and on success the process has exactly the image's numbers, each naming, with its own close-on-exec flag, what its source named on entry, for any swaps, cycles, aliases and collisions. It fails only at the gate or for want of resources |
| DescriptorTable.ImageContext | src/linux-held-exec.c:2703-2726 | The gate's loops accept exactly when every open descriptor beyond 2 is an installed position, the entries' numbers differ, and every entry records its position's final flags and offset or shows an own descriptor 0 to 2 unchanged |
| DescriptorTable.AdmittedNames | src/linux-held-exec.c:2717-2725 | What passes the gate names something, and names the same before and after the transfer, so no arrival can take the place of an own source |
| DescriptorTable.ImageHandles | src/linux-held-exec.c:1175-1202 | The replacement on its own, for any entries: on success the table is exactly the simultaneous assignment over the table the transfer left, and over the table on entry if every source named something there. It fails only if a call was refused, a limit was exceeded, or a source names nothing |
| DescriptorTable.Replace | src/linux-held-exec.c:1180-1201 | The same given the list of the process's own numbers |
| DescriptorTable.Rearrange | src/linux-held-exec.c:1193-1201 | From pinned sources to the final table: placing, closing and unpinning in this order |
| DescriptorTable.PinAll | src/linux-held-exec.c:1183-1191 | The pins lie above every number in use or wanted, all different, and name what the entries' sources name |
| DescriptorTable.PlaceAll | src/linux-held-exec.c:1193-1194 | Placing never overwrites a pin: the result is the simultaneous assignment over the old table |
| DescriptorTable.CloseOthers | src/linux-held-exec.c:1195-1199 | Closes exactly the numbers of the old table the image does not have |
| DescriptorTable.Process.Receive | src/linux-held-exec.c:1131-1172 | The transfer through a socket pair ends with the descriptions at numbers that were free, the rest of the table as it was, and the pair gone |
| DescriptorTable.Floor | src/linux-held-exec.c:1181-1182 | A number above everything in use and everything wanted |
| DescriptorTable.AssignedKeys | src/linux-held-exec.c:1195-1200 | The final table has exactly the image's numbers |
| DescriptorTable.AssignedAt | src/linux-held-exec.c:1193-1194 | Each of them names its own source's description, the last entry counting if a number is listed twice |
| DescriptorTable.DeliveredReads | src/linux-held-exec.c:1163-1166 | The received numbers are different, each names its description, and taking them away gives the table on entry |
| DescriptorTable.ReceivedFresh | src/linux-held-exec.c:1156-1166 | The received numbers are none of the process's own |
| ProcessImage.RoundTrip | src/linux-held-exec.c:1224-1239 | For any list of mappings of a process and files that have not changed: rebuilding what was written gives back every captured byte of every non-special page, although file pages are rewritten only where flagged |
| ProcessImage.Carry | src/linux-held-exec.c:1002-1244 | Write, load, restore and hand-over together: they succeed exactly if the image fits, its unflagged pages are the files', the loader accepts it and the thread-id word can be read and holds the producer's number; the consumer then has the producer's memory but for that word, which holds the new number |
| ProcessImage.Write | src/linux-held-exec.c:1002-1032 | Succeeds exactly if the image is not too large and no unflagged page differs from its file; the buffer is the sections in order |
| ProcessImage.Measure | src/linux-held-exec.c:1002-1006 | The first walk's length is the length of what the second walk writes, or the image is too large |
| ProcessImage.Load | src/linux-held-exec.c:1069-1103 | Accepts exactly the buffers whose mappings are aligned, ascending and clear of the scratch pages, whose sections fill the buffer, and whose file sections are what the files hold now |
| ProcessImage.PartIsSection | src/linux-held-exec.c:1016-1031 | All walks agree on every offset: what the writer put in for a mapping is what the loader and the restorer find for it |
| ProcessImage.WrittenIsAccepted | src/linux-held-exec.c:1070-1103 | What the writer produces passes the loader as long as the files stay as they are |
| ProcessImage.RebuiltShows | src/linux-held-exec.c:1224-1239 | Each mapping is rebuilt as its section says, whatever is mapped after it |
| ProcessImage.RebuiltDomain | src/linux-held-exec.c:1224-1239 | Exactly the non-special pages of the image are mapped in the end |
| ProcessImage.Process.Restore | src/linux-held-exec.c:1212-1239 | Nothing of the old memory is left, and the new one is what an accepted image describes |
| ProcessImage.Process.MapAgain | src/linux-held-exec.c:1224-1238 | Mapping the file and writing the flagged pages gives the section's bytes, although unflagged pages are never written |
| ProcessImage.Process.HandOver | src/linux-held-exec.c:1240-1244 | Rewrites the thread-id word exactly if it holds the producer's number, and nothing else ever |
| ProcessImage.Process.Unmap | src/linux-held-exec.c:1212-1215 | Removes every non-special page |
| PathWalk.Walk | src/filesystem-evidence.ts:612-644 | The generator's loop ends where the recursive resolution of section 4.13 of IEEE Std 1003.1-2017 (Base Definitions) does, with its errors and at most 40 links, for every filesystem, start and target; no place it captures has a link or a non-directory above it; on a filesystem that stands still the check for changed links never fires |
| PathWalk.WalkOn | src/filesystem-evidence.ts:618-643 | The loop against the resolution with one spliced list |
| PathWalk.WorklistAgrees | src/filesystem-evidence.ts:632-638 | Putting a link's components in front of the pending ones gives the same outcome and link count as resolving the link to its end first |
| PathWalk.SpliceIsNested | src/filesystem-evidence.ts:632-638 | Resolving a list put in front of another is resolving the first to its end and going on from there |
| PathWalk.FromRoot | src/filesystem-evidence.ts:615-617 | Starting at a place without links above it is the same as starting at the root |
| DependencyOrder.Order | src/dependency-order.ts:2-19 | For every finite graph the iterative traversal returns the recursive depth-first post-order: undefined exactly if a missing vertex or a cycle is reachable, otherwise all reachable vertices once, each after its dependencies |
| DependencyOrder.OrderIsComplete | src/dependency-order.ts:2-19 | A successful traversal lists exactly the reachable vertices, without repetition and dependencies first |
| DependencyOrder.OrderRejectsExactly | src/dependency-order.ts:8-12 | The traversal gives up if and only if a missing vertex or a cycle is reachable |
| DependencyOrder.PathIsListed | src/dependency-order.ts:13-15 | Along any path from the roots each vertex is listed before the one that depends on it |
| DependencyOrder.Turn | src/dependency-order.ts:7-15 | One turn of the loop keeps what the stack amounts to, and either marks a vertex or shortens the stack |
| DependencyOrder.DrainExpands | src/dependency-order.ts:13-15 | Replacing a frame by its finished frame and its dependencies' frames is one recursive visit |
| DependencyOrder.DrainFrames | src/dependency-order.ts:14-15 | The frames pushed for a list are visited in the order of the list |
| OwnershipClosure.Close | src/linux-held-exec.c:2101-2115 | A captured descriptor is marked outside if and only if a chain of queued rights leads to it from one another process owns; the worklist holds each marked index once and never overflows |
| OwnershipClosure.ReachedIsLeast | src/linux-held-exec.c:2108-2115 | The marks are the least set that holds what is owned outside and is closed under queued rights |
| OwnershipClosure.Turn | src/linux-held-exec.c:2108-2115 | One turn of the worklist |
| OwnershipClosure.MarkQueued | src/linux-held-exec.c:2110-2113 | Marks exactly the captures a queue's rights name, and lists each newly marked one once |
| OwnershipClosure.DistinctFits | src/linux-held-exec.c:2103-2106 | A worklist without repetitions fits the fixed array |
| ActionKeys.FindMatch | src/action-semantics.ts:246-263 | Exact exactly for equal keys; otherwise the projector with the least distance, the first among equals, or none if no projector accepts |
| ActionKeys.NearestIsBest | src/action-semantics.ts:250-262 | The running best is the best of all the projectors seen |
| ActionKeys.MatchSharesPartition | src/action-semantics.ts:265-274 | If accepted pairs share their projector's partition, any projected match shares a partition that the index can use |
| ActionKeys.StockProjectorsRespectPartitions | src/action-semantics.ts:156-189 | The read, bash and grep projectors accept only pairs that share their partition, and never at a negative distance |
| ActionKeys.GrepCoversExactly | src/action-semantics.ts:180-189 | A search is accepted if and only if it is of the same kind, in the same circumstances, with the same input but for pattern and limit, and every line that contains what is sought contains what was found: its lines only need filtering |
| ActionKeys.BashCoversExactly | src/action-semantics.ts:172-178 | A command is accepted if and only if it is the same command in the same circumstances with the same input but for the timeout, and whatever finishes within the one timeout finishes within the other |
| ActionKeys.ReadAcceptsExactly | src/action-semantics.ts:155-164 | A read is accepted if and only if the other shows some line of the same file and this one starts in those or right behind; the distance is zero exactly for the same lines |
| ActionKeys.ReadSharesExactly | src/action-semantics.ts:285-289 | A read shares a running one if and only if all its lines are among the other's, which states a limit only if this one does |
| Ranking.RankingIsUnique | src/candidate-stores.ts:238-239 | Ranks that differ determine the sorted order |
| Ranking.SortedRanks | src/candidate-stores.ts:269-269 | Sorting keeps the elements and orders them |
| CandidateRuns.LookupAfter | src/candidate-stores.ts:220-240 | After any run of operations on a new store, in any scopes, with deletions and evictions among them, lookups in a scope find exactly what matching every registration finds, for all actions and coverage tests, if and only if no registration left there was created under another action's projections that share none with some action it answers; a run in which getOrCreate creates no entry whose own projections are not among those of the key asked for has none |
| CandidateRuns.NothingMissedExactly | src/candidate-stores.ts:226-235 | The condition on what is left of a run is exact |
| CandidateRuns.PerformAll | src/candidate-stores.ts:45-182 | Every run keeps the indexes of all scopes complete if no entry is misfiled, and every registration it leaves was made by one of its operations, filed as that operation filed it |
| CandidateRuns.StrayIsMisfiled | src/candidate-stores.ts:81-82 | Only an entry whose own projections are not among those of the key asked for can be missed |
| CandidateStore.Store.Lookup | src/candidate-stores.ts:220-240 | Lookup without inputs finds exactly the matches that are in a consulted index, each at a lesser distance than all behind it, or at the same and more recently used; with complete indexes that is what matching every registration finds |
| CandidateStore.MissesNothingExactly | src/candidate-stores.ts:226-235 | The indexes find what a scan finds if and only if every registration that matches is in an index the action leads to |
| CandidateStore.CompleteFindsAll | src/candidate-stores.ts:226-235 | Complete indexes miss nothing, for any action |
| CandidateStore.MatchIsIndexed | src/candidate-stores.ts:226-227 | A registration indexed under its own projections that matches an action is in one of the indexes the action leads to |
| CandidateStore.Store.Consider | src/candidate-stores.ts:229-236 | One candidate adds its match, if it has one, and nothing else |
| CandidateStore.Store.GetOrCreate | src/candidate-stores.ts:68-84 | Joins the best match the caller accepts, exact ones first, and changes nothing; otherwise registers the new entry under the projections of the key asked for. A complete scope stays complete if and only if the new entry's own projections are among those |
| CandidateStore.MisfiledEntryIsMissed | src/candidate-stores.ts:81-82 | An entry registered under another key's projections is missed by a lookup that matching it would satisfy |
| CandidateStore.FirstJoin | src/candidate-stores.ts:75-80 | The first accepted in the order of joining is the best accepted of all |
| CandidateStore.Store.Add | src/candidate-stores.ts:242-252 | Registers under the given indexes, or leaves everything if the name is taken |
| CandidateStore.Store.Insert | src/candidate-stores.ts:52-54 | Registers under the entry's own projections and keeps the indexes complete |
| CandidateStore.Store.Delete | src/candidate-stores.ts:122-130 | Removes just the registration of this very object, from the list and every index; every scope's indexes stay complete |
| CandidateStore.Store.Settle | src/candidate-stores.ts:141-152 | Registers the entry if its name is free; then it leaves the pending index, gets a result once and its inputs indexed once |
| CandidateStore.Store.InvalidateInputs | src/candidate-stores.ts:105-110 | Takes one registration out of the revoked input indexes, in both forms, and out of nothing else |
| CandidateStore.Store.IndexView | src/candidate-stores.ts:113-120 | Puts one registration into, or takes it out of, one view index |
| CandidateStore.SettleAgain | src/candidate-stores.ts:141-152 | Settling again keeps the evidence there is and never indexes inputs twice |
| CandidateStore.Store.Trim | src/candidate-stores.ts:180-182 | Evicts the shortest prefix of the order cold before hot, low scores first, that meets both budgets, or everything evictable; protected results count throughout; nothing else is removed, and every scope's indexes stay complete |
| CandidateStore.RetireExcess | src/candidate-stores.ts:255-277 | The same on a list of results |
| CandidateStore.ShortestRetires | src/candidate-stores.ts:255-277 | What goes may go, goes cold before hot, then low scores, then early arrivals first, and before all else that may; no fewer meet both budgets; and these do, or nothing else may go |
| CandidateStore.RetiresOne | src/candidate-stores.ts:255-277 | That determines what goes |
| CandidateStore.EvictionOrderRanks | src/candidate-stores.ts:262-269 | The order holds every result that may go, ranked by segment, score and arrival |
| CandidateStore.LeftOver | src/candidate-stores.ts:271-275 | The counts kept while retiring are those of what is left |
| CandidateStore.EverythingMayGo | src/candidate-stores.ts:165-168 | When nothing is protected the prefix meets both budgets |
| CandidateStore.Store.RecordActorHit | src/candidate-stores.ts:158-169 | Makes the result hot and most recent; with limits exactly the shortest prefix of low-score hot results goes back to cold, and the hot segment is then within its share of both budgets |
| CandidateStore.HitWarms | src/candidate-stores.ts:158-163 | A hit makes a result hot, counts once, and is more recent than all others; nothing else of it changes |
| CandidateStore.HotEntriesExactly | src/candidate-stores.ts:164-166 | The hot segment gets its share of the entries, rounded down, but at least one if it gets any share of any |
| CandidateStore.HotBytesExactly | src/candidate-stores.ts:164-167 | And its share of the bytes, rounded down |
| CandidateStore.FractionExactly | src/candidate-stores.ts:164-164 | The share is eight tenths unless set, and never outside none to all |
| CandidateStore.IndexKeepsMirror | src/candidate-stores.ts:189-194 | Indexing keeps partitions and memberships mirror images |
| CandidateStore.UnindexKeepsMirror | src/candidate-stores.ts:196-203 | So does unindexing, and no empty partition stays |
| CandidateStore.AppendKeepsMirror | src/candidate-stores.ts:246-249 | So does a new registration |
| CandidateStore.RemoveKeepsMirror | src/candidate-stores.ts:122-130 | So does a removal, which leaves no trace in any partition |
| ContentChunks.Capture | src/content-chunks.ts:154-179 | However the input is cut into pieces, the manifest is that of the whole input; it fails exactly if the input exceeds the budget, differs from the announced size or has too many blocks |
| ContentChunks.ManifestParses | src/artifact-reference.ts:32-43 | Captured manifests have the right block count and sizes and one size per digest; they pass the parser exactly up to its limit on blocks |
| ContentChunks.Parse | src/artifact-reference.ts:32-43 | Accepts exactly manifests of the right block count and block sizes that give one digest one size |
| ContentChunks.ContentRoundTrip | src/content-chunks.ts:84-88 | Reading all blocks of the manifest of a content gives the content back, blocks of zeros included |
| ContentChunks.Chunker.Sink | src/content-chunks.ts:163-172 | A piece of any length leaves the full blocks put away and the rest in the buffer |
| ContentChunks.Chunker.Flush | src/content-chunks.ts:159-162 | Puts the buffer away as the next block, without a reference if it is all zeros |
| ContentChunks.Chunker.Finish | src/content-chunks.ts:173-176 | The last, short block completes the manifest of all that was seen |
| ContentChunks.Read | src/content-chunks.ts:75-82 | A read at any offset and with any bound gives that slice of the content, cut at its end, or refuses what exceeds the read budget |
| ContentChunks.ReadBack | src/content-chunks.ts:75-82 | What was captured, in any pieces, is read back at any offset and with any bound as that slice of the whole input, or refused for the read budget; nothing is captured exactly in the cases Capture names |
| ContentChunks.ReadRange | src/artifact-reference.ts:17-25 | Copying block by block gives the slice, over block borders and a short last block |
| ContentChunks.PieceIsNext | src/artifact-reference.ts:19-23 | Each turn copies the next bytes of the slice and at least one |
| ContentChunks.WriteContent | src/content-chunks.ts:181-194 | A file that holds the old version, or none, then holds exactly the new one, for growing, shrinking and equal sizes and all skipped blocks; it fails only if a write made no progress |
| ContentChunks.UpdateBlock | src/content-chunks.ts:185-192 | Each turn brings one more block up to date and touches no other |
| ContentChunks.SkippedIsThere | src/content-chunks.ts:187-188 | A block that is skipped holds the new bytes already, for each of the three reasons to skip it |
| ContentChunks.SameBlock | src/content-chunks.ts:187-187 | Equal digests mean equal bytes there, even if the old version goes on behind a short last block |
| ContentChunks.File.WriteAll | src/content-chunks.ts:190-190 | The loop over partial writes writes the whole block or stalls |
| ContentChunks.StringPieces | src/content-chunks.ts:126-133 | The blocks a string is cut into concatenate to the UTF-8 encoding of the whole string, by section 3 of RFC 3629 |
| ContentChunks.Utf8Pieces | src/content-chunks.ts:130-131 | Encoding in pieces is encoding the whole if no surrogate pair is split |
| ContentChunks.CutEnd | src/content-chunks.ts:129-130 | Each cut makes progress and splits no surrogate pair |
| ContentChunks.CaptureString | src/content-chunks.ts:123-136 | The captured content of a string reads back as its encoding |
| DigestCache.FreshExactlyWithinTolerance | src/filesystem-evidence.ts:374-392 | In every run of writes, captures and lookups the digest the cache offers is that of the file's current bytes, if and only if on each device the lag of a stamp and the time the bytes of a write may follow it are together at most the threshold less one millisecond; times are compared in whole milliseconds |
| DigestCache.WithinTolerance | src/filesystem-evidence.ts:386-390 | One direction for every setting of devices, lags and write times |
| DigestCache.BeyondTolerance | src/filesystem-evidence.ts:388-390 | The other: a device one nanosecond over has a run in which a write races a capture and the cache then offers the old digest |
| DigestCache.TooRecent | src/filesystem-evidence.ts:388-390 | A change that comes after a read began belongs to a stamp too close to the read to be trusted |
| DigestCache.RunKeepsInv | src/filesystem-evidence.ts:517-566 | The invariant over all runs: what a capture read is what the file held, or the file has changed since it began |
| DigestCache.StepKeepsInv | src/filesystem-evidence.ts:535-557 | Every step of files, captures and cache keeps it: a stamp without bytes yet, bytes under an earlier stamp and reads between them included |
| DigestCache.InvIsFresh | src/filesystem-evidence.ts:380-384 | Under the invariant an offered digest is current |
| DigestCache.FinishExactly | src/filesystem-evidence.ts:535-557 | A capture puts away what it read, under the identity the file had when it was opened, if and only if the file still has it and is of that size |
| DigestCache.DigestsHaveTheirSize | src/filesystem-evidence.ts:535-557 | In every run each digest is of as many bytes as the identity it is kept under says |
| StreamPreview.ReadyExactlyAtTheEnd | src/actor-stream-preview.ts:50-58 | For every JSON object text (sections 4, 5 and 7 of RFC 8259), after leading white space and at every prefix: depth first returns to zero, and the scanner is ready, exactly at the closing brace |
| StreamPreview.ReadyFromTheBrace | src/actor-stream-preview.ts:50-58 | It stays ready over trailing white space |
| StreamPreview.ValueIsNeutral | src/actor-stream-preview.ts:50-58 | Any JSON value inside an object leads the scanner back to where it was, without ever leaving the object on the way, braces and quotes inside strings included |
| StreamPreview.AfterPieces | src/actor-stream-preview.ts:47-58 | The scanner's state depends only on the concatenation of the deltas |
| StreamPreview.Tracker.Observe | src/actor-stream-preview.ts:29-75 | The tracker's map and answer are those of the specification function |
| StreamPreview.OnePreviewPerCall | src/actor-stream-preview.ts:29-75 | A call's updates, from its first to its end, bring exactly one call preview, and leave no record |
| StreamPreview.PreviewedAtTheBrace | src/actor-stream-preview.ts:60-73 | A delta that brings in the closing brace of an object the parser accepts previews the call at once, with its parsed arguments; an earlier one never does |
| StreamPreviewTold.CallsTold | src/actor-stream-preview.ts:29-75 | Every preview of a call, in any stream, is of the call its update speaks of: at the end with the name and arguments stated there, before with those the parser finds in all the text so far |
| StreamPreviewTold.ToolToldOnce | src/actor-stream-preview.ts:60-64 | While a call is streamed its tool is previewed once, by the first name it is given |

## Left out

- VersionClockSafety.CleanAnswerIsSound: not claimed for asynchronous (io_uring, aio) and mapped writers, because the query ignores their marks by design, nor for probes of names alone, which VersionClockNames is about; a run has fewer than 2^64 events, because namespace_change and completed draw clock values without noting a wrap.
- VersionClock: the domain's own uncertain flags, watched ancestors and the second bit of a reply are not modelled; they only turn more answers into refusals or hints.
- VersionClock: completion at task_exit is the same program as the one at the end of a call and is not a separate step.
- QueueReplay: datagram and seqpacket sockets, event counters, file locks and the byte encoding of events are not modelled; poll's normal and band variants are one flag each.
- QueueReplayProofs.AcceptedListsReplay: its condition looks at the private queues only and is sufficient for every arrangement of slots at once; for each given arrangement QueueReplayRoom.ReplaysExactly has the exact one, and FailsExactlyWhenCramped says that for a single write it cannot be relaxed. A failing fcntl is not modelled. Handles of one queue are taken to be captured alike, and a socket's peer not to be itself; the ends other processes hold are taken as captured, and a pipe has at least one page.
- QueueReplayEnds.EmptyReadExactly: the captured messages of a queue are taken to be in the order of their bytes and within them, as the capture reads them.
- QueueReplayPolls.PollsAreTrue: a pipe's capacity is taken to be whole pages, and poll at the capture to have told the truth.
- QueueReplayJob.Job.ResourceEvents: freeing the buffers and holding off cancellation are left out.
- Tracer: the mode without descriptors, delivered signals, the credential check, the skip code and the poll on the control pipe are left out; they do not move processes between the modes, or only end the session early, which the model allows at any time.
- Tracer: a process number is not reused while the tracer still lists it, and at an exec the other threads of the process die by steps of their own.
- TracerSafety.OnlyFlaggedRunUnderLease: a historical record of an earlier image has no state of its own in the model.
- EffectTransaction: begin, execute and capture before sealing, branches that hold only inputs, cloning of outputs and the lane's owned resources are left out.
- EffectTransaction: a promise that never settles is a step that never happens; that a commit ends at all is not claimed.
- DescriptorTable.Adopt: the gate's other tests (a descriptor table shared with another process, a descriptor that is an input of the intercepted call, the process's status, its qualification) only refuse more and are not modelled, nor are the checks on the message of the transfer and on the received descriptions (kcmp) and the limit INT_MAX on numbers; any call may be refused at any time instead.
- ProcessImage: registers, protections, special mappings that are moved, the scratch page mapping and the text header of an image are left out; the paths of backing files are given, and memory calls are not refused.
- ProcessImage.RoundTrip: files do not change between writing and loading; the loader's comparison is what notices when they do.
- PathWalk: magic links, a platform's other separators, and a start below a link are left out.
- DigestCache: a write through a mapping counts as one whose bytes follow its stamp; the path check around a capture, git object ids and identities remembered without a read are left out; any entry may be forgotten at any time, which covers the eviction of the oldest.
- DependencyOrder: a dependency function that changes during the traversal.
- ActionKeys: building a key from raw input, and projectors that throw, which the code skips like ones that refuse; case folding is that of ASCII, to which the partition restricts patterns.
- CandidateStore: waiting and notification, snapshots, lookup by inputs and views, and callbacks that change the store while it ranks; a clock that is read during ranking is part of the score.
- CandidateStore.Store.GetOrCreate: the creating callback does not change the store.
- ContentChunks: limits on open and stored blocks, the second digest check of a restore, leases and transfers between processes are left out.
- StreamPreview: the parser is a parameter; a clear between a call's preview and its end forgets the preview, so a second one follows.
- Everything else of the repository: host integration, setup, user interface, providers and benchmarks hold no invariant of this kind; hash functions, ptrace and BPF plumbing are taken as given.
