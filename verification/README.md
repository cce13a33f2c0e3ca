# Music Player Daemon: verified models of its hand-offs, timers and caches

This project models the parts of the Music Player Daemon (MPD) where threads hand work to
each other, and where a fast structure stands in for a simple one. It proves what those parts
promise: for every interleaving of the threads, for every history of calls, for every input.
`dafny verify dfyconfig.toml` checks all of it.

| part | files |
|---|---|
| the music pipe shared by the player and any number of output threads | `PipeCursor`, `OutputThread`, `SharedPipe`, `SharedPipeProofs`, `SharedPipeTheorems`, `OutputPlayback`, `OutputCommands`, `OutputWakeup`, `MusicPipe`, `MusicBuffer`, `ChunkOwners` |
| timers of the event loop: the wheel against the sorted list | `TimerHistory`, `TimerWheel`, `TimerList`, `TimerRefinement` |
| the event loop, its wake-up from other threads, the idle mask | `EventLoop`, `EventLoopTheorems`, `EventLoopEvents`, `MaskMonitor` |
| the decoder: command protocol, seeking, packing PCM into chunks | `DecoderProtocol`, `DecoderTheorems`, `DecoderInitialSeek`, `DecoderBridge` |
| input caches | `SparseBuffer`, `BufferingInput`, `RewindInput` |
| poll sets | `PollBackend`, `WinSelectBackend` |
| audio formats as text | `DecimalText`, `AudioFormat` |

How the models are built:

- **Concurrent code** is a step system over values. A step is what one thread does between two
  points where another thread can see the difference: a critical section, one atomic access, one
  write to a descriptor. Locks are released where the source releases them. `IsRun` says what a
  run is, an invariant is proved for every step, and the theorems speak about every state of
  every run. What devices, filters, plugins and callbacks do is an arbitrary choice in each
  step, within what the source asserts about them.
- **Code that updates an object in place** is a class whose methods are proved against a
  function of the old state.
- **Nondeterminism inside a method** (callbacks, short reads, a full chunk buffer) is a
  parameter of the method.
- Times are nanoseconds. Integer widths are written out where they matter (`AudioFormat`,
  `DecimalText`).

Four promises are false as the code stands. For each there is an input that shows it, and the
exact condition under which the promise holds:

- A decoder that fails while a SEEK command is pending acknowledges the command without looking
  at it, and leaves the chunks from before the seek in the pipe (`BlindAckHappens`). Old chunks
  are gone in exactly those runs where this does not happen (`OldChunksAreGone`).
- An output thread can sleep with a command pending: if the first Fill() of InternalPlay() fails,
  Task() waits without looking at `command` again, and a command sent while the filter ran or
  the device was closed is missed (`CommandIsMissed`). Nothing but a wake-up for no reason ends
  that sleep (`StuckStays`). Commands are answered in exactly those histories where no thread
  begins to wait like that (`CommandsAreAnswered`).
- A failed pass-through seek of the rewind stream leaves it reading from the wrong position
  (`FailedSeekMisreads`), exactly if it was reading from its buffer (`RewindInputStream.Seek`).
- The printed form of a DSD format whose rate is a multiple of 44100 Hz is not always parsed
  (`SlowDsdIsLost`), and because the printer multiplies in 32 bits it may be parsed as another
  format (`FastDsdIsMistaken`). Exactly which formats survive is `RoundTrip`.

Other results say what a promise depends on:

- Without the `allow_play` gate the last chunk of the pipe would be played twice: the state in
  which only the gate prevents it is reached (`TailIsCleared`), and whenever it is reached, the
  call that the gate guards would repeat the chunk (`WithoutGateTailIsReplayed`).
- `DecoderControl::Quit` sets its flag before it sends STOP. A thread that ends in between never
  takes that STOP (`StopComesTooLate`), and no other command outlives the thread
  (`PendingAfterExit`).
- The wheel is exact but for timers due within the current RESOLUTION (`Compare`, `DriveWheel`).
- `MaskMonitor::Cancel`, which nothing in the program calls, would strand flags
  (`CancelStrands`, `AlwaysArmed`). Without it no flag is forgotten (`PendingFlagsWake`).

## Model

| member | source | states |
|---|---|---|
| `PipeCursor.NextOfAt` | src/output/SharedPipeConsumer.cxx:25-42 | In a pipe without repetition, the successor of the chunk at a position is the chunk at the next position, and none exactly at the tail. |
| `PipeCursor.GetByPosition` | src/output/SharedPipeConsumer.cxx:25-42 | Which chunk Get() returns, and where the cursor is afterwards, in terms of positions in the pipe: the head without a cursor, the same chunk again until it is consumed, then the next one, and none after the tail. |
| `PipeCursor.ConsumedByPosition` | src/output/SharedPipeConsumer.cxx:44-57 | The head counts as consumed if and only if the cursor is past it, or on it with `consumed` set while it is also the tail. |
| `SharedPipeProofs.GetReturnsNext` | src/output/SharedPipeConsumer.cxx:25-42 | If the cursor agrees with the run of fetched chunks, the chunk that Get() returns is the pushed chunk right after that run. |
| `SharedPipeProofs.StepKeeps` | src/output/Thread.cxx:424-546 | Whatever the output thread does in one step, for any behaviour of device and filter, its commands, its stage, its cursor and its run of chunks stay consistent, and its run grows only by the next chunk. |
| `SharedPipeProofs.StepKeepsCleared` | src/output/Thread.cxx:441-454 | Between LockClearTailChunk() and Shift(), no step of the output thread fetches a chunk. |
| `SharedPipeProofs.ConsumedMeansDone` | src/output/Control.cxx:334-340 | For an open output in a reachable state, IsChunkConsumed() of the head says yes if and only if the output has finished the head and, unless it is the tail too, moved on. |
| `SharedPipeProofs.OutputStepKeepsInv` | src/output/Thread.cxx:424-546 | The invariant of the whole system holds after a step of any output thread. |
| `SharedPipeProofs.StepKeepsInv` | src/output/MultipleOutputs.cxx:156-368 | The invariant of the whole system holds after a step of the player (commands, Play, CheckPipe, Cancel, Close) or of any output. |
| `SharedPipeProofs.RunKeepsInv` | src/output/MultipleOutputs.cxx:156-368 | The invariant holds in every state of every run, for any number of outputs. |
| `SharedPipeTheorems.FetchedIsContiguous` | src/output/MultipleOutputs.cxx:267-308 | In every state of every run, the chunks an open output fetched since it was opened or cancelled are a contiguous piece of the pushed sequence, in order and without repetition. |
| `SharedPipeTheorems.RunGrowsByNextChunk` | src/output/Source.cxx:215-251 | From each state to the next, that piece stays, grows by exactly the next pushed chunk, or ends because of CANCEL, KILL, or RELEASE of an output that is always on. |
| `SharedPipeTheorems.CursorIsInPipe` | src/output/SharedPipeConsumer.cxx:44-57 | In every state of every run, the cursor of an open output is null or points at a chunk that is still in the pipe. |
| `SharedPipeTheorems.ReclaimedOnlyWhenFinished` | src/output/MultipleOutputs.cxx:260-308 | CheckPipe() takes out one chunk at a time, and only after every open output has fetched it and finished it. |
| `SharedPipeTheorems.ScanStopsOnlyForUnconsumed` | src/output/MultipleOutputs.cxx:267-308 | CheckPipe() gives up only because of an output that has not consumed the head; once nobody needs the head, no step of any thread makes it give up before the head is out. |
| `SharedPipeTheorems.WithoutGateTailIsReplayed` | src/output/Thread.cxx:441-454 | In every run, whenever an open output is between LockClearTailChunk() and Shift(), `allow_play` keeps Task() from InternalPlay(), and InternalPlay() would fetch the chunk played last once more, so that the fetched chunks were no piece of the pushed ones. |
| `SharedPipeTheorems.TailIsCleared` | src/output/MultipleOutputs.cxx:286-301 | There is a run that reaches such a state: one output plays one chunk, and CheckPipe() clears the tail. |
| `SharedPipeTheorems.AssertionsHold` | src/output/Control.cxx:166-193 | The assertions about cleared tails, consumed chunks, outstanding commands and `allow_play` hold in every run. |
| `SharedPipeTheorems.CommandsAreFinishedOnce` | src/output/Thread.cxx:440-544 | With one commanding thread, at most one command is outstanding, and each branch of Task() that was left has finished its command exactly once; PAUSE, and RELEASE of an output that is always on, finish it inside InternalPause(). |
| `OutputPlayback.StepPays` | src/output/Thread.cxx:235-331 | Whatever device and filter do in one step of an output thread, what it still owes its chunk (data to play, a tag to send), recorded from what the filter returned and the device took, is what its source has pending; and it is done with a chunk only when it owes nothing. |
| `OutputPlayback.NothingIsOwed` | src/output/Source.cxx:214-250 | In every run, in the step in which an output is done with a chunk, nothing of that chunk is left to play or to send. |
| `OutputPlayback.DataIsPlayed` | src/output/Thread.cxx:254-284 | In every run, if the filter returned data for a chunk, the chunk counts as consumed only in or after a later step in which the device took all data that was left of it. |
| `OutputPlayback.TagIsSent` | src/output/Thread.cxx:236-252 | In every run, if an output that wants tags gets a chunk with a tag, the chunk counts as consumed only after the tag was given to the device. |
| `OutputCommands.StepIsDone` | src/output/Thread.cxx:424-546 | In each step of an output thread, an open device stays enabled, and a command that the step finishes has had its effect. |
| `OutputCommands.CommandHasEffect` | src/output/Thread.cxx:456-544 | In every run, when a command is finished: ENABLE has enabled the device or it failed; DISABLE has disabled and closed it; OPEN has opened device and source, or something failed; CLOSE has closed both; PAUSE pauses exactly an open output; RELEASE has closed it, or pauses it without a chunk; DRAIN keeps the source; CANCEL has dropped the chunk and the cursor; KILL has ended the thread with the device disabled and the source cancelled. |
| `OutputCommands.CommandsComeFirst` | src/output/Thread.cxx:254-262 | In every run, an output does not begin to give data to the device, or to wait for its delay, while a command is pending. |
| `OutputCommands.PauseIsBracketed` | src/output/Thread.cxx:333-381 | In every step of an output thread, a pause begins only with BeginPause(), and ends only with EndPause(), also if the device fails meanwhile. |
| `OutputCommands.InterruptedUntilResumed` | src/output/Thread.cxx:236-280 | In every run, once the device has thrown AudioOutputInterrupted, the output plays nothing until it executes OPEN, PAUSE, RELEASE or CANCEL. |
| `OutputWakeup.WaitsCaughtUp` | src/output/Thread.cxx:441-454 | A thread that finds no command and begins to wait, although it could play, has fetched every chunk that was pushed. |
| `OutputWakeup.StepKeepsWakeInv` | src/output/Control.cxx:349-414 | Every step of the player, of its LockPlay() calls and of any output thread, including the wait after a failed Fill(), keeps: a sleeping thread has no command but one that was pending when the wait began, it is closed if there is one, and it has nothing to play that the player is not about to tell it of. |
| `OutputWakeup.NoChunkIsOverslept` | src/output/MultipleOutputs.cxx:191-207 | In every history, if an output thread waits in wake_cond and has not been notified while its output is open and may play, the pipe has no chunk for it, unless the player is between Push() and its LockPlay(). This covers a push while the thread makes its last ChunksConsumed() call, when LockPlay() does not notify it. |
| `OutputWakeup.CommandsAreAnswered` | src/output/Thread.cxx:222-233 | No thread ever sleeps with a command pending, exactly in the histories in which no thread begins to wait after a failed first Fill() with a command pending. |
| `OutputWakeup.CommandIsMissed` | src/output/Thread.cxx:441-454 | There is a history in which one does: PAUSE is sent while the filter runs, and the filter fails. |
| `OutputWakeup.StuckStays` | src/output/Control.cxx:166-193 | A thread that sleeps with a command pending goes on sleeping with the same command, whatever the player and the other threads do, unless its wait ends for no reason. |
| `MusicPipe.Pipe.Push` | src/MusicPipe.cxx:79-100 | The linked list with its tail reference and size represents the old contents with the chunk appended. |
| `MusicPipe.Pipe.Shift` | src/MusicPipe.cxx:42-70 | The head is unlinked and returned, none if the pipe is empty; the rest is unchanged, and the tail reference is right again when the pipe becomes empty. |
| `MusicPipe.Pipe.Clear` | src/MusicPipe.cxx:73-77 | The pipe is empty, and every chunk was shifted out in order. |
| `MusicPipe.Pipe.Contains` | src/MusicPipe.cxx:28-39 | Walking the links finds the chunk if and only if it is in the contents. |
| `MusicPipe.SharedPipeConsumer.Get` | src/output/SharedPipeConsumer.cxx:25-42 | On linked chunks, the result and the new cursor are what the cursor functions say about the contents of the pipe. |
| `MusicPipe.SharedPipeConsumer.IsConsumed` | src/output/SharedPipeConsumer.cxx:44-57 | The same for the query. |
| `MusicBuffer.SliceBuffer.Allocate` | src/util/SliceBuffer.hxx:98-119 | A slice that was not in use, and none if and only if all are in use. |
| `MusicBuffer.SliceBuffer.Free` | src/util/SliceBuffer.hxx:122-143 | The slice, and no other, is available again. |
| `MusicBuffer.StepConserves` | src/MusicBuffer.cxx:29-52 | On paper, allocating, moving between pipes and holders, attaching for a cross-fade, and returning (with what is attached) keep every slice in exactly one place. |
| `MusicBuffer.SizesAddUp` | src/MusicBuffer.cxx:29-52 | If every slice is in exactly one place, the number of free slices and the number of owned ones add up to the capacity. |
| `ChunkOwners.OwnedBuffer.SizesAreCounted` | src/util/SliceBuffer.hxx:98-143 | The allocator's `n_allocated` is the number of piped, held and attached chunks, a slice is handed out if and only if it is owned, and never twice. |
| `ChunkOwners.OwnedBuffer.Allocate` | src/MusicBuffer.cxx:29-34 | Refused if and only if the owned chunks are as many as the buffer has; otherwise the allocator and the ownership take the same step. |
| `ChunkOwners.OwnedBuffer.Return` | src/MusicBuffer.cxx:36-52 | For a chunk with no successor: the attached chunk and the chunk itself are freed, and the allocator and the ownership take the same step. |
| `ChunkOwners.OwnedBuffer.ReturnLinked` | src/MusicBuffer.cxx:36-52 | For a chunk with successors: they are returned too, each with what is attached, and nothing else is. |
| `ChunkOwners.Drive` | src/MusicBuffer.cxx:29-52 | Over any history from an unused buffer on, what the allocator counts is what is owned, no slice is owned twice, and an allocation is refused exactly when everything is owned. |
| `TimerWheel.BucketAhead` | src/event/TimerWheel.hxx:115-127 | How far ahead a time's bucket is, modulo the wheel, is how many ticks ahead the time is. |
| `TimerWheel.WakeInTime` | src/event/TimerWheel.cxx:85-103 | The end of the first non-empty bucket is at most one RESOLUTION after the due time of any timer in any bucket, also of timers more than SPAN ahead. |
| `TimerWheel.VisitedWhenDue` | src/event/TimerWheel.cxx:133-160 | A timer that was due before the current bucket is in a bucket that the loop visits. |
| `TimerWheel.AllSwept` | src/event/TimerWheel.cxx:133-172 | After the bucket loop, no bucket timer is due before the current bucket, also after a gap longer than SPAN and when the clock went back. |
| `TimerWheel.ReadyLoggedNext` | src/event/TimerWheel.cxx:65-82 | While the buckets are run, a timer gets into `ready` only because a callback scheduled it. |
| `TimerWheel.TimerWheel.Insert` | src/event/TimerWheel.cxx:49-63 | The timer is in its bucket, or in `ready` if it is due, and nothing else moved. |
| `TimerWheel.TimerWheel.Schedule` | src/event/CoarseTimerEvent.cxx:36-43 | The timer is pending with the new due time, and no other timer changed. |
| `TimerWheel.TimerWheel.ScheduleEarlier` | src/event/CoarseTimerEvent.cxx:45-59 | The timer is pending with the earlier of its old and new due time. |
| `TimerWheel.TimerWheel.RunBucket` | src/event/TimerWheel.cxx:65-82 | Each timer of the bucket is run if due and kept otherwise, whatever callbacks schedule or cancel meanwhile; the log explains every change, and nothing runs early. |
| `TimerWheel.TimerWheel.RunBuckets` | src/event/TimerWheel.cxx:133-172 | The circular range of buckets, all of them if start and end are the same, holds no due timer any more. |
| `TimerWheel.TimerWheel.GetNextDue` | src/event/TimerWheel.cxx:84-103 | None if and only if all buckets are empty, otherwise the end of the non-empty bucket that is next. |
| `TimerWheel.TimerWheel.GetSleep` | src/event/TimerWheel.cxx:105-123 | -1 if and only if no timer is in a bucket; otherwise exactly until the end of the first non-empty bucket, which is ahead of now and not more than one RESOLUTION after any bucket timer is due. |
| `TimerWheel.TimerWheel.Run` | src/event/TimerWheel.cxx:125-175 | For any callbacks: the log explains how the pending timers changed, no timer runs before it is due, no bucket timer is left that was due before the bucket of now, every timer left in `ready` was scheduled by a callback of this run, and the result is as for GetSleep. |
| `TimerList.TimerList.Insert` | src/event/TimerList.cxx:54-66 | The list stays sorted, with the new timer in it. |
| `TimerList.TimerList.Run` | src/event/TimerList.cxx:68-91 | For any callbacks: exactly the timers that are not due are left, none ran early, and the result is the time to the first of them, -1 if there is none. |
| `TimerRefinement.Compare` | src/event/TimerList.cxx:54-91 | Over any history of calls under a monotone clock, with callbacks that do nothing, the list is exact, and the wheel differs from it only in timers due between the bucket start of the last run and the last run. |
| `TimerRefinement.DriveWheel` | src/event/TimerWheel.cxx:48-175 | Over any history under a monotone clock, with callbacks that schedule and cancel anything: the log explains what is pending, no timer runs early, and every pending timer is due in the bucket of the last run or later, unless it was scheduled during that run or after it. |
| `TimerRefinement.DriveList` | src/event/TimerList.cxx:54-91 | The same for the sorted list, where every pending timer is due after the last run, unless it was scheduled after that run. |
| `EventLoop.SoonerIsMinimum` | src/event/Loop.cxx:169-180 | HandleTimers() returns the minimum of two durations, where negative means infinite. |
| `EventLoop.ExportRoundsUp` | src/event/Loop.cxx:223-246 | The milliseconds are never less than the duration and less than one millisecond more; -1 if and only if the duration is negative. |
| `EventLoopTheorems.WakesKept` | src/event/Loop.cxx:376-429 | Every step of the loop, of a callback and of any other thread keeps the wake-up invariant. |
| `EventLoopTheorems.LoopKeepsWork` | src/event/Loop.cxx:302-370 | Every step of Run() keeps: `again` is set, or the queues of the phases already passed are empty and the timeout covers all timers. |
| `EventLoopTheorems.DeedKeepsWork` | src/event/Loop.cxx:153-200 | The same for everything a callback may do to the loop. |
| `EventLoopTheorems.NoLostWakeup` | src/event/Loop.cxx:376-429 | In every run, if the loop is blocked in Wait() with an injected event or after Break(), the wake descriptor is readable or some thread is on its way to write to it. |
| `EventLoopTheorems.WaitsWithoutWork` | src/event/Loop.cxx:302-343 | In every run, while the loop waits its ready, deferred, idle and socket queues are empty, whether or not `quit` was raised; when it begins to wait, no injected event is left unless `quit` was raised. |
| `EventLoopTheorems.PollTimeoutInTime` | src/event/Loop.cxx:169-260 | In every run, the milliseconds given to poll() are infinite only without timers, and otherwise less than a millisecond late for each fine timer, and less than a RESOLUTION and a millisecond late for each coarse one. |
| `EventLoopTheorems.PollTimeoutIsMinimum` | src/event/Loop.cxx:169-260 | In every run, while the loop waits, poll() was given the minimum of what the two timer structures returned, negative meaning infinite, rounded up to milliseconds. |
| `EventLoopTheorems.TimeoutsWereReturned` | src/event/Loop.cxx:169-180 | In every run, while the loop waits, those two durations are what timers.Run() and after it coarse_timers.Run() returned, for the timers they had then and the time that is still current, and the loop has not left this iteration since. |
| `EventLoopTheorems.ExitsOnlyByBreak` | src/event/Loop.cxx:302-370 | In every run, `quit` is set if and only if Break() was called, by another thread or by a callback, and Run() returns only then. |
| `EventLoopTheorems.NoIterationAfterBreak` | src/event/Loop.cxx:302-370 | Once Break() was called, no further iteration begins. |
| `EventLoopTheorems.AgainMeansWork` | src/event/Loop.cxx:302-343 | In every run, `again` is set only because a timer, a deferred, idle or injected event was added in the same iteration, so the loop does not go round without a reason. |
| `EventLoopTheorems.LoopExits` | src/event/Loop.cxx:283-370 | There is a run in which the loop goes through all its phases and waits, is woken by an event that another thread injects, calls it, and returns because the event calls Break(). |
| `EventLoopEvents.StepExplains` | src/event/Loop.cxx:182-260 | What one step of any thread does to one of the five lists: what enters it was queued, and what leaves it is the first event, which is called, or the cancelled one. |
| `EventLoopEvents.StepAccounts` | src/event/Loop.cxx:153-418 | In one step of any thread, for each of the seven queues (injected, deferred, idle, ready coarse timers, ready sockets, fine timers, coarse timers in buckets): an event that becomes queued was added, and one that stops being queued has its callback running after the step, or was cancelled. |
| `EventLoopEvents.EventsAreAccountedFor` | src/event/Loop.cxx:153-418 | In every run and for each of these queues, no event is lost, and none is called that was not queued: the times it was queued are the times it was called or cancelled, and the times it is still queued. |
| `EventLoopEvents.FirstComeFirstServed` | src/event/Loop.cxx:182-220 | In every run and for each of the five lists, an event is not called before what is ahead of it in the list has been called or cancelled; idle events are queued at the beginning of their list, all others at the end. |
| `EventLoopEvents.IdleComesLast` | src/event/Loop.cxx:311-320 | In every run, an idle event is called only when no deferred event is left. |
| `EventLoopEvents.TimersAreDue` | src/event/Loop.cxx:169-180 | In every run, a timer is called only when it is due. |
| `EventLoopEvents.InjectStaysDistinct` | src/event/Loop.cxx:376-405 | No step of any thread queues an injected event that is queued already. |
| `EventLoopTheorems.WheelSleeps` | src/event/TimerWheel.cxx:105-123 | What the wheel's Run() promises is what the event loop relies on. |
| `MaskMonitor.FlagsAreConserved` | src/event/MaskMonitor.cxx:22-35 | In every run, delivered and pending flags together are exactly those that were asked for. |
| `MaskMonitor.StepKeepsInv` | src/event/MaskMonitor.cxx:22-35 | The mask and the event loop together, with the monitor's event in the loop's own inject list: every step of any thread keeps both invariants and the accounting of flags, and every step but Cancel() keeps pending flags on their way. |
| `MaskMonitor.DeliversOncePerCall` | src/event/MaskMonitor.cxx:30-35 | In every run, the mask was delivered exactly as often as the loop has called the monitor's event, but for the call that is running. |
| `MaskMonitor.PendingFlagsWake` | src/event/Loop.cxx:376-418 | In every run in which nothing calls Cancel(), as in the program: pending flags are queued, about to be queued or about to be delivered; and if the loop is blocked with flags pending, it has been woken, or another thread is on its way to queue the event or to wake the loop. |
| `MaskMonitor.AlwaysArmed` | src/event/MaskMonitor.hxx:51-53 | If Cancel() were called: flags are never forgotten exactly in the runs where each Cancel() finds nothing pending or someone else about to act. |
| `MaskMonitor.CancelStrands` | src/event/MaskMonitor.hxx:51-53 | There is a run in which Cancel(), a method that nothing calls, strands flags. |
| `DecoderTheorems.StepKeepsInv` | src/decoder/Thread.cxx:484-612 | Every step of player, decoder thread and plugin keeps the invariant of the protocol. |
| `DecoderTheorems.TopIsIdle` | src/decoder/Thread.cxx:563-612 | In every run, the top of RunThread() sees STOP or ERROR. |
| `DecoderTheorems.TopAnswersCommands` | src/decoder/Thread.cxx:563-612 | In every run, each command that the top of RunThread() finds is acknowledged there; START and SEEK begin a song, or end in the state ERROR if its path is bad. |
| `DecoderTheorems.StoppedMeansIdle` | src/decoder/Control.cxx:101-113 | In every run, when Stop() returns the state is STOP or ERROR and no command is pending. With one commanding thread, Stop() never finds a command pending, so its first branch is never taken in a run. |
| `DecoderTheorems.SeekReturnsFresh` | src/decoder/Control.cxx:115-156 | When Seek() returns, the decoder is not starting any more, no command is pending, and no chunk from before the seek is left, unless the seek failed or a failing decoder acknowledged it blindly; what happened before the call does not matter. |
| `DecoderTheorems.ExitsOnlyByQuit` | src/decoder/Thread.cxx:563-612 | The step in which the decoder thread ends comes after Quit() has set its flag, with the decoder idle and no command pending. |
| `DecoderTheorems.PendingAfterExit` | src/decoder/Control.cxx:158-167 | In every run, a command is pending after the thread has ended if and only if the thread ended after Quit() set its flag and before it sent STOP, and STOP has been sent since. |
| `DecoderTheorems.StopComesTooLate` | src/decoder/Control.cxx:158-167 | There is a run in which STOP is sent to a thread that has ended. |
| `DecoderTheorems.ChunkEndsInitialSeek` | src/decoder/Bridge.cxx:144-212 | Once there was any chunk, in the pipe or current, no initial seek is pending or running for the rest of that bridge's life. |
| `DecoderInitialSeek.HistoryIsOk` | src/decoder/Bridge.cxx:159-212 | In every run, the flags of the bridge say what has become of the initial seek, told from what the player asked for and what the plugin did: not wanted, wanted, running, over. |
| `DecoderInitialSeek.FirstAnswerIsSeek` | src/decoder/Bridge.cxx:159-212 | In every run, a plugin that was called for START with a positive start time, or for a late SEEK with a positive seek time, is told SEEK the first time it asks for a command, or submits data or a tag, after it has become ready, if it is seekable, has no error and no command is pending. |
| `DecoderInitialSeek.NoChunkUntilSeekEnds` | src/decoder/Bridge.cxx:119-157 | In every run, from then on there is no chunk until the plugin says that the seek has finished or failed. |
| `DecoderInitialSeek.NoChunkBeforeInitialSeek` | src/decoder/Bridge.cxx:119-157 | In every run, while the initial seek is wanted or running, there is no current chunk and none in the pipe. |
| `DecoderInitialSeek.AnswerToGetCommand` | src/decoder/Bridge.cxx:199-212 | In every run, GetCommand() answers STOP after an error, SEEK while the initial seek runs or if it begins now, and otherwise exactly the pending command. |
| `DecoderInitialSeek.AnswerToSubmit` | src/decoder/Bridge.cxx:454-607 | In every run, SubmitData() and SubmitTag() return at once in exactly these cases (SubmitTag() only for the initial seek), with that answer, and otherwise go on to the chunks. |
| `DecoderInitialSeek.SeekIsAnswered` | src/decoder/Bridge.cxx:299-385 | In every run, when the plugin ends a seek: the initial one changes nothing for the player; otherwise a pending SEEK is acknowledged, after a success with no chunk left, after a failure with `seek_error` and all chunks kept. |
| `DecoderInitialSeek.InitialSeekFails` | src/decoder/Bridge.cxx:363-385 | In every run, a failed initial seek is an error of the bridge if the player called it essential, and otherwise only if there was one before; the player is told nothing. |
| `DecoderInitialSeek.ErrorsAreReported` | src/decoder/Thread.cxx:484-560 | In every run, a song ends in the state STOP if and only if the plugin has succeeded and no read, conversion or essential initial seek has failed since that plugin was tried; otherwise in the state ERROR. |
| `DecoderTheorems.AssertionsHold` | src/decoder/Bridge.cxx:300-355 | The assertions of FlushChunk, CommandFinished, GetSeekTime, SeekError, SetReady, SubmitData and RunThread hold in every run. |
| `DecoderTheorems.AckIsClean` | src/decoder/Thread.cxx:536-601 | In every run, a SEEK acknowledged without seek_error, by a running plugin or late, leaves no chunk in the pipe and no current chunk, if and only if it is not the acknowledgement of a failing decoder with chunks in the pipe. |
| `DecoderTheorems.OldChunksAreGone` | src/decoder/Bridge.cxx:300-340 | Every chunk is always newer than the last acknowledged SEEK, exactly in the runs without such an acknowledgement. |
| `DecoderTheorems.BlindAckHappens` | src/decoder/Thread.cxx:552-560 | There is a run with such an acknowledgement. |
| `DecoderBridge.RoomIsFrames` | src/MusicChunk.cxx:39-62 | The room in a chunk is whole frames and fits; there is none exactly when Expand() would call the chunk full. |
| `DecoderBridge.Bridge.GetChunk` | src/decoder/Bridge.cxx:119-141 | The current chunk, or a new empty one; none if and only if a command arrived while the buffer was full. |
| `DecoderBridge.Bridge.FlushChunk` | src/decoder/Bridge.cxx:143-157 | A chunk that is not empty goes to the pipe, and the decoded content is the same as before. |
| `DecoderBridge.Bridge.Copy` | src/decoder/Bridge.cxx:524-566 | The copy loop ends; the content grows by exactly the data, or by a prefix of it in whole frames if a command interrupts. |
| `DecoderBridge.Bridge.ConvertAndCopy` | src/decoder/Bridge.cxx:489-570 | The data before the end time is fed to the converter, whose result may depend on all it was fed since its last Reset(); the result is copied, and the frame counter advances by exactly the frames of the data if it was copied completely. |
| `DecoderBridge.Bridge.SubmitData` | src/decoder/Bridge.cxx:454-571 | What happens to the content, the frame counter and the result in each case: command pending, tag interrupted, past the end, conversion failed, interrupted, finished. Finished without an end time, all of the data was fed to the converter; with one, exactly the bytes before it, and the result is STOP if and only if the data goes up to it. Chunks hold whole frames within their capacity, and the counter never passes the end frame. |
| `DecoderBridge.Bridge.DoSendTag` | src/decoder/Bridge.cxx:221-240 | The tag is in a new chunk without data, after what was decoded before it. |
| `DecoderBridge.Bridge.UpdateStreamTag` | src/decoder/Bridge.cxx:242-261 | A stream tag wins over the song tag, which is used at most once. |
| `DecoderBridge.Bridge.SubmitTag` | src/decoder/Bridge.cxx:573-607 | During the initial seek the tag is only remembered; otherwise it is sent, merged with the stream tag. |
| `DecoderBridge.Bridge.CommandFinished` | src/decoder/Bridge.cxx:300-340 | After a seek there is no chunk, the converter starts over, and the frame counter is at the frame of the new time; after the initial seek only the counter moves; otherwise nothing changes. |
| `DecoderBridge.Drive` | src/decoder/Bridge.cxx:300-607 | Over any history of submissions, tags and seeks in which no command arrives while a submission waits for a chunk, the chunks hold the converted data since the last seek, cut off at the end time, in order, and the frame counter is the start frame plus the frames taken, as in a decoder without chunks. Without conversion and without an end time, the content is exactly the data submitted since the last seek. |
| `DecoderBridge.ToScaleIsFloor` | src/Chrono.hxx:184-186 | A time is converted to the last frame that does not start after it, and whole seconds are exact. |
| `DecoderBridge.WholeIsTaken` | src/decoder/Bridge.cxx:489-506 | Without an end time, all of the data is fed to the converter, the counter advances by all of its frames, and the end is not reached. |
| `DecoderBridge.PrefixIsTaken` | src/decoder/Bridge.cxx:489-506 | With an end frame ahead, exactly the bytes before it are fed to the converter, the counter advances by their frames, and the end is reached if and only if the data goes up to it. |
| `DecoderBridge.NothingIsLost` | src/decoder/Bridge.cxx:454-571 | Without conversion and without an end time, over any such history, the content is the data submitted since the last seek, byte for byte, and the counter is the frame of the seek position plus the frames of the content. |
| `SparseBuffer.SparseMap.Check` | src/util/SparseBuffer.cxx:32-65 | The exact extent of the hole at an offset and of the chunk after it. |
| `SparseBuffer.SparseMap.Commit` | src/util/SparseBuffer.cxx:67-77 | The range becomes defined, nothing else changes, and the chunks are disjoint and never adjacent. |
| `SparseBuffer.SparseMap.CollapsePrevious` | src/util/SparseBuffer.cxx:79-97 | Merging with the chunks before it defines nothing new and loses nothing, until it is apart from its predecessor. |
| `SparseBuffer.SparseMap.CollapseNext` | src/util/SparseBuffer.cxx:99-113 | The same for the chunks after it. |
| `BufferingInput.FillingHoles` | src/input/BufferingInputStream.cxx:139-171 | Committing a range that was a hole lowers the count of undefined bytes by exactly its length. |
| `BufferingInput.BufferingInputStream.IsAvailable` | src/input/BufferingInputStream.cxx:58-72 | Yes exactly at the end of the file, after an error, or if the byte is defined; otherwise the offset is left for the fill thread, unless another one is. |
| `BufferingInput.BufferingInputStream.Read` | src/input/BufferingInputStream.cxx:74-98 | Bytes are returned if and only if the first is defined or the offset is at the end, and they are the bytes of the file at that offset, at least one if any was asked for. |
| `BufferingInput.BufferingInputStream.FindFirstHole` | src/input/BufferingInputStream.cxx:100-114 | The least undefined offset, and none if and only if all of the file is defined. |
| `BufferingInput.BufferingInputStream.FillRound` | src/input/BufferingInputStream.cxx:116-175 | No byte becomes undefined, a read lowers the count of undefined bytes by what it read, a seek goes to a hole, and at a hole with data available the next round reads; the thread finishes only with the whole file, which is when the count is zero. |
| `BufferingInput.BufferingInputStream.Run` | src/input/BufferingInputStream.cxx:116-201 | Over any rounds, whatever clients ask for: without a stop or an error the thread ends only when every byte is defined, and the bytes it has read are exactly those that were undefined and are not any more. If there always is data, it ends within two rounds for each undefined byte, two more, and one for each want. |
| `RewindInput.RewindInputStream.Read` | src/input/RewindInputStream.cxx:78-117 | From the buffer or the inner stream, the bytes of the stream at the read position, none only at the end; the buffer is the beginning of the stream up to the inner position, at most 64 KiB. |
| `RewindInput.RewindInputStream.Seek` | src/input/RewindInputStream.cxx:119-140 | A successful seek moves the position and keeps the invariant; after a failed one the invariant holds if and only if the stream was not reading from its buffer. |
| `RewindInput.RewindInputStream.EofIsEnd` | src/input/RewindInputStream.cxx:60-62 | IsEOF() says yes exactly when the read position is at the end of the content, also while the buffer is being read again. |
| `RewindInput.FailedSeekMisreads` | src/input/RewindInputStream.cxx:132-139 | After such a failed seek, position 0 of a two-byte stream yields the second byte. |
| `RewindInput.Drive` | src/input/RewindInputStream.cxx:78-140 | Over any mix of reads and successful seeks, the stream answers like direct access to the content. |
| `PollBackend.PollBackend.Add` | src/event/PollBackend.cxx:36-48 | The vector and the map stay inverse, and the descriptor is registered. |
| `PollBackend.PollBackend.Modify` | src/event/PollBackend.cxx:50-61 | The same with new events and object. |
| `PollBackend.PollBackend.Remove` | src/event/PollBackend.cxx:63-78 | The same after swapping with the last entry: only this descriptor is gone. |
| `PollBackend.PollBackend.ReadEvents` | src/event/PollBackend.cxx:80-100 | Each descriptor that poll() calls ready is reported exactly once, with its events and its own object, although the loop stops at the count poll() returned. |
| `WinSelectBackend.ModifySet` | src/event/WinSelectBackend.cxx:44-61 | One array and its indices stay inverse through append and swap-remove, and membership changes for this socket only. |
| `WinSelectBackend.WinSelectBackend.Add` | src/event/WinSelectBackend.cxx:63-84 | Refused if and only if a needed array is full, and then nothing is left behind; otherwise the socket is registered for exactly the given events. |
| `WinSelectBackend.WinSelectBackend.Modify` | src/event/WinSelectBackend.cxx:86-102 | Refused if and only if an array is full that the socket is not in yet, and then nothing has changed. |
| `WinSelectBackend.WinSelectBackend.Remove` | src/event/WinSelectBackend.cxx:104-115 | Only this socket is gone from both arrays and the map. |
| `WinSelectBackend.WinSelectBackend.ReadEvents` | src/event/WinSelectBackend.cxx:117-170 | Each ready socket is reported exactly once, with the union of its events and its own object. |
| `DecimalText.StrtoulOfDecimal` | src/pcm/AudioParser.cxx:45-52 | A printed number followed by no digit is read back by strtoul(), with the rest of the text. |
| `DecimalText.StrtoulOfSigned` | src/pcm/AudioParser.cxx:45-52 | A sign before the number is accepted as strtoul() does, a negative number modulo 2^64. |
| `AudioFormat.ApplyMask` | src/pcm/AudioFormat.cxx:27-43 | Each field is the mask's where the mask sets it and the format's where it does not, and the result is valid. |
| `AudioFormat.MaskIsProjection` | src/pcm/AudioFormat.hxx:124-137 | A masked format matches the mask field by field, is unchanged exactly if it matched before, and is the only matching one that agrees with the original where the mask is silent. |
| `AudioFormat.ToStringFits` | src/pcm/AudioFormat.cxx:45-76 | The text of every representable format fits in the buffer of 24 characters with its terminator. |
| `AudioFormat.Print` | src/pcm/AudioFormat.cxx:45-76 | Writing through the pointer stays in the buffer and leaves the text and a terminator there. |
| `AudioFormat.ParsedIsValid` | src/pcm/AudioParser.cxx:135-188 | Whatever the text, a format that is parsed is valid, or valid as a mask if masks are allowed. |
| `AudioFormat.FormatRoundTrip` | src/pcm/AudioParser.cxx:55-111 | The name of every sample format is parsed back, and "*" only in a mask. |
| `AudioFormat.NamesOfFormats` | src/pcm/AudioParser.cxx:55-111 | The names "8", "16", "24", "32", "f" and "dsd" stand for the formats that users mean by them. |
| `AudioFormat.LimitsOfRate` | src/pcm/AudioParser.cxx:36-53 | A rate is accepted if and only if it is positive and less than 2^30. |
| `AudioFormat.LimitsOfChannels` | src/pcm/AudioParser.cxx:113-133 | A channel count is accepted if and only if it is 1 to 8. |
| `AudioFormat.TrailingTextIsRefused` | src/pcm/AudioParser.cxx:178-188 | A format followed by any text that does not continue the channel count is refused. |
| `AudioFormat.DsdNumberOf` | src/pcm/AudioFormat.cxx:51-55 | The number after "dsd" is eight times the multiple of 44100 up to 12173 times 44100 Hz, and wraps around after that. |
| `AudioFormat.RoundTrip` | src/pcm/AudioParser.cxx:135-188 | A format that is valid as a mask is parsed back from its text if and only if it is valid for the parser's mode and, for DSD at a multiple of 44100 Hz, that multiple is 4 to 512. |
| `AudioFormat.DsdShortcutParses` | src/pcm/AudioParser.cxx:141-160 | Every even number from 32 to 4096 after "dsd" is parsed as that multiple of 44100/8 Hz. |
| `AudioFormat.OldNameParses` | src/pcm/AudioParser.cxx:90-96 | The old name "24_3" of the 24 bit format is parsed, at any rate and channel count. |
| `AudioFormat.SlowDsdIsLost` | src/pcm/AudioParser.cxx:141-160 | DSD at 132300 Hz prints a text that is refused. |
| `AudioFormat.FastDsdIsMistaken` | src/pcm/AudioFormat.cxx:51-55 | DSD at 12178 times 44100 Hz prints a text that is parsed as 4 times 44100 Hz. |

## Left out

- Audio plugins, decoder plugins, PCM filters and converters, mixers, sockets, io_uring, files: foreign calls. What they return is an arbitrary choice within the asserted contracts.
- The plugin contract in `DecoderProtocol` is part of the model: a plugin begins a seek only after it was told to, ends it before it returns, sends no tag or replay gain in between, and calls CommandFinished only for a seek.
- The player in `DecoderProtocol` starts a decoder only when it is idle, with an empty pipe, as the callers in src/player/Thread.cxx do.
- Moving outputs between partitions (Steal, ReplaceDummy, AddMoveFrom): a second commanding thread.
- The end of the pipe after RELEASE of an `always_on` output, which stays open: the output's thread is modelled, but the player keeps the pipe.
- The fail timer of an output and the assertion that an open output has none: a filter that fails to reopen leaves the output open.
- The time stamps and bit rates of chunks, replay gain and MixRamp data: they do not affect which bytes are in which chunk.
- Fairness of the scheduler and real-time liveness: progress is stated as safety, that a wake-up is armed or a measure has decreased.
- TimerList.TimerList.Insert: models the linear search of the build without Boost; with Boost, timers with equal due times are ordered the other way round.
- TimerRefinement.Compare: callbacks do nothing, because callbacks that schedule timers would run at different times in the two structures. For callbacks that do anything, TimerRefinement.DriveWheel and TimerRefinement.DriveList say what each structure keeps.
- TimerWheel.TimerWheel.Insert: needs `now` to be no earlier than the wheel's lower bound on due times, which is `last_time` except while a run is told that the clock went back. The source asserts `last_time` in that case too, so its assertion fails if a callback of the ready list schedules a timer then, and the model goes on.
- EventLoop: the timer structures are what their own models prove about them, a map of due times and the duration that Run() returns; descriptors other than the wake descriptor become ready at any time.
- BufferingInput.BufferingInputStream.Run: the inner stream's Seek and Read are single steps, although they release the mutex; only the fill thread changes the buffer, so clients see the same. The file has a fixed size and content.
- RewindInput: mime type, size and the ready state, which only pass through; an exception from the inner Read, which changes nothing.
- DecoderBridge.Bridge.SubmitData, DecoderBridge.Bridge.ConvertAndCopy: the converter is any function of what it was fed since its last Reset(), and yields whole frames.
- MusicPipe: the mutex of the pipe; each method is one critical section.
- PollBackend and WinSelectBackend: the system calls themselves; what they report is a parameter. EpollBackend has no arrays to keep in step.
- Client commands, idle and noidle, playlists, tags and the database: mostly one-branch facts.
- ParseMoveDestination: its limits alone do not keep the destination in range, so no such claim is made.
