# Whist: protocols and flow control, verified

Whist streams an application from a server to a client. Much of its `protocol/` directory is
hand-written coordination: several threads, a few flags, a mutex or a semaphore, and a comment
that says what is guaranteed. This project models those protocols in Dafny and proves the
guarantees over every schedule, input or run. Where a guarantee does not hold of the code, the
project keeps the code as it is, gives a concrete run that breaks the guarantee, and proves
when it does hold.

Concurrent code is a state machine: a `State`, a `Step` per critical section, semaphore
operation or access to shared memory, `Enabled` and `Apply`, an invariant, and theorems over
all reachable states. Memory is sequentially consistent. Sequential code that updates objects
is a class whose methods are proved against functions on values; the laws are lemmas about
those functions.

| files | what they model |
|---|---|
| `ClipboardChunks` | cutting a clipboard into START/MIDDLE/FINAL chunks and putting it together again |
| `ClipboardSync`, `ClipboardSyncProofs`, `ClipboardSyncTheorems`, `ClipboardSyncProgress`, `ClipboardSyncPulls` | the clipboard synchronizer: transfer threads that publish pointers to their locals, aborts, the one-slot queue for setting the OS clipboard |
| `ClipboardPoll` | when a poll of the local clipboard reports an update |
| `ClientActivation`, `ClientActivationProofs`, `ClientActivationProgress`, `ClientActivationLocks` | the client activation lock, its rwlock, and the manager loop that connects and tears down |
| `CursorCache`, `CursorRecency`, `CursorLockstep` | the LRU cursor caches of server and client, which never exchange their state |
| `FrameHandoff`, `FrameHandoffTheorems` | the two-buffer hand-over of encoded frames to the packet thread |
| `EncoderFactory`, `EncoderTheorems`, `EncoderUpdates` | the asynchronous encoder factory of the video thread |
| `RenderHandoff`, `RenderHandoffTheorems` | the hand-over of frames from the network thread to the video and audio renderers |
| `AudioScaling`, `AudioScalingHistory`, `AudioSampling` | the two audio controllers: the scale of the queue target, and duplicate/drop decisions |
| `AudioPlayback`, `AudioPlaybackTheorems` | the buffering/playing machine and its fixed-size buffer |
| `AudioDevice`, `AudioDeviceProofs`, `AudioDeviceTheorems`, `AudioDeviceWitness` | how full the audio device gets, with both controllers and both threads |
| `ImageClosure`, `ImageClosureLoop`, `ImageBuilder`, `ImageBuilderProofs`, `ImageBuilderTheorems`, `ImageRoots` | the mandelbox image builder: dependency closure and threaded traversal |
| `Wrappers` | `Option` |

What turned out not to hold of the code:

* The audio device can hold more than the largest target of 32 frames. `audio_ready_for_frame`
  reads the device length before it reads the pending flag; a render that completes in between
  makes the length stale. 34 frames is the exact bound (`DeviceBound`, `DeviceBoundAttained`);
  32 can be exceeded exactly when a ready call accepts a packet for which the device, looked at
  again at that moment, has no room (`DeviceBoundExactly`), and never when no render completes
  between the two reads (`DeviceBoundUndisturbed`). The run that reaches 34 is an
  extreme one: no packets for the first minute, with a ready call every 5 s (the code's loop
  calls far more often); then 32 packets at once; then, from 60 s to 62 s, a device that plays
  nothing, a network that brings only two packets, and an audio thread that stalls for 1 s. The
  bounds speak of any network and of a device that may drain as slowly as it likes.
* A clipboard poll that observes content it does not recognise leaves the skip flag of an
  earlier remote set up, and the next local copy is swallowed (`SwallowedCopy`; `CopyAndNoSet`
  gives the exact condition).
* A cursor whose hash is 0 at a recovery point looks unchanged to the server, and the client's
  assertion fails (`ZeroHashCrashes`; `Lockstep` shows that this is the only way, for every
  eviction policy that goes by the order of use).
* "All images built successfully!" covers only images that lead to a root: an image on a
  dependency cycle, or with an empty dependency name, is listed and never built
  (`CycleReportedBuilt`, `EmptyNameReportedBuilt`). `RootlessExactly` and `BuiltExactly` show
  that after success the images not built are exactly those whose dependencies run into one or
  the other.

Parameters instead of constants: the clipboard chunk size (any positive number; the code has
1000000) and the size of the cursor caches (any number; the code has 20). Real numbers stand for
doubles. Times, device lengths, capture and decoder results, docker exit codes, try-lock
results and thread ids are inputs.

## Model

| member | source | states |
|---|---|---|
| ClipboardSyncTheorems.OneSetter | protocol/whist/clipboard/clipboard_synchronizer.c:334-373 | in every reachable state at most one push thread is inside set_os_clipboard, and the flag is up exactly when one is |
| ClipboardSyncTheorems.WritesInCompletionOrder | protocol/whist/clipboard/clipboard_synchronizer.c:203-217 | the OS clipboard is written in the order the pushes completed, each write by the push that was latest when it took the slot, none twice; thread ids may be reused |
| ClipboardSyncTheorems.OvertakenNeverSets | protocol/whist/clipboard/clipboard_synchronizer.c:334-360 | a completed push that a later one has overtaken leaves without setting; one that takes the slot is the latest to have completed |
| ClipboardSyncTheorems.LastWriterWins | protocol/whist/clipboard/clipboard_synchronizer.c:334-373 | once no thread can run, the last write is that of the last completed push, with the bytes and type of its stream, and nobody is left waiting for the slot |
| ClipboardSyncProgress.NotQuietMoves | protocol/whist/clipboard/clipboard_synchronizer.c:269-373 | until everything is quiet some thread has a step of its own to take, without a new call or a spurious wake-up |
| ClipboardSyncProgress.OwnRunsEnd | protocol/whist/clipboard/clipboard_synchronizer.c:269-441 | the threads' own steps are bounded, and complete and receive nothing |
| ClipboardSyncProgress.LastPushIsWritten | protocol/whist/clipboard/clipboard_synchronizer.c:334-373 | left alone, every run of own steps that cannot be continued ends quiet with the last completed push written |
| ClipboardSyncTheorems.PublishedPointersAreLive | protocol/whist/clipboard/clipboard_synchronizer.c:126-175 | every published pointer belongs to the active worker, which is live with neither flag set; a set-up worker with neither flag set is the active one and its flags are published |
| ClipboardSyncTheorems.SleepersHaveReason | protocol/whist/clipboard/clipboard_synchronizer.c:319-348 | a worker asleep and unsignalled has been told neither to abort nor that it is complete, or waits for a slot that is taken |
| ClipboardSyncTheorems.WrittenClipIsOneStream | protocol/whist/clipboard/clipboard_synchronizer.c:493-555 | whatever interleaves, a written clipboard is the concatenation in arrival order of one START…FINAL stream with the START chunk's type |
| ClipboardSyncTheorems.CompletionsAreTheStreams | protocol/whist/clipboard/clipboard_synchronizer.c:493-555 | the completed pushes are exactly the whole streams among the arrivals, both directions |
| ClipboardSyncTheorems.PullsSendTheClip | protocol/whist/clipboard/clipboard_synchronizer.c:580-621 | a completed pull has sent the whole transfer of the clipboard it read, an aborted one a prefix of it |
| ClipboardSyncPulls.UpdateStartsPull | protocol/whist/clipboard/clipboard_synchronizer.c:580-584 | a poll that finds an update, whatever was going on, and four steps of the caller and the new thread lead to an active pull of the clipboard read, with nothing sent |
| ClipboardSyncPulls.PollSendsNext | protocol/whist/clipboard/clipboard_synchronizer.c:586-621 | each poll on an active pull sends the next chunk of the clipboard it has read, and completes it exactly with the last |
| ClipboardSyncPulls.IdlePollDoesNothing | protocol/whist/clipboard/clipboard_synchronizer.c:586-590 | a poll with no update and no active pull changes nothing |
| ClipboardSyncProofs.StepKeeps | protocol/whist/clipboard/clipboard_synchronizer.c:177-240 | every step of callers and threads keeps the invariant on flags, pointers, slot, queue, history and streams |
| ClipboardSyncProofs.Reachable | protocol/whist/clipboard/clipboard_synchronizer.c:126-621 | the invariant holds after every schedule |
| ClipboardChunks.PullShape | protocol/whist/clipboard/clipboard_synchronizer.c:595-621 | for any size and any positive chunk size: one START, ceil(max(0, size − chunk)/chunk) MIDDLEs, one empty FINAL |
| ClipboardChunks.RemainingShape | protocol/whist/clipboard/clipboard_synchronizer.c:595-621 | the chunks after START are full MIDDLEs but for the last, then an empty FINAL |
| ClipboardChunks.RemainingBytes | protocol/whist/clipboard/clipboard_synchronizer.c:595-621 | the chunks still to come carry exactly the bytes not yet pulled |
| ClipboardChunks.PushAllBytes | protocol/whist/clipboard/clipboard_synchronizer.c:511-552 | pushing a START and later chunks gives the START's type and all bytes in order |
| ClipboardChunks.PullPushIdentity | protocol/whist/clipboard/clipboard_synchronizer.c:511-621 | pulling a clipboard and pushing its chunks rebuilds the same type and bytes |
| ClipboardChunks.PullTransfer.PullChunk | protocol/whist/clipboard/clipboard_synchronizer.c:595-621 | one pull cuts the next chunk off what remains |
| ClipboardChunks.PushTransfer.PushChunk | protocol/whist/clipboard/clipboard_synchronizer.c:511-552 | one push overwrites on START and appends otherwise |
| ClipboardChunks.PullAll | protocol/whist/clipboard/clipboard_synchronizer.c:595-621 | pulling until FINAL ends and gives all the chunks |
| ClipboardChunks.Transfer | protocol/whist/clipboard/clipboard_synchronizer.c:511-621 | pulling on one side and pushing on the other yields the same clipboard |
| ClipboardPoll.OsClipboard.UnsafeHasUpdated | protocol/whist/clipboard/mac_clipboard.c:49-85 | the change-counter poll, against its function on values |
| ClipboardPoll.OsClipboard.HasUpdated | protocol/whist/clipboard/clipboard.c:143-169 | the poll with try-lock and skip flag, against its function on values |
| ClipboardPoll.OsClipboard.Set | protocol/whist/clipboard/clipboard.c:102-123 | a remote set raises the skip flag; text and images advance the counter |
| ClipboardPoll.AheadMeansAdvanced | protocol/whist/clipboard/mac_clipboard.c:58-84 | the counter is ahead exactly when something advanced it since the last observing poll |
| ClipboardPoll.SkipMeansSet | protocol/whist/clipboard/clipboard.c:116-166 | the skip flag is up exactly when a set came since the last recognised observation |
| ClipboardPoll.PollExactly | protocol/whist/clipboard/clipboard.c:156-168 | what a poll reports, by the history alone: recognised change and no set since the last recognised observation |
| ClipboardPoll.CopyAndNoSet | protocol/whist/clipboard/clipboard.c:156-168 | an observing poll says "local copy and no remote set since the last observing poll" if and only if a set came since then, or the content is recognised and no set is left over from before |
| ClipboardPoll.CopyAndNoSetWhenRecognised | protocol/whist/clipboard/clipboard.c:156-168 | when all observations were recognised the poll reports exactly local copies without a remote set |
| ClipboardPoll.SwallowedCopy | protocol/whist/clipboard/mac_clipboard.c:70-81 | a run in which an unrecognised observation makes a later local copy go unreported |
| ClipboardPoll.FailedPollsLoseNothing | protocol/whist/clipboard/clipboard.c:156-168 | a poll without the lock, or before the data is ready, changes nothing and reports nothing |
| ClipboardPoll.ServerNeverReports | protocol/whist/clipboard/mac_clipboard.c:75-78 | a peer that does not preserve its local clipboard never reports an update |
| ClipboardPoll.BoardIsLastWrite | protocol/whist/clipboard/mac_clipboard.c:199-246 | the pasteboard holds what was last written, by a copy or by a set of text or an image, and its data is there at once or when it has come |
| ClipboardPoll.ObservedIsLastWrite | protocol/whist/clipboard/mac_clipboard.c:70-73 | what an observing poll leaves for get_os_clipboard to read is what was last written |
| ClipboardPoll.SetIsNotPlayedBack | protocol/whist/clipboard/clipboard.c:116-163 | the poll that observes a set sees its kind and does not report it |
| ClientActivationProofs.NeverCrashes | protocol/server/client.c:77-159 | no FATAL_ASSERT fails in any run of the manager loop with any number of workers |
| ClientActivationProofs.HolderHasClient | protocol/server/client.c:161-219 | while a lock is held the client is active and connected, and the manager neither connects nor tears down |
| ClientActivationProofs.ConnectionStableWhileHeld | protocol/server/main.c:505-547 | over any stretch of a run in which a worker holds a lock, the connection id does not change and the sockets stay open |
| ClientActivationProofs.ReadLockNeverBlocks | protocol/server/client.c:161-209 | a worker in read_lock holding the mutex meets no holding or waiting writer, and can go on |
| ClientActivationProofs.NoLostWakeUp | protocol/server/client.c:117-209 | no worker sleeps unsignalled while the client is lockable or permanently deactivated; the manager sleeps only while some worker holds a lock |
| ClientActivationProofs.NoNewLocksWhileDeactivating | protocol/server/client.c:89-145 | once deactivation has begun, no step adds a reader |
| ClientActivationLocks.LockGrantedExactly | protocol/server/client.c:161-209 | a lock attempt, blocking or not, goes on to read_lock exactly when the client is active and not deactivating; otherwise a try, or any attempt on a permanently deactivated client, comes back without, and the rest sleep; the mutex is free again |
| ClientActivationLocks.LockIsTaken | protocol/server/client.c:161-209 | on such a client the attempt ends with a lock held and one more reader |
| ClientActivationLocks.AttemptBegins | protocol/server/client.c:161-175 | with the mutex free an attempt can begin, and a sleeper look again |
| ClientActivationLocks.ConnectActivates | protocol/server/main.c:507-525 | a successful connect leads to an active, lockable client with the id drawn and to every sleeper signalled |
| ClientActivationLocks.FailedConnectRetries | protocol/server/main.c:518-524 | a failed connect leaves the client inactive and the manager at the top of its loop |
| ClientActivationLocks.DeactivationStarts | protocol/server/client.c:89-99 | a disconnect and any holder can start deactivation |
| ClientActivationLocks.ManagerNotices | protocol/server/main.c:528-531 | two turns of the manager lead from the flag into deactivate_client |
| ClientActivationLocks.DisconnectCloses | protocol/server/main.c:531-547 | after it the sockets are closed and the manager can connect again |
| ClientActivationProofs.DeactivationProceeds | protocol/server/client.c:117-145 | with deactivation under way and no lock held, the manager's next step brings it forward, or the holder of the mutex gives it back in one step; the last step leaves the client inactive |
| ClientActivationProgress.NothingHinders | protocol/server/client.c:117-219 | inside deactivate_client no step of anyone raises the number of locks out plus the manager's steps to come |
| ClientActivationProgress.HelpIsPossible | protocol/server/client.c:117-219 | inside deactivate_client some lock holder, mutex holder or the manager can always take a step that serves it |
| ClientActivationProgress.DeactivationEnds | protocol/server/client.c:117-145 | runs of such steps are bounded, and one that cannot be continued has left the client inactive |
| ClientActivationProgress.WindingIsPossible | protocol/server/main.c:619-628 | once the program is exiting, some step that serves the shutdown is possible until the manager has finished |
| ClientActivationProgress.ShutdownEnds | protocol/server/main.c:619-628 | runs of such steps are bounded, and one that cannot be continued leaves the client permanently deactivated and nobody asleep unsignalled |
| ClientActivationProofs.UnlockLowers | protocol/server/client.c:211-219 | a holder can always unlock, and that lowers the number of readers |
| ClientActivationProofs.StepKeeps | protocol/server/client.c:77-219 | every step of workers and manager keeps the invariant |
| ClientActivationProofs.Reachable | protocol/server/main.c:505-628 | the invariant holds after every schedule, shutdown included |
| CursorCache.CursorCache.Check | protocol/whist/cursor/cursor.cpp:131-140 | a hit returns the entry and makes it the most recently used |
| CursorCache.CursorCache.Add | protocol/whist/cursor/cursor.cpp:92-129 | a new entry is the most recent, and the least recently used goes when there are too many |
| CursorCache.CursorCache.FindOldest | protocol/whist/cursor/cursor.cpp:115-124 | the search finds the least recently used entry |
| CursorCache.CursorCache.Clear | protocol/whist/cursor/cursor.cpp:77-84 | no entry is left, the access counter goes on |
| CursorCache.AddedOk | protocol/whist/cursor/cursor.cpp:92-129 | an addition keeps the size limit and the access indices distinct |
| CursorRecency.HoldsMostRecent | protocol/whist/cursor/cursor.cpp:92-140 | after any uses the cache holds exactly the cursors that were used and have had fewer than the maximum number of others used after them |
| CursorLockstep.CursorSender.Populate | protocol/server/video.c:208-238 | the server's choice of cursor for a frame, against its function on values |
| CursorLockstep.CursorReceiver.ShowCursor | protocol/client/video.cpp:262-288 | the client's handling of a frame's cursor, with its assertions as a result |
| CursorLockstep.RecoveryLinks | protocol/server/video.c:208-213 | a recovery point brings two arbitrary caches into step, unless the cursor hashes to 0 |
| CursorLockstep.FrameKeepsLink | protocol/client/video.cpp:262-288 | from caches in step, every frame renders, keeps them in step, and hits exactly when the server sent a cached cursor |
| CursorLockstep.LruOrderDetermined | protocol/whist/cursor/cursor.cpp:114-128 | the code's choice of the entry to evict depends only on the entries and their order of use |
| CursorLockstep.LruLockstep | protocol/client/video.cpp:262-288 | the next row for the code's own policy |
| CursorLockstep.Lockstep | protocol/client/video.cpp:262-288 | for any eviction policy that goes by the order of use, over any sequence of frames from a recovery point on, an assertion fails if and only if some recovery point's cursor hashes to 0; otherwise the caches agree and the hash shown is the server's |
| CursorLockstep.ClientShowsServerCursor | protocol/server/video.c:208-238 | when hashes identify cursors the client shows exactly the server's current cursor, under any such policy |
| CursorLockstep.ZeroHashCrashes | protocol/server/video.c:210-218 | a one-frame run in which the client's assertion fails |
| FrameHandoffTheorems.RaceFree | protocol/server/video.c:243-252 | the buffer being sent is never the one being written; it is the frame last handed over, with its id |
| FrameHandoffTheorems.StableWhileSending | protocol/server/video.c:510-539 | nothing done while a frame is being sent changes it, its id or the index |
| FrameHandoffTheorems.TakenExactlyOnceInOrder | protocol/server/video.c:338-359 | frames are taken once each, whole, in order, with the id they were handed over with; ids grow |
| FrameHandoffTheorems.TakenAsEncoded | protocol/server/video.c:185-252 | the frames taken are the first of those encoded, in order, with their ids and unchanged, but for the padding of empty ones |
| FrameHandoffTheorems.NeverBothBlocked | protocol/server/video.c:510-539 | until shutdown the two threads are never both blocked |
| FrameHandoffTheorems.ShutdownEnds | protocol/server/video.c:917-920 | after the request to exit the packet thread is never blocked, its steps are the only ones, and each brings it nearer to its exit |
| EncoderTheorems.OneNvidia | protocol/server/video.c:374-457 | at most one NVIDIA encoder alive, none while an encoder is being created, at most one factory thread |
| EncoderTheorems.DestroyedAtMostOnce | protocol/server/video.c:104-157 | no encoder is destroyed twice; those in use or waiting to be adopted have not been destroyed |
| EncoderTheorems.EncoderAtTransfer | protocol/server/video.c:661-810 | transfer_capture never gets a NULL encoder, through all capture failures, reconfigurations and factory timings |
| EncoderUpdates.ChangeAsks | protocol/server/video.c:685-698 | the encoder is updated exactly when a request is open or the network settings have changed |
| EncoderUpdates.ReconfiguredInPlace | protocol/server/video.c:384-395 | an encoder that can be reconfigured stays in use and the request is served |
| EncoderUpdates.FinishedIsAdopted | protocol/server/video.c:400-412 | a finished factory encoder is put into use, the old one destroyed once, and no request or pending encoder is left |
| EncoderUpdates.UnfinishedIsAwaited | protocol/server/video.c:400-412 | until then the old encoder stays in use and the request open |
| EncoderUpdates.NextIsStarted | protocol/server/video.c:413-454 | otherwise an NVIDIA encoder is destroyed and the next made at once, and for an FFmpeg one the factory is started while it stays in use |
| EncoderUpdates.NewDeviceTakesOver | protocol/server/video.c:140-153 | with a new device a finished encoder is taken over, an unfinished one waited for, and an update requested |
| EncoderUpdates.FailedCapture | protocol/server/video.c:272-286 | a failed capture closes the device and with it an NVIDIA encoder |
| EncoderUpdates.StopDestroys | protocol/server/video.c:923-928 | the encoder in use does not outlive the loop |
| EncoderUpdates.AdoptedIsNew | protocol/server/video.c:374-457 | whatever happens while the encoder ordered for a refused request is pending, the update that finds it finished puts into use an encoder created after the request |
| EncoderUpdates.RefusedRequestEnds | protocol/server/video.c:90-102 | the factory's two steps and one round of the loop lead to that update |
| RenderHandoffTheorems.NeverStranded | protocol/client/renderer.c:215-264 | once video has been rendered no reachable state has a pending audio frame, the audio thread blocked, a zero semaphore and no post due; the same for video at any time |
| RenderHandoffTheorems.FirstVideoPosts | protocol/client/renderer.c:215-231 | from the first frame shown to the renderer's flag, two steps of the video thread bring the post |
| RenderHandoffTheorems.AlwaysReady | protocol/client/audio.cpp:655-679 | the "wasn't ready" branches of audio and video are unreachable; a pending context is never overwritten |
| RenderHandoffTheorems.AudioInOrder | protocol/client/renderer.c:127-153 | audio frames are rendered once each in the order accepted; only a pending one is outstanding |
| RenderHandoffTheorems.VideoInOrder | protocol/client/video.cpp:175-258 | received video frames are handed to the decoder once each in order; only a pending one is outstanding |
| RenderHandoffTheorems.AllBroughtAreAccepted | protocol/client/audio.cpp:655-679 | every frame the network thread brings is put into the render context, except audio it is told to drop |
| RenderHandoffTheorems.WantsExactly | protocol/client/sync_packets.cpp:133-146 | the network thread goes on to receive exactly when there is a packet and the context is free (and, for audio, has room), or audio is to be dropped |
| RenderHandoffTheorems.NoAudioBeforeVideo | protocol/client/renderer.c:215-264 | no audio is rendered before video has been |
| AudioScaling.AdaptiveParameterController.HandleScaling | protocol/client/audio.cpp:266-272 | the controller's update, against its function on values |
| AudioScaling.AdaptiveParameterController.HandleScalingDown | protocol/client/audio.cpp:177-211 | the scale-down half |
| AudioScaling.AdaptiveParameterController.HandleScalingUp | protocol/client/audio.cpp:214-240 | the scale-up half |
| AudioScaling.ScaleAlwaysInRange | protocol/client/audio.cpp:166-240 | the scale stays between 1 and 4 on every run |
| AudioScaling.ScaleMoves | protocol/client/audio.cpp:177-240 | a scale-down lowers and a scale-up raises the scale unless it is at its limit; never both in one call; otherwise it stays |
| AudioScaling.ScaleUpsSpaced | protocol/client/audio.cpp:214-240 | a scale-up comes more than 6 s after every earlier change of scale |
| AudioScaling.FirstScaleUpLate | protocol/client/audio.cpp:249-253 | the first scale-up comes more than 8 s after the start |
| AudioScaling.ScaleDownExactly | protocol/client/audio.cpp:177-211 | a scale-down happens exactly when the current stretch without scale change or unsafe length is older than 45 s, all lengths in it were above 4 frames, and one of them was below the controller's infinity of 99999 |
| AudioScaling.StretchExists | protocol/client/audio.cpp:184-189 | every point of a run has such a stretch |
| AudioScalingHistory.ScaleDownAmount | protocol/client/audio.cpp:193-206 | a scale-down leaves a target of max(8, t - min(m, t) + 4), for the target t before and the smallest length m of the stretch |
| AudioScalingHistory.ScaleUpAmount | protocol/client/audio.cpp:229-235 | a scale-up multiplies the scale by 1.5, up to 4 |
| AudioScalingHistory.RiskyExactly | protocol/client/audio.cpp:214-227 | an observation is a risky moment exactly when the queue is below 2 frames and the last mark (change, expiry or risky moment) is more than the cool-down and at most 30 s ago |
| AudioScalingHistory.ExpiresExactly | protocol/client/audio.cpp:216-220 | the count expires exactly when the last mark is more than 30 s ago and the scale does not go down |
| AudioScalingHistory.ScaleUpExactly | protocol/client/audio.cpp:223-235 | the scale goes up exactly at the third risky moment since the last change or expiry |
| AudioSampling.ExpandWindow | protocol/client/audio.cpp:345-404 | the running-sum loop finds the smallest window of 8 or more newest samples whose mean meets the needed-samples rule, or none does |
| AudioSampling.QueueLenController.HandleSampling | protocol/client/audio.cpp:325-404 | a call does what the smallest window that meets the rule says, or only records |
| AudioSampling.QueueLenController.HandleOverflowing | protocol/client/audio.cpp:407-432 | the overflow flag and the forced drop |
| AudioSampling.SamplingDeterministic | protocol/client/audio.cpp:325-404 | that description fixes the outcome of a call |
| AudioSampling.EarlyDecisionsAct | protocol/client/audio.cpp:362-399 | a window of fewer than 50 samples decides only to duplicate or drop |
| AudioSampling.MeetsByDistance | protocol/client/audio.cpp:362-376 | a window of n < 50 decides exactly when n times the distance of its mean from the target is at least 180 |
| AudioSampling.VerdictTowardsTarget | protocol/client/audio.cpp:377-399 | a verdict does nothing exactly within 1.2 frames of the target; beyond, it duplicates below and drops above |
| AudioSampling.SamplesAreNewest | protocol/client/audio.cpp:331-338 | the queue holds the newest lengths, 50 at most, recorded since it was last emptied |
| AudioSampling.CommandsAreDecisions | protocol/client/audio.cpp:376-401 | the sampling calls that end in a command are exactly those whose smallest window decides to act |
| AudioSampling.QueueBounded | protocol/client/audio.cpp:335-338 | the sample queue never exceeds 50 |
| AudioSampling.CommandsSpaced | protocol/client/audio.cpp:327-399 | two sampling-driven commands are at least 8 fresh samples and 160 ms apart, whatever calls come between |
| AudioSampling.OverflowLatches | protocol/client/audio.cpp:256-263 | for every scale the controller can reach, no call switches overflow on and off; the flag is a plain hysteresis |
| AudioSampling.OverflowForcesDrop | protocol/client/audio.cpp:407-432 | for every reachable scale the command after a call is Drop exactly when that hysteresis is on, and is left alone otherwise |
| AudioSampling.FlickerExactly | protocol/client/audio.cpp:407-432 | flicker is impossible exactly for scales from one twelfth up |
| AudioPlayback.AudioContext.constructor | protocol/client/audio.cpp:501-529 | playback starts buffering, with nothing buffered and nothing handed over |
| AudioPlayback.AudioContext.RenderAudio | protocol/client/audio.cpp:719-788 | rendering one packet, against its function on values; a duplicate is sent only while playing |
| AudioPlayback.AudioContext.Deliver | protocol/client/audio.cpp:753-788 | one decoded frame is played, buffered, or flushed after the buffer, inside the allocation |
| AudioPlayback.AudioContext.Keep | protocol/client/audio.cpp:778-782 | the copy appends to the buffer in place |
| AudioPlaybackTheorems.Conservation | protocol/client/audio.cpp:742-788 | in every session the bytes handed over followed by the buffer are the decoded stream, playing means an empty buffer, and the fill is at most 31 frames of 33, whatever the decoded sizes and however the target changes |
| AudioPlaybackTheorems.PacketConserves | protocol/client/audio.cpp:742-788 | the same from any good state, for one packet |
| AudioPlaybackTheorems.HandedOnlyGrows | protocol/client/audio.cpp:762-786 | what was handed over is never taken back or reordered |
| AudioPlaybackTheorems.PlayingStartsFull | protocol/client/audio.cpp:762-771 | playing starts with the whole buffer and the new frame, more than the target less one frame |
| AudioPlaybackTheorems.PlaysExactly | protocol/client/audio.cpp:759-771 | a frame that is buffered, or finds the device dry, starts the playing exactly when kept and new bytes exceed (target - 1) times 3840 |
| AudioPlaybackTheorems.StartsAtTarget | protocol/client/audio.cpp:742-788 | n full-size frames from empty are still kept exactly when n <= target - 1 |
| AudioPlaybackTheorems.FirstFramesAreKept | protocol/client/audio.cpp:742-788 | up to there nothing is handed over, whatever the device says |
| AudioPlaybackTheorems.AllocationSize | protocol/client/audio.cpp:524-527 | the allocation is one frame above the largest target and the fill limit one below |
| AudioDeviceTheorems.DeviceBound | protocol/client/audio.cpp:555-625 | in every run the device holds at most 34 frames |
| AudioDeviceTheorems.DeviceBoundExactly | protocol/client/audio.cpp:555-681 | a schedule can take the device above 32 frames if and only if one of its ready calls accepts a packet that the device, at that moment, has no room for |
| AudioDeviceTheorems.OverfullStraddles | protocol/client/audio.cpp:565-624 | only a call during which a render completed accepts too much |
| AudioDeviceTheorems.DeviceBoundUndisturbed | protocol/client/audio.cpp:618-624 | it holds at most 32 when no render completes between the length read and the flag read of a ready call |
| AudioDeviceWitness.DeviceBoundAttained | protocol/client/audio.cpp:565-624 | a run, with both controllers as in the code and packets accepted only when counted, that puts 34 frames into the device |
| AudioDeviceTheorems.BufferingMeansDry | protocol/client/audio.cpp:485-493 | while frames are held back the device is empty, and while playing the buffer is |
| AudioDeviceTheorems.FrameLengths | protocol/client/audio.cpp:753-788 | a frame handled on lengths agrees with the same frame handled on bytes in AudioPlayback: state, fill, and what the device gains |
| AudioDeviceTheorems.BeginLengths | protocol/client/audio.cpp:719-738 | so does the start of a render: dry check and number of sends |
| AudioDeviceTheorems.DecideExactly | protocol/client/audio.cpp:616-681 | when a call takes a packet and what becomes of the packet, the command, the device and the renderer |
| AudioDeviceTheorems.ResampleOverflows | protocol/client/audio.cpp:600-614 | a call overflows as the hysteresis says and then drops; while buffering it forgets its samples |
| AudioDeviceTheorems.OverflowDrains | protocol/client/audio.cpp:612-624 | every call that overflows is ready, and its packet leaves the pending frame, the device and the renderer as they were |
| AudioDeviceProofs.StepKeeps | protocol/client/audio.cpp:555-788 | every step keeps the invariant that bounds device, frames to come and the network thread's reading |
| ImageClosureLoop.CloseDependencies | mandelboxes/scripts/build_mandelbox_image.py:97-110 | the loop ends; it fails exactly when a needed image has no Dockerfile; otherwise the graph holds exactly the needed images with their dependencies and is closed |
| ImageBuilderTheorems.BuiltAtMostOnce | mandelboxes/scripts/build_mandelbox_image.py:183-206 | under every interleaving no image is built twice |
| ImageBuilderTheorems.DependencyFirst | mandelboxes/scripts/build_mandelbox_image.py:154-206 | a build starts only after the build of its dependency succeeded |
| ImageBuilderTheorems.OnlyBelowRoots | mandelboxes/scripts/build_mandelbox_image.py:186-226 | only images that lead to a root are ever built |
| ImageBuilderTheorems.StatusIsSubtree | mandelboxes/scripts/build_mandelbox_image.py:207-218 | a call returns 0 exactly when its whole subtree was built |
| ImageBuilderTheorems.ExitStatus | mandelboxes/scripts/build_mandelbox_image.py:222-237 | the script exits with 0 exactly when every image that leads to a root was built |
| ImageBuilderTheorems.AllBuiltExactly | mandelboxes/scripts/build_mandelbox_image.py:222-237 | after exit 0 every listed image was built if and only if every listed image leads to a root |
| ImageRoots.RootlessExactly | mandelboxes/scripts/build_mandelbox_image.py:99-110 | in a closed graph an image leads to no root if and only if its dependencies run into a cycle or an empty name |
| ImageRoots.BuiltExactly | mandelboxes/scripts/build_mandelbox_image.py:183-237 | after exit 0 a listed image was built if and only if its dependencies run into neither |
| ImageRoots.DeadEndNeverStarted | mandelboxes/scripts/build_mandelbox_image.py:183-226 | in no run is an image started whose dependencies run into a cycle or an empty name |
| ImageRoots.CycleReportedBuilt | mandelboxes/scripts/build_mandelbox_image.py:222-237 | a run that reports success with an image that depends on itself not built |
| ImageRoots.EmptyNameReportedBuilt | mandelboxes/scripts/build_mandelbox_image.py:108-108 | a run that reports success with an image whose dependency name is empty not built |
| ImageBuilderTheorems.FailureStops | mandelboxes/scripts/build_mandelbox_image.py:229-237 | after a failed root no later root is started |
| ImageBuilderTheorems.NeverStuck | mandelboxes/scripts/build_mandelbox_image.py:207-218 | until the script exits some step is possible |
| ImageBuilderTheorems.RunsEnd | mandelboxes/scripts/build_mandelbox_image.py:180-237 | every run is finite: n images take at most n(3n + 4) + 2n + 1 steps |
| ImageBuilderProofs.StepKeeps | mandelboxes/scripts/build_mandelbox_image.py:154-237 | every step keeps the invariant on calls, layers, joins, dictionary entries and roots |

## Left out

- FFmpeg, ALSA, SDL, X11, the Windows and X11 clipboard backends, Docker and the network: their results are inputs of the models.
- Integer widths: sizes, counters, frame ids and cache access indices are unbounded; 32-bit overflow is not modelled.
- Memory: allocation failure, freeing of buffers and the lifetime of packets between get_packet and free_packet are not modelled.
- Weak memory orders: plain flags shared by threads are treated as sequentially consistent.
- The 10 s limit on deactivation, sleeps, time-outs of network reads, logging, statistics and plotting.
- Joining and freeing of finished clipboard threads, and a failed thread creation beyond its effect on the transfer.
- Encoders that create_new_device overwrites without destroying them, and the age of the parameters of an adopted encoder: the code promises neither.
- Encoder creation that fails: the process ends there.
- GPU packets, which pass through the same loop as video and audio without a renderer that blocks.
- ClientActivationProofs.NeverCrashes: other users of the sockets that do not hold a ClientLock are not modelled, because the code makes no promise about them.
- CursorLockstep.ClientShowsServerCursor: assumes that equal hashes mean equal cursors, as the code does; all cursors captured in relative mouse mode get one hash there, and their pictures are not told apart.
- FrameHandoffTheorems.TakenExactlyOnceInOrder: a frame handed over just before shutdown may never be taken.
- EncoderTheorems.OneNvidia: assumes that reconfiguring never changes the kind of an encoder.
- AudioDeviceTheorems.DeviceBoundUndisturbed: one direction only; a disturbed call may still find room. The exact condition is in AudioDeviceTheorems.DeviceBoundExactly.
- AudioDeviceTheorems.DeviceBound: assumes one full-size decoded frame per packet sent to the decoder and a device that otherwise only drains.
- ClipboardPoll.CopyAndNoSet: the change-counter backend only; what lies on the clipboard at the start counts as a local copy.
- ImageBuilder: the termination of sibling builds after a failure shows only as arbitrary exit codes; exceptions inside a thread are not modelled.
- The Go services, mouse and keyboard handling, frame layout, ring buffer, FEC, throttling and window geometry: not part of this model; what is left of them is easy beside the above or lies in files outside it.
