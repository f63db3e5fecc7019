# Heya: models and proofs

This project models eight components of the Heya media server in Dafny and proves what each of them is
for.  `dafny verify dfyconfig.toml` checks the whole project.

## What is modelled

**Atomic publication** (`internal/atomicfile`).  A directory maps names to inodes and inodes to bytes
(`Disk`).  Any number of Pendings, one goroutine each, interleave at every system call and at every
statement of the reference-counted lock table (`LockTable`, `Publication`); every system call may fail;
a run may stop anywhere.  A history records what was committed and which undo failed.
`PublicationSafety` shows step by step, and `PublicationRuns` over runs, an invariant from which
`PublicationTheorems` derives the promises.  `PendingFile` is the Pending as an object: its methods make
the system calls in the source's order and update its fields, and each is proved to be moves of that
machine by its goroutine alone, so that what holds of every run holds of the methods (`PendingRuns`).
It counts the system calls that fail although the directory allows them, and every method says exactly
when it succeeds.  `PublicationRetries` says what a second Rollback or a Commit does after a Rollback
that failed, and exactly when that is right; `PublicationTraps` holds runs in which it is not.

**The Cast v2 wire format** (`CastWire`).  Varints, the six-field envelope and length-prefixed frames,
as in the Protocol Buffers Encoding specification, sections "Base 128 Varints", "Message Structure" and
"Last One Wins".  `CastWireLayout` states the format byte by byte, without the functions that read and
write it.

**Cast sessions** (`CastSession` and the modules named after it).  Every method of a session is split
where it releases the mutex or calls a transport.  A locked section is a function of the fields; class
`Session` computes the same sections with assignments.  `CastSessionRuns` interleaves any number of
callers with one event loop per transport; transports start, stop and send events as they like.
`CastSessionCommands` says what each command does when nothing else happens meanwhile, `CastSessionEnds`
that a track that has ended stays ended.  `CastSessionLeaks` says exactly which transports outlive a
session; `CastSessionTraps`, `CastSessionOverwrites` and `CastSessionLosses` hold runs that show what a
session does not keep.

**The cast registry** (`CastRegistry`), **the login guard** (`LoginGuard`; `LoginGuardAdmission` says
exactly whom it lets in, on the calls alone), **the touch queue** (`TouchQueue`), **query telemetry**
(`QueryTelemetry`) and **album matching** (`AlbumMatching`, `Titles`, `Editions`; `AlbumMatchingIds` is
about the names of providers).  `Text` has the trimming and lower case that several of them use.

Times are integers in nanoseconds.  Everything that comes from outside (the clock, outcomes of system
calls, names from CreateTemp, events, the order in which a Go map is visited) is a parameter or a
nondeterministic choice.

## Results that are not what the source hopes for

- Rollback's comment calls it idempotent.  Once a Rollback of a published Pending has failed, a second
  one that succeeds replaces whatever the destination shows, without the lock: by the predecessor where
  the first could not put it back, even over a file that another Pending has committed since; by the
  staged file where the first had swapped back and could not remove it.  It is right exactly when the
  first could not put the predecessor back and nothing has been published there since, or when it puts
  back the very bytes that it replaces (`SecondRollbackIsRightIff`).  A Commit after that failed
  Rollback is always accepted, without the lock, and removes what was kept; a free destination shows
  what it accepted exactly when the first could not put the predecessor back and nothing has been
  published there since, or the staged bytes happen to be there (`LateCommitIsRightIff`).  The theorems
  over runs therefore ask that a Pending is left alone once its Rollback has failed after publication.
- Rollback frees the lock when a restore fails.  A free destination shows the last committed publication
  exactly when its last event is not such a failed undo, or one that left the same bytes.
- A session can leave a transport running after Stop.  A transport runs on exactly when the second
  locked section of spawnTransport, in an open session, replaced it while it ran and no goroutine was
  about to stop it, and it has not ended or failed by itself since (`RunsAfterStopIff`).  That happens
  to an overlapping command, to the late retry of a replaced transport, and to Resume over a receiver
  that paused by itself; without overlapping starts and such a Resume it does not happen
  (`OrderlySessionsFallSilent`).
- The loop of a replaced transport is not harmless when it had seen its transport fail: it can install
  the old track over the new one, or fail the session that plays it.  `ReplacedLoopActsIff` says exactly
  when it changes a field; replaced before that, it is harmless for good.
- Playback position does not jump when playback pauses, except that a failure during playback, and a
  native Resume that the receiver had already reported, forget the running interval, however long.
- A frame that is cut off right after its size reads like the end of the stream between two frames.
- A title that leaves a parenthesis open is grouped with its edition variants only when no letter or
  digit follows that parenthesis and a title without marker precedes it.
- A new session whose start fails takes a registered session with the same id out of the map by id.

## Model

| member | source | states |
|---|---|---|
| LockTable.MutualExclusion | internal/atomicfile/atomicfile.go:461-482 | under every interleaving of acquire and release, at most one goroutine holds the lock of a key |
| LockTable.SharedEntry | internal/atomicfile/atomicfile.go:461-472 | goroutines that hold or wait for locks share an entry exactly when they want the same key, and it is the one in the table |
| LockTable.InTableWhileCounted | internal/atomicfile/atomicfile.go:461-482 | while the table is unlocked, an entry is in it exactly while its count is positive, and the count is the number of holders and waiters |
| LockTable.EmptyWhenAllReleased | internal/atomicfile/atomicfile.go:474-482 | once all have released, the table is empty and every mutex is free |
| LockTable.NoDeadlock | internal/atomicfile/atomicfile.go:461-482 | while any goroutine is inside a call, some goroutine can move or release |
| PublicationTheorems.Serialisable | internal/atomicfile/atomicfile.go:113-300 | in every run, a destination whose lock is free shows the last publication in its history that was committed or whose undo failed, or else the original file or its absence |
| PublicationTheorems.CommittedUnlessStranded | internal/atomicfile/atomicfile.go:286-299 | a free destination shows the last committed publication if and only if its last event is not a failed undo, or one that left the same bytes |
| PublicationTheorems.NeverPartial | internal/atomicfile/atomicfile.go:113-300 | after every system call of every run, a destination shows its settled content or all bytes of a closed staged file whose Pending holds its lock |
| PublicationTheorems.ReadersFilesAreFrozen | internal/atomicfile/atomicfile.go:113-300 | no move changes the bytes of a file that is linked at a destination, and only the holder of the lock changes what a destination links to |
| PublicationTheorems.NothingLeftBehind | internal/atomicfile/atomicfile.go:349-395 | once every Pending is finished and no cleanup failed, no temporary, backup or reserved name is left, every destination shows its last committed publication, and the lock table is empty |
| PublicationTheorems.RolledBackLeavesNoTrace | internal/atomicfile/atomicfile.go:268-300 | a Pending rolled back without a failure is nowhere in the history, and none of its names is in the directory |
| PublicationTheorems.PredecessorIsKept | internal/atomicfile/atomicfile.go:110-155 | while a file is published and neither committed nor rolled back, what it replaced is readable under its backup or exchanged name, and its lock is held |
| PublicationRuns.RunKeeps | internal/atomicfile/atomicfile.go:47-300 | the invariant of the directory, the locks and the history over every run of any number of Pendings |
| PublicationRetries.SecondRollbackReplaces | internal/atomicfile/atomicfile.go:270-299 | in every reachable state after a failed Rollback of a published Pending of any of the three kinds, a second one that succeeds replaces what the destination shows by what the Pending kept, without the lock and without a place in the history |
| PublicationRetries.WhatIsKept | internal/atomicfile/atomicfile.go:280-298 | what an abandoned Pending kept is what its destination showed before the undo that failed, or its own staged bytes if it had swapped back |
| PublicationRetries.SecondRollbackIsRightIff | internal/atomicfile/atomicfile.go:268-299 | after a second Rollback the destination shows what all other publications leave there if and only if the first one could not put the predecessor back and nothing has been published there since, or it puts back the bytes that are there |
| PublicationRetries.LateCommitIsAccepted | internal/atomicfile/atomicfile.go:244-266 | in every reachable state after a failed Rollback of a published Pending, Commit is accepted without the lock, enters the history, changes no destination and deletes what the Pending kept unless that removal fails |
| PublicationRetries.LateCommitIsRightIff | internal/atomicfile/atomicfile.go:244-266 | a free destination then shows the publication that Commit accepted if and only if the Rollback could not put the predecessor back and nothing has been published there since, or the staged bytes are there |
| PublicationRetries.LateRelocateIsHarmless | internal/atomicfile/atomicfile.go:229-241 | after a failed Rollback, moving the predecessor changes no destination, nothing in the history, and not what a second Rollback would put back |
| PublicationTraps.SecondRollbackSwapsAgain | internal/atomicfile/atomicfile.go:280-285 | for an exchanged Pending, the second Rollback also deletes what the destination held |
| PublicationTraps.SecondRollbackLosesThePredecessor | internal/atomicfile/atomicfile.go:280-298 | a run in which that loses the predecessor and leaves bytes that nobody committed |
| PublicationTraps.SecondRollbackDeletesACommittedFile | internal/atomicfile/atomicfile.go:292-298 | a run of two Pendings in which the second Rollback of one deletes the file that the other has committed |
| PendingFile.Create | internal/atomicfile/atomicfile.go:47-63 | a staged file exactly when there is a destination and no system call fails; otherwise nothing and no destination changed |
| PendingFile.Handle.Write | internal/atomicfile/atomicfile.go:66-71 | bytes go to the staged file only while it is open; it succeeds exactly when the file is open and the call does not fail, and a failing write leaves a prefix |
| PendingFile.Handle.Close | internal/atomicfile/atomicfile.go:76-87 | the file is closed once, and the error of its sync or close is remembered |
| PendingFile.Handle.Retarget | internal/atomicfile/atomicfile.go:91-100 | the destination changes only before publication |
| PendingFile.Handle.TakeBackup | internal/atomicfile/atomicfile.go:484-527 | a private backup by link or, where links are refused, by copy, exactly when there is a destination and no other system call fails; no destination and no staged byte changes either way |
| PendingFile.Handle.Publish | internal/atomicfile/atomicfile.go:113-155 | succeeds exactly on a closed unpublished Pending whose staged file is there, when no system call fails; then the destination is the staged inode, a backup exists exactly if there was a destination, and the lock is held; otherwise no destination has changed and the lock is free |
| PendingFile.Handle.PublishIfAbsent | internal/atomicfile/atomicfile.go:164-196 | no error exactly when it may publish, the staged file is there and no system call fails; it then creates the destination exactly if there was none, and an existing one is never changed; where taking back the link failed it is the staged file although the call failed |
| PendingFile.Handle.Exchange | internal/atomicfile/atomicfile.go:202-225 | exactly when it may publish, both names are there and no system call fails, they change places; otherwise nothing changes |
| PendingFile.Handle.RelocateExchangedPrevious | internal/atomicfile/atomicfile.go:229-241 | what Rollback would put back is the same before and after, and it succeeds exactly when there is one and no system call fails |
| PendingFile.Handle.Commit | internal/atomicfile/atomicfile.go:244-266 | a published Pending is done even when its cleanup fails, no destination changes, and it reports an error exactly when nothing was published or the cleanup failed |
| PendingFile.Handle.Rollback | internal/atomicfile/atomicfile.go:270-300 | succeeds exactly when it is done already, or what it needs is there and no system call fails; then the destination is what Publish, PublishIfAbsent or Exchange replaced and the temporary name is gone; a done Pending changes nothing; the lock is free |
| PendingFile.WriteFile | internal/atomicfile/atomicfile.go:349-369 | succeeds exactly when the caller's writer does, there is a destination and no system call fails but a hard link; the destination ends with all the bytes on success and otherwise with all the bytes or as it was, no other destination changes, the Pending is finished either way, and success means that every cleanup succeeded |
| PendingFile.WriteFileIfAbsent | internal/atomicfile/atomicfile.go:374-395 | an existing destination is never changed and is no error; without an error a missing one is created with all the bytes, and there is none exactly when the writer succeeds, there is a destination and no system call fails; where taking back the link failed it has all the bytes although the call failed; the Pending is finished either way |
| PendingRuns.MethodsAreRuns | internal/atomicfile/atomicfile.go:113-300 | what a method of the object does in the middle of any run is that run continued by moves of its goroutine alone, all of which the theorems over runs allow |
| PendingRuns.Concludes | internal/atomicfile/atomicfile.go:349-395 | a whole call in the middle of any run, successful or not, leaves every other Pending alone; its own Pending, if no cleanup failed, is committed or nowhere in the history and the directory; and if all Pendings are clean, only committed publications are in the directory |
| PendingRuns.WriteInRun | internal/atomicfile/atomicfile.go:349-369 | in the middle of any run a Write, successful or not, concludes so and leaves its destination settled; after a successful one the last publication of that destination has all the bytes |
| PendingRuns.WriteIfAbsentInRun | internal/atomicfile/atomicfile.go:374-395 | the same for WriteIfAbsent; where there was a file, or nothing was created and no undo failed, the destination is as it was |
| PendingRuns.CleanCanLock | internal/atomicfile/atomicfile.go:461-482 | when every call is over, a goroutine finds every lock free |
| CastWire.VarintRoundTrip | internal/cast/castv2_wire.go:87-96 | every 64-bit value survives AppendUvarint and Uvarint, whatever follows, in at most ten bytes |
| CastWire.UvarintFits | internal/cast/castv2_wire.go:37-41 | a positive count stays within the input and within ten bytes, and the value within 64 bits |
| CastWireLayout.VarintBytes | internal/cast/castv2_wire.go:87-96 | a varint is groups of seven bits, the least significant first, all but the last with the top bit set, and stands for the value |
| CastWireLayout.OneVarint | internal/cast/castv2_wire.go:87-96 | only one such sequence without an empty group at its end stands for a value |
| CastWireLayout.UvarintReads | internal/cast/castv2_wire.go:37-41 | exactly the varints of at most ten bytes that stand for a 64-bit value are read, whatever follows |
| CastWire.UnmarshalEnvelope | internal/cast/castv2_wire.go:34-85 | the parser's loop terminates on every input, never slices out of range, and computes the field-by-field definition |
| CastWireLayout.FixedFields | internal/cast/castv2_wire.go:69-79 | fields of wire type 1 and 5 are eight and four bytes, and 3, 4, 6 and 7 are refused |
| CastWireLayout.VarintFields | internal/cast/castv2_wire.go:43-56 | fields of wire type 0 are a varint, those of type 2 a varint and as many bytes as it says, and which are refused |
| CastWireLayout.NoVarint | internal/cast/castv2_wire.go:37-52 | a message without a complete key, and a field without a complete varint, are refused |
| CastWire.FieldsCompose | internal/cast/castv2_wire.go:36-80 | parsing a complete field sequence and then more is parsing the rest from the first one's result |
| CastWire.LastOneWins | internal/cast/castv2_wire.go:57-66 | parsing succeeds exactly on complete field sequences, and each part is the last length-delimited value of its field number |
| CastWire.UnknownFieldsAreSkipped | internal/cast/castv2_wire.go:43-80 | fields with other numbers or of other kinds may stand at any field boundary without effect |
| CastWire.MarshalLayout | internal/cast/castv2_wire.go:23-32 | a marshalled envelope is the six fields of the message in order |
| CastWireLayout.MarshalBytes | internal/cast/castv2_wire.go:23-32 | a marshalled envelope byte by byte: the six keys, the two zeroes, and each text after its length |
| CastWire.EnvelopeRoundTrip | internal/cast/castv2_wire.go:23-85 | unmarshal undoes marshal if and only if source, destination and namespace are not empty; otherwise the envelope is refused as incomplete |
| CastWire.MarshalInjective | internal/cast/castv2_wire.go:23-32 | different envelopes have different wire forms |
| CastWire.Stream.ReadFull | internal/cast/castv2_wire.go:100-109 | all the bytes asked for, or an error that tells an empty stream from a short one |
| CastWire.Stream.ReadCastV2Frame | internal/cast/castv2_wire.go:98-111 | takes four bytes, most significant first, as the size, refuses 0 and more than 4 MiB, takes exactly as many more bytes, and returns their envelope or the error |
| CastWire.Stream.WriteCastV2Frame | internal/cast/castv2_wire.go:113-123 | appends the size of the message in four bytes, most significant first, and the message; refuses more than 4 MiB and writes nothing; or leaves a part when the writer fails |
| CastWire.StreamRoundTrip | internal/cast/castv2_wire.go:98-123 | reading the frames of any accepted list of envelopes gives the list back in order and leaves exactly what follows |
| CastWire.FrameBound | internal/cast/castv2_wire.go:103-117 | writer and reader refuse the same sizes |
| CastWireLayout.FrameBytes | internal/cast/castv2_wire.go:113-123 | a frame is the size of its message in four bytes, most significant first, and the message, up to 4 MiB |
| CastWire.TornFrame | internal/cast/castv2_wire.go:98-123 | a frame that was cut off is never read as an envelope, and reads as the end of the stream exactly when nothing or just its size arrived |
| CastSession.Session.PositionLocked | internal/cast/session.go:108-117 | start offset, accumulated time and running interval, never past a known duration |
| CastSession.Session.AccumulateLocked | internal/cast/session.go:249-255 | stops the running clock and keeps the position at that instant |
| CastSession.Session.InstallOrDiscard | internal/cast/session.go:153-166 | an open session installs the fresh transport, is Starting and stands at the start of its track; a closed one changes no field and hands the transport back to be stopped |
| CastSession.Session.HandleEvent | internal/cast/session.go:177-225 | an event of another transport changes no field; of the installed one, Ended leaves Stopped and Paused leaves Paused, both with the clock stopped, Playing and Resumed leave Playing with the clock started, a first failure before playback is retried, and the position is kept |
| CastSession.Session.PauseLocked | internal/cast/session.go:278-302 | keeps the position; AirPlay is Paused at it and gives up its transport; with a native receiver, or without playback, no field changes; and how it goes on |
| CastSession.Session.ResumeLocked | internal/cast/session.go:312-337 | changes no field but the retry flag; AirPlay starts again less than a second before the frozen position |
| CastSession.Session.SeekLocked | internal/cast/session.go:360-404 | the target lies in the track; a paused AirPlay session stands on it at once, any other one keeps its position until the seek takes effect |
| CastSession.Session.SoughtNatively | internal/cast/session.go:378-390 | stands on the target if the transport is still installed in an open session, and otherwise changes no field |
| CastSession.Session.PlayTrackLocked | internal/cast/session.go:416-427 | keeps the position and the installed transport, which is to be stopped |
| CastSession.Session.StopLocked | internal/cast/session.go:438-448 | the first Stop closes the session, which is Stopped with its clock, keeps the position and takes the installed transport to stop; a later one changes no field |
| CastSessionCommands.StartAlone | internal/cast/session.go:134-170 | spawnTransport on an open session runs a new transport, installs it at the start of the track and lets its loop listen |
| CastSessionCommands.ClosedStartsNothing | internal/cast/session.go:134-160 | on a closed one it starts nothing, and stops what was started meanwhile |
| CastSessionCommands.NativePauseAlone | internal/cast/session.go:283-296 | Pause on the receiver leaves Paused at the same position |
| CastSessionCommands.NativeResumeAlone | internal/cast/session.go:317-330 | Resume on the receiver leaves Playing with the clock started |
| CastSessionCommands.NativeSeekAlone | internal/cast/session.go:373-392 | Seek on the receiver keeps transport and state and stands on the target |
| CastSessionCommands.PauseAlone | internal/cast/session.go:298-306 | Pause without native control leaves Paused at the same position and the transport stopped |
| CastSessionCommands.ResumeAlone | internal/cast/session.go:332-337 | Resume then sets out to start the track at the whole second of the position |
| CastSessionCommands.SeekAlone | internal/cast/session.go:394-409 | Seek without native control stops the transport and sets out to start at the target, or moves the frozen position |
| CastSessionCommands.PlayTrackAlone | internal/cast/session.go:415-432 | PlayTrack stops the transport, allows another retry and report and sets out to start the next track |
| CastSessionCommands.StopAlone | internal/cast/session.go:437-460 | Stop leaves a closed stopped session and its transport stopped |
| CastSessionCommands.FailureAlone | internal/cast/session.go:214-231 | the first failure before playback is retried with the same track, any other fails the session |
| CastSessionCommands.PlaysAlone | internal/cast/session.go:187-202 | the first report of playback starts the clock and sends one now-playing report of an audio track |
| CastSessionEnds.NothingStartsAfterTheEnd | internal/cast/session.go:206-213 | in every run, after the end of the installed transport with no start under way, nothing starts a transport until Seek or PlayTrack is called, Resume included |
| CastSessionEnds.EndedStaysEnded | internal/cast/session.go:206-213 | the same from any such state, in every continuation, with the ended transport still the installed one |
| CastSessionTheorems.NoGhostPlayback | internal/cast/session.go:134-170 | in every run, once the session is closed and the calls in flight have returned, no transport runs but one that was overwritten while it ran |
| CastSessionLeaks.LeakedAfter | internal/cast/session.go:153-166 | a move leaves a transport running, replaced and in nobody's hands exactly when it was so and has not ended by itself, or when this move installs another over it in an open session while nobody is about to stop it |
| CastSessionLeaks.RunsAfterStopIff | internal/cast/session.go:134-170 | in every run, once the session is closed and the calls in flight have returned, a transport runs if and only if some move did that to it and no later move is its own end |
| CastSessionTheorems.StoppedBeforeStopReturns | internal/cast/session.go:437-456 | the transport that the first Stop found is stopped before that Stop returns |
| CastSessionTheorems.StartedIsInstalledOrStopped | internal/cast/session.go:150-161 | a transport that started was installed, or is stopped before spawnTransport returns |
| CastSessionTheorems.ClosedInstallsNothing | internal/cast/session.go:134-160 | a closed session stays closed and installs no transport in any continuation |
| CastSessionTheorems.ReplacedStaysReplaced | internal/cast/session.go:161-168 | a transport that was replaced is never installed again |
| CastSessionTheorems.ReplacedLoopActsIff | internal/cast/session.go:172-231 | in every run, a move of the loop of a replaced transport changes a field exactly when it installs its retry in an open session or records a failure in an open session that has not failed |
| CastSessionTheorems.StaleEventsChangeNothing | internal/cast/session.go:172-181 | a transport replaced before its loop saw it fail: in every continuation no move of its loop changes a field |
| CastSessionTheorems.OrderlySessionsFallSilent | internal/cast/session.go:134-170 | while no goroutine sets out to install a transport when another is about to, and nobody resumes over an AirPlay transport, none is overwritten, and nothing runs once the session is closed and the calls in flight have returned |
| CastSessionBounds.BoundedRetries | internal/cast/session.go:214-225 | automatic restarts number at most one plus the Resume, Seek and PlayTrack calls |
| CastSessionBounds.BoundedReports | internal/cast/session.go:187-200 | now-playing reports of audio tracks number at most one plus the PlayTrack calls |
| CastSessionClock.PositionIsInTrack | internal/cast/session.go:108-117 | in every run the position is not negative and not past a known duration |
| CastSessionClock.PositionDoesNotJump | internal/cast/session.go:187-213 | every move but a new start position keeps the position at its instant, except the two that forget exactly the running interval |
| CastSessionClock.SeekLandsOnTarget | internal/cast/session.go:359-410 | when a seek takes effect, at once, on the receiver or with a fresh transport, the position is the second asked for, within the track |
| CastSessionClock.NeverFasterThanWallTime | internal/cast/session.go:108-117 | without Seek and PlayTrack the position never outruns the time since the start |
| CastSessionClock.PausesLoseUnderASecondEach | internal/cast/session.go:298-337 | n AirPlay pauses and resumes in turn lose less than n seconds and never gain |
| CastSessionTraps.OverlappingStartsOutliveStop | internal/cast/session.go:153-166 | a run in which a transport runs on after Stop because a second install overwrote it |
| CastSessionTraps.LateFailureFailsTheNextTransport | internal/cast/session.go:226-231 | a run in which the failure of a replaced transport fails the session that plays the next |
| CastSessionOverwrites.LateRetryReplacesTheNextTrack | internal/cast/session.go:214-225 | a run in which the retry of a replaced transport puts the old track back over the new one, whose transport runs on after Stop |
| CastSessionOverwrites.ResumeOverThePausedReceiverOutlivesStop | internal/cast/session.go:332-337 | a run with one command at a time in which Resume overwrites the transport of a receiver that paused by itself, and it runs on after Stop |
| CastSessionLosses.FailureForgetsTheInterval | internal/cast/session.go:214-231 | for every length of playback, a run with a forward clock in which a failure takes the position back by it |
| CastSessionLosses.ResumeForgetsTheInterval | internal/cast/session.go:317-330 | for every duration of a native Resume call, a run with a forward clock in which the receiver's own report had restarted the clock and the position falls back by it |
| CastRegistry.Manager.Register | internal/cast/cast.go:276-296 | the session of the endpoint is reused, refused to others, or registered in both maps |
| CastRegistry.Manager.RemoveSession | internal/cast/cast.go:340-348 | the endpoint entry goes only if it is this session; the id entry goes |
| CastRegistry.Manager.Play | internal/cast/cast.go:245-303 | exactly when Play succeeds, always with a session of this user on this device; a failure leaves the endpoints as they were, and the ids too but for a registered session with the id of the new one |
| CastRegistry.MapsAgree | internal/cast/cast.go:276-348 | under every interleaving with fresh ids the two maps hold the same sessions, each under its own key |
| CastRegistry.OneSessionPerReceiver | internal/cast/cast.go:350-362 | registered sessions on one physical receiver are one session |
| CastRegistry.EndpointsAreReceivers | internal/cast/cast.go:350-362 | two devices have one endpoint if and only if they have one IP address, or else one host name in either case, or else, without an address, one id |
| CastRegistry.FreshIdIsNeeded | internal/cast/cast.go:285-295 | registering keeps the maps consistent if and only if the id is not registered |
| CastRegistry.RefusedOrFailedChangesNothing | internal/cast/cast.go:278-301 | a refused Play leaves both maps as they were, and a new session whose start fails does if and only if its id was not registered |
| CastRegistry.LateRemoveIsHarmless | internal/cast/cast.go:340-348 | a removal that comes late takes no other session with it |
| LoginGuard.Guard.Allow | internal/auth/login_guard.go:76-99 | both buckets are charged after the sweep, the answer is their conjunction, and one counter goes up |
| LoginGuard.Guard.ClearAccount | internal/auth/login_guard.go:114-121 | forgets the account's bucket and keeps the addresses |
| LoginGuard.Guard.SweepLocked | internal/auth/login_guard.go:166-196 | terminates; keeps everything unexpired that fits, evicts accounts only when no address is left, and stops when the maps fit |
| LoginGuardTheorems.SweepIsInvisible | internal/auth/login_guard.go:166-180 | while no bucket that is still filling is evicted, the guard answers every run as one that never deletes an entry |
| LoginGuardTheorems.NoOverflowIsHarmless | internal/auth/login_guard.go:184-195 | a run in which the overflow loop never fires evicts no such bucket |
| LoginGuardTheorems.DropUnnoticedIffFull | internal/auth/login_guard.go:101-109 | forgetting a key is unnoticed by all later attempts if and only if its bucket is full |
| LoginGuardTheorems.AddressBound | internal/auth/login_guard.go:20-21 | in a window of any length an address that is not evicted is let through at most 10 times and once more per 30 seconds |
| LoginGuardTheorems.AccountBound | internal/auth/login_guard.go:22-23 | an account is let through at most 5 times, 5 more for each ClearAccount, and once more per 180 seconds |
| LoginGuardAdmission.AdmittedIff | internal/auth/login_guard.go:76-109 | an attempt is let in if and only if no stretch of time up to it would hold more than 10 tokens of its address and one for each 30 seconds, nor, since it was last cleared, more than 5 of its account and one for each 180 seconds |
| LoginGuardAdmission.BurstIsAdmitted | internal/auth/login_guard.go:20-23 | with fewer than ten earlier attempts from the address and fewer than five on the account an attempt is let in |
| LoginGuardAdmission.SixthAtOnceIsRefused | internal/auth/login_guard.go:20-23 | of attempts at one instant on a new account the first five are let in, as far as the account goes, and no more |
| LoginGuardAdmission.SweepDrops | internal/auth/login_guard.go:166-196 | nothing is dropped up to 4096 entries; beyond, what was not seen for an hour, and of the rest only what does not fit, addresses first |
| LoginGuardAdmission.AttemptIsSeen | internal/auth/login_guard.go:101-109 | an attempt marks both entries as seen, let in or not, and leaves the others |
| LoginGuardTheorems.MapsAreBounded | internal/auth/login_guard.go:89-91 | in every reachable state the two maps hold at most 4098 entries |
| TouchQueue.AsyncSessionLookup.QueueSessionTouch | internal/auth/session.go:69-91 | a hash is queued unless it is pending, the queue is full or the lookup is closed; otherwise nothing changes |
| TouchQueue.AsyncSessionLookup.RunTouch | internal/auth/session.go:99-103 | the oldest hash leaves the queue and the pending set |
| TouchQueue.PendingIsHeldOnce | internal/auth/session.go:69-112 | under every interleaving a hash is pending exactly when one of the channel, the worker and the callers holds it, and then only one |
| TouchQueue.TouchesNeverOverlap | internal/auth/session.go:93-106 | a hash being written is not queued, none is queued twice, and at most 256 are |
| TouchQueue.TakenInOrder | internal/auth/session.go:82-103 | the worker takes every queued hash once and in order |
| TouchQueue.NothingLeaks | internal/auth/session.go:82-112 | with no call and no write in progress exactly the queued hashes are pending |
| TouchQueue.ClosedTakesNothing | internal/auth/session.go:93-98 | after the worker has returned nothing leaves the queue |
| TouchQueue.CallersNeverWait | internal/auth/session.go:82-90 | a caller's select can always go on, by its default exactly when 256 hashes are queued and the lookup is open |
| TouchQueue.CallAlone | internal/auth/session.go:69-91 | a call that nobody interrupts queues its hash at the end unless it is pending or the queue is full, and then changes nothing |
| TouchQueue.TurnAlone | internal/auth/session.go:93-106 | a turn of the worker takes the oldest hash out of the queue and of the pending set |
| QueryTelemetry.Collector.TraceQueryEnd | internal/diagnostics/query.go:142-192 | the fields agree with the whole history extended by this end |
| QueryTelemetry.Collector.OrderedSamplesLocked | internal/diagnostics/query.go:304-312 | exactly the last samples of the history that fit the ring, oldest first |
| QueryTelemetry.Collector.TakeSnapshot | internal/diagnostics/query.go:210-271 | totals of the history, and per statement the calls, errors and durations in the window |
| QueryTelemetryTheorems.AggregatesAgree | internal/diagnostics/query.go:163-185 | every aggregate is the summary of exactly the ends counted under its name |
| QueryTelemetryTheorems.SummaryMeans | internal/diagnostics/query.go:172-185 | counts, sums, longest duration, and the times and code of the latest end and the latest failure |
| QueryTelemetryTheorems.LatestSample | internal/diagnostics/query.go:158-190 | an end is recorded under its own statement if that is tracked or there is room for one more beside the other statements |
| QueryTelemetryTheorems.FewStatementsAreTracked | internal/diagnostics/query.go:158-166 | while fewer distinct statements than the maximum were seen, each is tracked and recorded under its own name |
| QueryTelemetryTheorems.TotalsAgree | internal/diagnostics/query.go:158-181 | calls and errors of the statements add up to all ends and all failures |
| QueryTelemetryTheorems.TrackedIsCapped | internal/diagnostics/query.go:163-171 | the map never exceeds its maximum |
| QueryTelemetryTheorems.TrackedStaysTracked | internal/diagnostics/query.go:163-171 | a statement tracked under its own name stays so, with all its later ends |
| QueryTelemetryTheorems.RecentViewIsComplete | internal/diagnostics/query.go:227-271 | recent calls and errors summed over the rows are those of all samples in the window |
| QueryTelemetryTheorems.WindowMeans | internal/diagnostics/query.go:228-248 | what a snapshot counts, by statement and failure, are exactly the samples of the last 60 seconds, with their durations in order |
| QueryTelemetryTheorems.PercentileRank | internal/diagnostics/query.go:341-352 | the result is one of the values: more values than its share of the gaps lie at or below it, and no more than that share below it |
| Titles.NormalizeTitle | internal/discography/discography.go:290-298 | keeps the lower-case ASCII letters and digits, in order |
| Titles.NormalizedLetter | internal/discography/discography.go:290-298 | which single characters are kept, and as what |
| Titles.NormalizedAppends | internal/discography/discography.go:290-298 | titles are normalised piece by piece |
| Titles.NormalizedIsNormal | internal/discography/discography.go:290-298 | a normalised title normalises to itself |
| Titles.QualifiedNamesShareAFamily | internal/discography/discography.go:237-251 | a provider name and its forms qualified by a colon or an underscore are one family |
| Titles.FamilyIsTheName | internal/discography/discography.go:237-251 | the family of a provider is its name in lower case without white space and qualifier, and musicbrainz for mbid and mb |
| Titles.FamiliesOfNames | internal/discography/discography.go:237-251 | two plain names are one family if and only if they are equal or both among mbid, mb and musicbrainz |
| Titles.AtoiItoa | internal/discography/discography.go:211-218 | a year printed and parsed again is itself |
| Titles.SameYearIsCompatible | internal/discography/discography.go:256-266 | the exact-year match is a special case of the compatible-year one |
| Titles.YearsCompatibleIff | internal/discography/discography.go:253-266 | printed years are compatible if and only if they are at most one year apart |
| Titles.UnknownYearIsCompatible | internal/discography/discography.go:257-263 | an unknown or unreadable year is compatible with every year |
| Titles.FourDigits | internal/discography/discography.go:211-213 | how a year of four digits is printed |
| AlbumMatching.EntryIds | internal/discography/discography.go:164-175 | the entry's ids by provider family and overall, in lower case and without blanks |
| AlbumMatching.MatchesIds | internal/discography/discography.go:183-203 | decides whether an album shares an id with an entry |
| AlbumMatching.MatchLocalAlbums | internal/discography/discography.go:150-235 | both nested-loop passes compute the stated greedy matching |
| AlbumMatchingTheorems.FirstInListIsTaken | internal/discography/discography.go:179-232 | of the albums that fit and are free, the first in the list is taken |
| AlbumMatchingTheorems.EachAlbumOnce | internal/discography/discography.go:143-156 | each album is linked to at most one entry |
| AlbumMatchingTheorems.EveryLinkIsJustified | internal/discography/discography.go:143-149 | every link rests on a shared id, or on equal titles and compatible years |
| AlbumMatchingTheorems.NoFittingPairIsLeft | internal/discography/discography.go:158-233 | an album that fits an entry left without one is linked to another |
| AlbumMatchingTheorems.TitlesNeverStealFromIds | internal/discography/discography.go:146-148 | an album linked by title shares no id with an entry that the id pass left without one |
| AlbumMatchingTheorems.ExactYearFirst | internal/discography/discography.go:216-232 | an entry misses an album of its title and exact year only when that album was linked before |
| AlbumMatchingIds.IdMatchIff | internal/discography/discography.go:158-203 | for plain provider names, an album fits by ids if and only if its MusicBrainz column holds an id of the entry, or both have the id under one provider |
| AlbumMatchingIds.OtherProvidersDoNotLink | internal/discography/discography.go:158-163 | an album whose ids stand only under other providers, with another title, is not linked |
| AlbumMatchingIds.SameProviderLinks | internal/discography/discography.go:181-209 | an album with an id under the same provider is not left over while the entry is |
| AlbumMatchingIds.OnePairIff | internal/discography/discography.go:150-235 | one entry and one album are linked if and only if they share an id so, or title and year fit |
| AlbumMatchingIds.DistantYearsDoNotLink | internal/discography/discography.go:253-266 | without shared ids, an album more than one year away is not linked |
| AlbumMatchingIds.NearYearsLink | internal/discography/discography.go:224-232 | an album of the same title at most one year away, or of unknown year, is not left over while the entry is |
| Editions.EditionKey | internal/discography/discography.go:278-288 | the loop terminates and strips trailing edition markers until none is left or nothing would remain |
| Editions.EditionWords | internal/discography/discography.go:268-272 | a marker names an edition if and only if one of the fourteen words stands in it, in either case |
| Editions.OtherQualifiersStay | internal/discography/discography.go:268-272 | a qualifier in parentheses that names no edition is part of the key |
| Editions.NoMarkerIsLeft | internal/discography/discography.go:278-288 | no marker is left on the base title, unless nothing else would be |
| Editions.KeyIsItsOwnKey | internal/discography/discography.go:274-277 | the key of a key is the key |
| Editions.VariantSharesTheKey | internal/discography/discography.go:268-277 | a title and its variant with an edition marker share a key if and only if the title closes its parentheses, or no letter or digit follows its first open one and a non-empty title that ends in no marker precedes it |
| Editions.OpenParenthesisSplitsTheGroup | internal/discography/discography.go:272-288 | a title with an open parenthesis whose variant has another key |

## Left out

- Durability: fsync, SyncParent and what a power loss keeps; a run that stops models a crashed process, not a lost disk.
- Symbolic links, file modes, directories other than the destination's, and path cleaning: names are cleaned paths in one directory.
- CreateTemp names and reserved names are assumed unique; inode numbers in use are not handed out again.
- ExchangePaths, Reserve, Copy, CopyIfAbsent, and Produce with its external producer.
- Handle.RelocateExchangedPrevious: moves to a fresh private name only; onto a path that exists it would replace that file.
- Handle.Publish: alone, it is stated for a lock that nobody holds, because one object cannot wait; waiting is in `LockTable` and `Publication`.
- Handle.Exchange: for a lock that nobody holds, as Publish.
- Handle.PublishIfAbsent: for a lock that nobody holds, as Publish.
- WriteFile: for a lock that nobody holds, as Publish.
- WriteFileIfAbsent: for a lock that nobody holds, as Publish.
- WriteInRun: for a lock that nobody holds, as Publish.
- WriteIfAbsentInRun: for a lock that nobody holds, as Publish.
- Handle.Rollback: for a Pending on which it has not failed after publication; what a second Rollback, Commit and RelocateExchangedPrevious do then is in `PublicationRetries`, on the machine only and not in longer runs.
- Strings longer than a 64-bit length, and a reader that returns other errors than the end of its stream.
- Session: volume, snapshots, the contents of playback reports and the removal from the registry; whole seconds of a position are exact rather than rounded through a float.
- A transport is an object with a start outcome, a stop and arbitrary events; ffmpeg, cliap2, mDNS, TLS and the receivers behind it are not part of this model.
- Media URLs and tokens in Play, device discovery, and Manager.Start and Stop.
- The parsing of IP addresses: a device carries the canonical form of its address.
- newSessionID collisions: runs assume fresh ids; FreshIdIsNeeded and RefusedOrFailedChangesNothing say what a collision breaks.
- The rate limiter is a token bucket over integers; its float rounding is not modelled.  The clock is assumed not to go back between calls.
- AccountKey and TokenHash are opaque: a model takes their result.
- BeginPasswordCheck and Stats of the login guard.
- Counters of 64 bits are unbounded integers.
- SanitizeStatement: statements are opaque texts; queries whose trace is suppressed never reach the collector.
- Collector.TakeSnapshot: rates, averages, the sorting of rows and durations and the cut to twelve rows are not part of it.
- EntryIds: letters of ids outside ASCII are not lower-cased, except the two whose lower case is an ASCII letter; titles are exact.
- MatchesIds: as EntryIds.
- discography.Sync against the database.
