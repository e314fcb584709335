# SENSOR Remote: a verified model

SENSOR Remote connects two computers for chat, file transfer and remote desktop. This project models the protocol,
state and arithmetic code at its core in Dafny and proves what that code is for. The operating system, the network and
the cryptographic primitives are parameters: every file operation may fail and every write may stop after any prefix, a
socket may move any number of bytes, threads may interleave at any step, and the hash, the cipher and the signatures
are functions with ideal laws that each theorem names in its `requires`.

| files | what they model |
|---|---|
| `Permissions`, `Names`, `Files`, `Receiver`, `DirectoryInvariant` | consent, file names and the receiving side of resumable file transfer over a directory with failing operations |
| `Endpoint`, `Server`, `SessionTrace`, `SessionEffects`, `Sender`, `Resumption`, `Delivery` | the session loop with its audit trail, the sending loop, any number of sessions, honest or hostile, over one directory, and the completion of those left in peace |
| `Incremental`, `Framing`, `SecureStream`, `Connection`, `Duplex` | length-delimited frames in arbitrary pieces, sealed records with consecutive numbers, the connections above a socket that may stop anywhere, and a reader and a writer that overlap |
| `Injection`, `DesktopSession` | input injection, and the remote desktop as interleaved atomic steps of host loop, host reader and viewer |
| `Fragments`, `Flight`, `AdaptiveRate` | cutting pictures into messages and back, the window of unacknowledged pictures, and the rate controller |
| `Pixels`, `Avx2`, `Conversion`, `Colour`, `Rotation` | colour conversion in place, its eight-lane form with 32-bit lanes, and what the conversions mean |
| `Sockets`, `Bridge`, `Pacing`, `Relay`, `HandOver`, `Tunnel`, `Fairness`, `Throughput` | the nonblocking pumps, rate limiting and its limits, runs of the whole path between two local programs, and that under fair turns everything arrives |
| `Rendezvous` | the directory of listening devices under many connection threads |
| `AuditChain` | the signed audit log, its verifier over arbitrary buffers and its writer |
| `ClipboardEcho` | clipboard sharing between two endpoints that must not send texts back and forth |

Code that changes state is a class whose methods are proved equal to a specification function for every outcome of
every call; the theorems are about those functions and about runs of them. `dafny verify dfyconfig.toml` checks all of
it.

## Where the code and its descriptions differ

- An oversized text sent on an unsplit connection is refused without closing it, although every other failed send
  closes. On a split connection the same error closes both halves. `Connection.SecureConnection.SendBytes` and
  `Connection.SecureWriter.Send` state both exactly.
- The relay's rate limit is exact at due times (`Pacing.DueTimesKeepTheLimit`). At the times of actual forwarding, which
  may be later, a window can exceed it by the two messages at its ends, not one: `HandOver.LimitCanBeExceeded` is such a
  run, and `HandOver.BunchingNeedsLateness` with `HandOver.OnTimeIffFree` is the exact condition, a destination that was
  still writing, or a loop that was not running, when the first of the two was due.
- A display selection that the host takes off its queue in the same turn in which the adaptive controller changes the format
  is dropped: the new generation is of the old display. `DesktopSession.DisplaysFollowRequests` is the exact condition.
- A higher bit rate can show fewer pictures: under the Performance profile the step to five megabits a second goes from 60
  to 30 pictures a second. `AdaptiveRate.HigherRatesShowMore` is the exact condition.
- The window of pictures in flight is described as a quarter of a second of data. Below 2097152 bits a second its lower
  bound of 64 KiB is more than that: `Flight.WindowOpensForAQuarterSecond`.
- The audit verifier protects every record but the last one's signature, and records rather than bytes: a line that
  reads as the same record is accepted. `AuditChain.OnlyBeginningsAreAccepted` is the exact condition.
- After an append that was torn inside its line the audit log can never be opened again:
  `AuditChain.TornAppendIsFound`.
- An empty encoded picture produces no fragment and so never arrives: `Fragments.SessionDeliversExactly`.
- A clipboard edit made while sharing is off is sent later, unless a poll noticed that it was off:
  `ClipboardEcho.EditWhileOff` is exact whatever else happens in between.
- A registration keeps a sender of its own channel, so the rendezvous loop can never see that channel disconnected; a
  replaced listener ends by the presence check instead. The model has no such branch.

## Model

| member | source | states |
|---|---|---|
| Permissions.SubsetTestDecidesInclusion | crates/sensor-session/src/permissions.rs:51-56 | the bitwise subset test holds if and only if the sets of allowed permissions are included, for every mask the wire admits |
| Permissions.KnownMasksAreTheirMeaning | crates/sensor-session/src/permissions.rs:35-47 | two masks accepted off the wire that allow the same permissions are the same mask |
| Permissions.MaskIsShift | crates/sensor-session/src/permissions.rs:48-53 | each permission's mask is one bit, shifted to its number |
| Permissions.OfIsKnown | crates/sensor-session/src/permissions.rs:35-50 | every mask built from permissions is accepted by the wire conversion, unchanged |
| Permissions.OfAllowsItsValues | crates/sensor-session/src/permissions.rs:48-53 | a mask built from a list of permissions allows exactly those on the list |
| Permissions.PermittedWasGranted | crates/sensor-session/src/permissions.rs:105-142 | a consent lets through exactly what was granted, and nothing outside the active stage |
| Permissions.PermittedWasRequested | crates/sensor-session/src/permissions.rs:105-142 | what a consent lets through is in the granted set, which stays inside the requested one |
| Permissions.Consent.Accept | crates/sensor-session/src/permissions.rs:105-115 | only a pending consent accepts, only a subset of the request, and an error changes nothing |
| Permissions.Consent.Reject | crates/sensor-session/src/permissions.rs:116-123 | rejection is possible once, from the pending stage, and leaves nothing granted |
| Permissions.Consent.ChangePermissions | crates/sensor-session/src/permissions.rs:124-133 | only an active consent changes, only inside the request |
| Permissions.Consent.Require | crates/sensor-session/src/permissions.rs:134-142 | succeeds if and only if the consent is active and grants the permission |
| Names.ValidNamesAreOrdinary | crates/sensor-files/src/lib.rs:44-61 | an accepted file name can never be the rendered name of a part or record file |
| Names.TransferFilesAreDistinct | crates/sensor-files/src/lib.rs:99-106 | the names of part and record files of different transfers never coincide |
| Names.RenderedNamesAreDistinct | crates/sensor-files/src/lib.rs:44-106 | rendering the files of the directory as names is injective, so the model's map from files loses nothing |
| Names.PlainNamesAreValid | crates/sensor-files/src/lib.rs:44-61 | every name of letters, digits, dashes and underscores with an extension is accepted, if it is short enough and no device's |
| Receiver.HashReader | crates/sensor-files/src/lib.rs:63-75 | hashing a file in chunks is hashing its contents |
| Receiver.Begin | crates/sensor-files/src/lib.rs:125-186 | the new state and result of opening a transfer, for every failing file operation, are those of BeginTransfer |
| Receiver.Resume | crates/sensor-files/src/lib.rs:187-244 | the new state and result of reopening a part, for every failing file operation, are those of ResumeTransfer |
| Receiver.IncomingTransfer.PrefixHash | crates/sensor-files/src/lib.rs:255-260 | the hash of exactly the bytes stored so far, without moving the transfer |
| Receiver.IncomingTransfer.WriteChunk | crates/sensor-files/src/lib.rs:261-284 | a chunk that is refused changes nothing; a torn write leaves a prefix of it; a written one advances the offset |
| Receiver.IncomingTransfer.Cancel | crates/sensor-files/src/lib.rs:289-295 | what cancelling removes, with each removal able to fail |
| Receiver.IncomingTransfer.Finish | crates/sensor-files/src/lib.rs:296-313 | what finishing publishes and removes, with each step able to fail |
| DirectoryInvariant.BeginKeeps | crates/sensor-files/src/lib.rs:125-186 | beginning keeps the directory invariant and every ordinary file, also when it fails half way |
| DirectoryInvariant.PausedTransfersReopen | crates/sensor-files/src/lib.rs:187-288 | a transfer that is let go, even after a torn chunk, is reopened by its owner as it was at the length that is stored; anyone else is refused |
| DirectoryInvariant.ResumeKeeps | crates/sensor-files/src/lib.rs:187-244 | resuming reopens exactly the recorded transfer at the stored length, only for its owner, and a failure changes nothing |
| DirectoryInvariant.ChunkKeeps | crates/sensor-files/src/lib.rs:261-284 | a chunk keeps the invariant, even torn in the middle of its write, and touches no other file |
| DirectoryInvariant.CancelKeeps | crates/sensor-files/src/lib.rs:289-295 | cancelling keeps the invariant and removes at most the transfer's own files |
| DirectoryInvariant.FinishKeeps | crates/sensor-files/src/lib.rs:296-313 | finishing overwrites no existing name and publishes only contents with the announced size and hash |
| DirectoryInvariant.HonestFinishPublishesTheSource | crates/sensor-files/src/lib.rs:296-313 | for an honest owner and a collision-free hash, what finishing publishes is the sender's own file |
| Sender.SendFile | crates/sensor-client/src/lib.rs:365-425 | the sending loop says exactly the messages of the honest dialogue, whatever replies come and wherever they stop |
| Sender.HashPrefix | crates/sensor-client/src/lib.rs:390-402 | the local prefix is hashed in chunks to the hash of that prefix |
| Resumption.NextKeeps | crates/sensor-client/src/lib.rs:224-425 | every step of every session, honest or hostile, keeps the invariant of the whole world |
| Resumption.NoRunOverwrites | crates/sensor-files/src/lib.rs:296-313 | over any number of sessions cut anywhere, no existing file is ever overwritten or changed |
| Resumption.EveryRunStoresPrefixes | crates/sensor-files/src/lib.rs:187-284 | after any run, each stored part of an honest owner is a prefix of its source |
| Resumption.EveryRunKeepsOffsets | crates/sensor-files/src/lib.rs:246-284 | in every reachable world a live transfer's part file is exactly as long as its offset, at most the declared size |
| Resumption.HonestResumptionIsAccepted | crates/sensor-client/src/lib.rs:377-404 | a sender whose manifest matches always goes on from the stored offset: resumption never refuses honest data |
| Resumption.SuccessMeansDelivery | crates/sensor-client/src/lib.rs:405-425 | when a sender learns of its success the receiver holds the source under its name, and keeps holding it |
| Resumption.PublicationIsVerified | crates/sensor-client/src/lib.rs:313-327 | a session brings only announced names into the directory, with the announced size and hash, and from an honest peer the source itself |
| Resumption.FreshDirectoryIsSound | crates/sensor-files/src/lib.rs:119-124 | any directory without part files is a sound start, so the run theorems are not empty |
| Delivery.TransferLeftAloneArrives | crates/sensor-client/src/lib.rs:365-425 | among any other sessions at work, a session of an honest peer that is left in peace never gives up, changes the world at most 4 n + 8 times for n bytes, and where it rests the file is delivered and the sender knows it, from the start or from any stored part |
| Delivery.FairSchedulesDeliver | crates/sensor-client/src/lib.rs:365-425 | every schedule that goes on giving speaking, delivering and listening their turn, in any order and among any steps of others, delivers the file |
| Delivery.OthersAreConsiderate | crates/sensor-client/src/lib.rs:224-354 | the only steps of others that can be in the way are committing a file of that name, resuming that very part, and creating that name; all others, honest or not and whatever fails in them, leave the transfer alone |
| Delivery.TurnsAreARound | crates/sensor-client/src/lib.rs:365-425 | speaking, delivering and listening once each is a round of such a schedule, so there are schedules that deliver |
| Delivery.RunAdvances | crates/sensor-client/src/lib.rs:365-425 | whatever the order of its moves, each change takes a session left alone strictly nearer to its end, and none takes it off its track |
| Delivery.ChunkIsTaken | crates/sensor-client/src/lib.rs:302-312 | a chunk under way is stored and acknowledged at the offset behind it, with the flood bound out of reach |
| Delivery.ResumeIsTaken | crates/sensor-client/src/lib.rs:285-300 | resuming a stored part is answered at exactly its stored length, with the hash of that prefix of the source |
| Delivery.CommitIsTaken | crates/sensor-client/src/lib.rs:313-327 | a commit after the last chunk publishes the source and tells the sender |
| Delivery.NewSessionIsOpening | crates/sensor-client/src/lib.rs:365-376 | any honest peer with file permission and a legal, free name is in a position to start |
| Endpoint.HandleKeepsUsable | crates/sensor-client/src/lib.rs:224-354 | handling any message leaves a state in which the next one can be handled |
| SessionTrace.ServeLeavesATrail | crates/sensor-client/src/lib.rs:158-354 | for every message sequence and failure the audit trail has one fixed shape, ends with Disconnected when Accepted was sent, and every completion recorded or reported is of a manifest this peer offered or owned a recorded part of, whose file is there with that size and hash under a name that was free |
| SessionTrace.OperateIsGated | crates/sensor-client/src/lib.rs:224-354 | over a session, files, trail and replies change only under the permission that covers the change |
| SessionTrace.ServeNeedsConsent | crates/sensor-client/src/lib.rs:158-223 | without local acceptance of that very mode nothing touches the directory and no text is answered |
| SessionTrace.ModesGrantOneOperation | crates/sensor-client/src/lib.rs:35-68 | each mode's permission mask opens exactly its own operation and is a mask the wire admits |
| SessionTrace.ModesGrantJustThis | crates/sensor-client/src/lib.rs:35-68 | permission by permission, what each of the six modes lets the peer do and what not |
| SessionTrace.ServeAnswersTheRequest | crates/sensor-client/src/lib.rs:158-223 | a session answers if and only if its request was recorded and decided on: with the permissions of just the requested mode, or with a refusal and nothing else |
| SessionEffects.AnswersAreTruthful | crates/sensor-client/src/lib.rs:224-354 | for every inbox and every failure all answers and final audit records are about one transfer, and true of the directory: cancelled leaves no part and no record, paused and completed leave exactly what was stored before and the bytes of the session's chunks, and nothing else has changed |
| SessionEffects.AnsweredIffGranted | crates/sensor-client/src/lib.rs:224-354 | each message is answered, with its own answer and audit record, if and only if it is permitted, fits the transfer and the directory, and nothing it needs fails; otherwise the session ends unanswered |
| SessionEffects.OpenRun | crates/sensor-client/src/lib.rs:302-354 | from any point of an open transfer on: what is true of it at the end of the session, whatever comes |
| SessionTrace.CommitLeaves | crates/sensor-client/src/lib.rs:313-327 | a commit logs and reports a completion only after publication of the transfer's own manifest |
| Server.Serve | crates/sensor-client/src/lib.rs:158-223 | the session method computes the specified trail, replies and directory |
| Server.Session.Run | crates/sensor-client/src/lib.rs:224-354 | the operation loop computes the specified state and ending |
| Server.Session.OnOffer | crates/sensor-client/src/lib.rs:263-284 | an offer's effects, replies and audit records, with every failure |
| Server.Session.OnChunk | crates/sensor-client/src/lib.rs:302-312 | a chunk's effects, replies and audit records, with every failure |
| Server.Session.OnCommit | crates/sensor-client/src/lib.rs:313-327 | a commit's effects, replies and audit records, with every failure |
| Framing.DecodeUndoesEncode | crates/sensor-protocol/src/lib.rs:79-118 | decoding undoes encoding, and exactly the frames of this version within the size limit encode |
| Framing.EncodeUndoesDecode | crates/sensor-protocol/src/lib.rs:79-118 | a decoded frame encodes to the very bytes it came from: nothing else is accepted |
| Framing.FrameBuffer.DecodeNext | crates/sensor-transport/src/lib.rs:38-52 | bytes leave the buffer only as the encoding of the returned frame; an error or a missing byte changes nothing |
| Framing.FrameBuffer.TakeAll | crates/sensor-transport/src/lib.rs:38-52 | taking frames until none is complete finds what Drain says |
| Framing.NextFrameTakesAnEncoding | crates/sensor-transport/src/lib.rs:22-52 | an encoded frame with anything behind it comes off whole, leaving what was behind |
| Framing.SplitsDoNotMatter | crates/sensor-transport/src/lib.rs:38-52 | for every split of every byte stream, valid or not, the frames found and the bytes kept are those of the whole |
| Framing.FramesSurviveAnySplit | crates/sensor-transport/src/lib.rs:22-52 | whatever part of some frames' encodings arrived, in whatever pieces, exactly the complete frames come out in order and exactly the rest is kept |
| Framing.DrainInTwoSteps | crates/sensor-transport/src/lib.rs:38-52 | decoding early and again later finds the same frames as decoding once |
| SecureStream.SecureChannel.Seal | crates/sensor-crypto/src/lib.rs:232-242 | each call uses the next number, also when encryption fails, until the numbers run out |
| SecureStream.SecureChannel.Open | crates/sensor-crypto/src/lib.rs:244-258 | only the next number opens, and a refused record does not move the channel |
| SecureStream.NoncesAreDistinct | crates/sensor-crypto/src/lib.rs:197-203 | different sequence numbers make different nonces |
| SecureStream.NoNonceIsReused | crates/sensor-crypto/src/lib.rs:197-242 | over any run of seal calls, failed ones included, no two records share a nonce |
| SecureStream.SealedSequencesIncrease | crates/sensor-crypto/src/lib.rs:232-242 | sealed records carry strictly increasing numbers below the last one |
| SecureStream.SealAndOpenCommute | crates/sensor-crypto/src/lib.rs:232-258 | sealing and opening may interleave in any order: neither sees the other |
| SecureStream.DeliveriesAreReceives | crates/sensor-transport/src/connection.rs:339-365 | what is delivered from a stream is what one receive after the other returns, up to the first error |
| SecureStream.DeliveriesArePrefix | crates/sensor-transport/src/connection.rs:339-365 | for every byte stream, whatever was dropped, repeated, reordered or altered, the delivered texts are a prefix of those the peer sealed |
| SecureStream.SealedRecordFits | crates/sensor-transport/src/connection.rs:308-337 | every plaintext within MAX_FRAME_SIZE - 64 fits its outer frame, which parses back to its record |
| SecureStream.UndisturbedStreamDelivers | crates/sensor-transport/src/connection.rs:308-365 | over an undisturbed stream every sealed text is delivered |
| Connection.Link.ReadExact | crates/sensor-transport/src/connection.rs:51-69 | exactly the asked-for bytes from the front, and that if and only if so many are there and the calls move so many before one fails or moves nothing, interruptions waited out |
| Connection.Link.WriteAll | crates/sensor-transport/src/connection.rs:71-87 | a beginning of the bytes, and all of them if and only if the calls move so many before one fails or moves nothing |
| Connection.Link.ReadFrame | crates/sensor-transport/src/connection.rs:89-104 | the next frame of the stream, if and only if there is one and the schedule suffices for header and body; an error is an I/O failure or that frame's own defect |
| Connection.Link.ReadRecord | crates/sensor-transport/src/connection.rs:339-365 | succeeds if and only if the next record opens and the schedule suffices, and then delivers it; a failure delivers nothing |
| Connection.Link.WriteRecord | crates/sensor-transport/src/connection.rs:308-337 | puts one whole record on the network if and only if a number is left, encryption works and the schedule suffices; otherwise a beginning of it or nothing |
| Connection.SecureConnection.SendBytes | crates/sensor-transport/src/connection.rs:308-337 | the exact condition of success; closes on exactly the failures other than an oversized text, and once closed writes nothing |
| Connection.SecureConnection.Receive | crates/sensor-transport/src/connection.rs:292-306 | the exact condition of success; closes on exactly every failure, and once closed returns Closed and takes nothing from the stream |
| Connection.SecureConnection.Split | crates/sensor-transport/src/connection.rs:377-402 | hands the record state to one reader and one writer that share the failure flag, and closes itself |
| Connection.SecureReader.Receive | crates/sensor-transport/src/connection.rs:422-460 | taken as one step: fails both halves on exactly every failure; touches only the receiving half of the state |
| Connection.SecureWriter.Send | crates/sensor-transport/src/connection.rs:471-502 | taken as one step: fails both halves on every failure, oversized messages included; touches only the sending half |
| Duplex.EveryInterleavingIsSound | crates/sensor-transport/src/connection.rs:404-513 | with reader and writer in small steps that overlap in any way: what is handed on is a beginning of the stream's deliveries, the network holds a beginning of the records sealed, and all of it while nothing failed |
| Duplex.HandedOnWasSealed | crates/sensor-transport/src/connection.rs:404-513 | between two split connections over a hostile network, under any overlaps at both ends, what is handed on is a prefix of what was sealed |
| Duplex.FailureIsFinal | crates/sensor-transport/src/connection.rs:417-420 | once the flag is up, a half between calls never again moves a byte or a text |
| Duplex.InterleavingIsSequential | crates/sensor-transport/src/connection.rs:421-502 | until a half raises the flag, overlapping calls come to what they would one after the other |
| Connection.UnwrapUndoesWrap | crates/sensor-transport/src/connection.rs:287-306 | a message that could be wrapped is unwrapped to itself |
| Connection.DeliveredWasSealed | crates/sensor-transport/src/connection.rs:287-365 | between two ends over a hostile network, in any state either end is in, what was delivered is a prefix of what was sealed, message by message |
| Connection.UndisturbedLinkDelivers | crates/sensor-transport/src/connection.rs:308-365 | when the bytes arrive as written, everything sealed has been or will be delivered |
| Connection.PatientLinkReceivesAll | crates/sensor-transport/src/connection.rs:51-104 | over an undisturbed link and any schedule that keeps moving bytes, however few at a time, receives return every sealed text |
| Connection.PatientCarries | crates/sensor-transport/src/connection.rs:71-104 | such a schedule carries every frame, however its bytes are cut |
| DesktopSession.NextKeeps | crates/sensor-desktop/src/worker.rs:771-1281 | every atomic step of host loop, reader or viewer keeps the session invariant |
| DesktopSession.SelectionLeadsToItsDisplay | crates/sensor-desktop/src/worker.rs:1058-1170 | a selection taken off the queue and decided on without failure or adaptation begins a generation of just that display, a change of profile one of the same; ever after all that is announced or installed under it is of that display |
| DesktopSession.DisplaysFollowRequests | crates/sensor-desktop/src/worker.rs:1058-1170 | in every run: a decision begins a generation if and only if something was asked for or the controller adapts, of the display asked for last, but of the same one if it adapts |
| DesktopSession.RequestsArriveInOrder | crates/sensor-desktop/src/worker.rs:690-900 | what the host took off its queue and what is there are the viewer's requests in the order read, with at most a failure behind them |
| DesktopSession.SwitchesAndEndsLiftEverything | crates/sensor-desktop/src/worker.rs:836-900 | in every run no key or button is left down when a switch disables the target and when the session is over, unless the system refused a release |
| DesktopSession.SessionsEndForAReason | crates/sensor-desktop/src/worker.rs:690-1281 | over every run a session goes on if and only if every step so far succeeded, for exact conditions of success: no host failure, room in the queue, releases taken, current input permitted, valid and taken, known displays, no message that ends it |
| DesktopSession.CurrentAcksAreCounted | crates/sensor-desktop/src/worker.rs:1087-1105 | an acknowledgement taken off the queue is counted if and only if it is for the generation that is streamed |
| DesktopSession.InputHitsItsDisplay | crates/sensor-desktop/src/worker.rs:804-830 | in every interleaving and against any viewer, an injected input was valid on the display of the generation it carries, the one an honest viewer aimed at, and generations of injections never go back |
| DesktopSession.OldHoldsAreLifted | crates/sensor-desktop/src/worker.rs:818-824 | before the first injection under a generation nothing is held down any more, unless the system refused a release |
| DesktopSession.CurrentInputIsInjected | crates/sensor-desktop/src/worker.rs:804-830 | an input of the current generation that is valid for its display is injected, whatever was held before |
| DesktopSession.OnlyGrows | crates/sensor-desktop/src/worker.rs:1151-1170 | in one step generations only grow, and the display a generation stands for never changes |
| DesktopSession.GenerationsNeverGoBack | crates/sensor-desktop/src/worker.rs:1151-1170 | over any part of any run displays of generations and injections stay, and the target's generation is never older than before, also across a zeroing |
| DesktopSession.DisabledTargetIsAwaited | crates/sensor-desktop/src/worker.rs:836-870 | in every reachable state a zeroed target has its command being sent, queued or pending, or the session ends |
| DesktopSession.AcksCountTheirOwnGeneration | crates/sensor-desktop/src/worker.rs:1087-1105 | an honest acknowledgement is counted only for a picture of the generation being streamed |
| DesktopSession.InputComesBack | crates/sensor-desktop/src/worker.rs:836-870 | a zeroed target gets a generation again within 419 steps of a host loop that goes on, whatever the viewer sends, counted from where its command is queued, at the latest the reader's next step |
| DesktopSession.DarknessEndsByRank | crates/sensor-desktop/src/worker.rs:1053-1170 | the number of host steps with a zeroed target is bounded by a rank that other threads never raise |
| DesktopSession.HostStepLowersRank | crates/sensor-desktop/src/worker.rs:1053-1170 | each host step brings the pending switch nearer, through draining, deciding, announcing and installing |
| DesktopSession.EnqueueKeeps | crates/sensor-desktop/src/worker.rs:690-700 | a full command queue ends the session instead of blocking the reader, and never loses the switch of a zeroed target otherwise |
| Injection.Injector.Apply | crates/sensor-windows/src/input.rs:75-152 | the events handed to the system and the keys and buttons remembered, for every input, display and refusal |
| Injection.Injector.Release | crates/sensor-windows/src/input.rs:153-164 | releases everything remembered in one call and forgets it, also when the system refuses |
| Injection.ApplyRemembersWhatIsDown | crates/sensor-windows/src/input.rs:75-164 | what the injector remembers is exactly what is down, after every input and failure but a refused release |
| Injection.ReleaseLiftsEverything | crates/sensor-windows/src/input.rs:153-164 | a release that succeeds leaves no key or button down |
| Injection.AxisIsPosition | crates/sensor-windows/src/input.rs:85-104 | inside the virtual screen a coordinate is the exact position rounded down, outside it is the nearest edge |
| Injection.AxisSeparatesPixels | crates/sensor-windows/src/input.rs:85-104 | two pixels of a screen of at most 65536 columns get different coordinates, in order |
| Injection.InputGetsThrough | crates/sensor-windows/src/input.rs:75-152 | input gets through if and only if it is permitted, valid, on an interactive desktop with a screen to move on, and the system takes all of its events; without the first three nothing reaches the system |
| Injection.ReleaseGetsThrough | crates/sensor-windows/src/input.rs:75-152 | letting go succeeds if and only if nothing is held or an interactive desktop takes one event for each key and button held |
| Injection.InputIsMeant | crates/sensor-windows/src/input.rs:75-152 | what an accepted input hands to the system is that input: the pointer's own axes, the wheel's own turn, each unit of a text pressed and released in order |
| Fragments.Writer.SendPackets | crates/sensor-desktop/src/worker.rs:721-768 | whatever stops it, what was sent is a beginning of all fragments in order; success sends all of them |
| Fragments.Assembler.Push | crates/sensor-media/src/lib.rs:377-440 | the outcome and the frame under assembly; any error leaves nothing behind |
| Fragments.PushIsBounded | crates/sensor-media/src/lib.rs:384-440 | for any message the held buffer stays strictly below its total, which is at most MAX_ENCODED_FRAME, and errors clear it |
| Fragments.SessionDeliversExactly | crates/sensor-desktop/src/worker.rs:1421-1457 | over any formats and packets, with any other messages in between, the viewer gets exactly the nonempty packets, in order, each under its own format, if and only if every packet is within the limit |
| Fragments.CutSessionDeliversPrefix | crates/sensor-desktop/src/worker.rs:1421-1457 | such a session cut after any message delivered a prefix of the packets and no part of one |
| Fragments.OversizedPacketStops | crates/sensor-media/src/lib.rs:395-402 | a packet over the limit ends the session before any of it is delivered |
| Flight.SubmitRefines | crates/sensor-media/src/adaptive.rs:163-165 | a submission under a new number adds exactly its entry to the map of pictures in flight |
| Flight.EncodedRefines | crates/sensor-media/src/adaptive.rs:166-171 | a size goes to its own picture, and the byte counter stays the sum if and only if the sum fits it |
| Flight.AcknowledgeRefines | crates/sensor-media/src/adaptive.rs:174-180 | an acknowledgement removes exactly its picture and answers with that picture's age; any other changes nothing |
| Flight.OldestIsMaximal | crates/sensor-media/src/adaptive.rs:155-157 | the front picture is the oldest in flight, also after acknowledgements out of order |
| Flight.WindowOpensForAQuarterSecond | crates/sensor-media/src/adaptive.rs:144-162 | an empty window admits; the bytes allowed are a quarter of a second's worth between the clamps, and more than that if and only if the bit rate is under 2097152 |
| Flight.RunKeepsTimes | crates/sensor-media/src/adaptive.rs:152-180 | over any run with a clock that does not go back: at most 16 in flight, ordered by time |
| Flight.FreshRunRefines | crates/sensor-media/src/adaptive.rs:146-180 | from an empty window, with new numbers and totals that fit: over every run the window is the map of pictures in flight and its byte counter their exact sum |
| Flight.RunRefines | crates/sensor-media/src/adaptive.rs:146-180 | window and map go on agreeing from any state in which they agree, over every such run |
| Flight.DelayIsOwnAge | crates/sensor-media/src/adaptive.rs:174-180 | over every such run, each delay answered is the time since the one submission under that number |
| Flight.AdmitsAlike | crates/sensor-media/src/adaptive.rs:155-162 | looking at the front picture alone admits exactly what looking at every picture in flight would |
| Flight.AcksBalance | crates/sensor-desktop/src/worker.rs:1087-1103 | acknowledgements counted plus pictures in flight are the submissions, for every sequence number |
| Flight.FlightWindow.Settle | crates/sensor-media/src/adaptive.rs:174-180 | the window and delay after an acknowledgement, found by a search from the front |
| Flight.FlightWindow.Admits | crates/sensor-media/src/adaptive.rs:158-162 | after an admitted submission at most 16 pictures are in flight, under 2 MiB, and all of them were younger than half a second |
| AdaptiveRate.Adaptive.Observe | crates/sensor-media/src/adaptive.rs:76-117 | one window's new state, with no 32-bit or 8-bit overflow and the controller's bounds kept |
| AdaptiveRate.Adaptive.FindTier | crates/sensor-media/src/adaptive.rs:88-93 | the largest frame rate tier the work allows, or the lowest tier |
| AdaptiveRate.RunIsValid | crates/sensor-media/src/adaptive.rs:57-117 | after any observations the bit rate is between the minimum and the ceiling, which never moves |
| AdaptiveRate.FrameRateFitsWork | crates/sensor-media/src/adaptive.rs:84-105 | after each window the frame rate times the work per picture is at most 850000, or the frame rate is 10 |
| AdaptiveRate.RisesAreEarned | crates/sensor-media/src/adaptive.rs:94-117 | the bit rate rises only after three consecutive good windows, the frame rate only after five consecutive faster ones |
| AdaptiveRate.CongestionReachesTheFloor | crates/sensor-media/src/adaptive.rs:106-108 | twelve consecutive congested windows bring any state to the minimum bit rate |
| AdaptiveRate.GoodWindowsReachTheCeiling | crates/sensor-media/src/adaptive.rs:109-114 | a hundred consecutive good windows bring any state to its ceiling, whatever the ceiling is |
| AdaptiveRate.GoodWindowsGrow | crates/sensor-media/src/adaptive.rs:109-114 | the exact bit rate after any number of good windows: one rise for every three, capped |
| AdaptiveRate.TargetsAreLegal | crates/sensor-media/src/adaptive.rs:119-142 | a target exists for exactly the displays of legal size from 16 by 16 up, passes the format checks and never upscales |
| AdaptiveRate.TargetsWasteNothing | crates/sensor-media/src/adaptive.rs:119-142 | a display that fits keeps its size but for an odd row or column, any other is scaled until one side is as long as the bit rate pays for |
| AdaptiveRate.HigherRatesShowMore | crates/sensor-media/src/adaptive.rs:119-142 | a higher bit rate never shows a smaller picture, and lowers the frame rate if and only if the profile is Performance and it goes from 3..5 to 5..8 megabits a second under a ceiling above 30 |
| AdaptiveRate.TargetsKeepTheirShape | crates/sensor-media/src/adaptive.rs:134-139 | both sides are scaled alike, to within the pixels that evenness takes |
| AdaptiveRate.BaselineIsTheShortest | crates/sensor-media/src/adaptive.rs:57-75 | over any windows the baseline is the shortest delivery measured |
| AdaptiveRate.CongestionIsRelative | crates/sensor-media/src/adaptive.rs:64-83 | exactly when a window counts as congested, against that baseline |
| AdaptiveRate.DropsAreBounded | crates/sensor-media/src/adaptive.rs:106-108 | a congested window lowers the bit rate by at most 35 in a hundred, and always unless it is at the minimum |
| AdaptiveRate.FiveFasterWindowsRaise | crates/sensor-media/src/adaptive.rs:88-105 | five consecutive windows that could sustain more raise the frame rate, from any state |
| Conversion.BgraToNv12 | crates/sensor-media/src/lib.rs:269-301 | exactly the whole frames of even size are converted, to the luma and chroma that IsNv12 gives for every place |
| Conversion.Nv12ToRgbaPadded | crates/sensor-media/src/lib.rs:313-366 | exactly the legible pictures are decoded, every pixel to its scalar value, with or without the vector row |
| Conversion.DecodeRow | crates/sensor-media/src/lib.rs:330-359 | the vector row followed by the scalar tail fills a row with scalar values and touches nothing else |
| Pixels.PlanesFit | crates/sensor-media/src/lib.rs:320-352 | every index the decoder uses is inside the checked buffer, for all sizes, pitches and storage heights |
| Avx2.Row | crates/sensor-media/src/pixels_avx2.rs:5-86 | whole groups of eight pixels get their scalar values in place; the index returned is where the scalar tail begins |
| Avx2.LaneIsPixel | crates/sensor-media/src/pixels_avx2.rs:15-82 | no lane overflows 32 bits, and a packed lane stored in memory is the scalar pixel's four bytes |
| Avx2.OrOfSeparateBits | crates/sensor-media/src/pixels_avx2.rs:76-82 | or-ing numbers without common bits adds them, so packing never mixes colours |
| Avx2.StoreLanes | crates/sensor-media/src/pixels_avx2.rs:83-84 | the store writes the lanes behind each other, lowest byte first, and nothing else |
| Avx2.Convert | crates/sensor-media/src/pixels_avx2.rs:18-82 | the vector expression gives every lane the word of its pixel |
| Colour.FramesKeepRanges | crates/sensor-media/src/lib.rs:278-298 | every byte of every converted frame is luma in 16..235 or chroma in 16..240, as in section 2.5 of Recommendation ITU-R BT.601-7 |
| Colour.ColourComesBack | crates/sensor-media/src/lib.rs:278-359 | any colour survives both conversions with red and green within 2 and blue within 3 |
| Colour.FrameComesBack | crates/sensor-media/src/lib.rs:269-366 | in every even frame whose aligned blocks have one colour, every pixel comes back that close and opaque |
| Colour.DecodedFormIsUnique | crates/sensor-media/src/lib.rs:313-366 | a picture has one decoded form, so the vector and scalar results are the same bytes |
| Rotation.RotateScale | crates/sensor-media/src/lib.rs:227-267 | exactly the whole frames, right angles and legal sizes are accepted, and every output pixel is its source pixel |
| Rotation.SampleInBounds | crates/sensor-media/src/lib.rs:250-252 | a scaled index stays inside the frame |
| Rotation.TurnsCompose | crates/sensor-media/src/lib.rs:245-259 | at native size, turning by one angle and then another is turning by their sum modulo 360 |
| Rotation.TurnsGoClockwise | crates/sensor-media/src/lib.rs:245-259 | angles are clockwise: where the top row goes under each |
| Rotation.SampleIsItsPlace | crates/sensor-media/src/lib.rs:250-252 | a scaled sample is the source pixel that the place falls on |
| Bridge.Pumping.Step | crates/sensor-render/src/lib.rs:452-526 | one turn of the pump is the specified one for every pattern of partial and blocked calls, and conserves the bytes of both directions |
| Bridge.Pumping.Loop | crates/sensor-render/src/lib.rs:452-526 | a run of turns is the specified one and conserves the bytes of both directions |
| Bridge.TurnConserves | crates/sensor-render/src/lib.rs:452-526 | bytes read locally are exactly those of the messages accepted by the socket, bytes of messages read are exactly those written or pending |
| Bridge.RunConserves | crates/sensor-render/src/lib.rs:452-526 | the same over every run, and input is only ever taken from the front |
| Bridge.TurnOnlyReads | crates/sensor-render/src/lib.rs:452-526 | output once made is never touched again |
| Bridge.WillingTurnMoves | crates/sensor-render/src/lib.rs:452-513 | a turn in which nothing stands in the way empties what was pending both ways and takes in all it is given |
| Bridge.StallsEndTheLoop | crates/sensor-render/src/lib.rs:452-526 | a turn in which nothing moves ends the loop if and only if something is held and the time has run out |
| Bridge.EndsEndTheLoop | crates/sensor-render/src/lib.rs:452-526 | the end or failure of the local stream ends the loop when it is read, and so does a frame that is no message, ping or pong |
| Bridge.FailuresEndTheLoop | crates/sensor-render/src/lib.rs:452-526 | each failing call that a turn reaches, and a local write that takes nothing, ends the loop |
| Bridge.RunIsPolite | crates/sensor-render/src/lib.rs:452-526 | over every run exactly one pong is accepted for sending for each ping read |
| Relay.Step | crates/sensor-rendezvous/src/main.rs:541-581 | one relay step on two endpoints is the specified one, pings and closing included |
| Relay.StepKeeps | crates/sensor-rendezvous/src/main.rs:541-581 | each message read is forwarded at most once, in order, with at most one pending, in both directions |
| Relay.MessagesPass | crates/sensor-rendezvous/src/main.rs:541-581 | a message that is due with the way free is handed over in the same step, whether just read or pending |
| Relay.StallsAreTimedFromTheirStart | crates/sensor-rendezvous/src/main.rs:452-535 | over a turn a side that goes on writing is timed from where it began |
| Relay.StallsAbort | crates/sensor-rendezvous/src/main.rs:515-535 | a side that cannot flush ends the relay after five seconds of writing, and not before |
| Relay.FramesDecide | crates/sensor-rendezvous/src/main.rs:541-565 | a frame that is read lets the relay go on if and only if it is a message within the limit, a ping or a pong, and closes it if and only if it is a close frame |
| Relay.FailuresAbort | crates/sensor-rendezvous/src/main.rs:452-535 | a failing flush or read that a turn reaches ends the relay at once and leaves both sides as they were |
| Relay.RunIsPolite | crates/sensor-rendezvous/src/main.rs:452-581 | over every run exactly one pong is accepted for sending on either side for each ping read there |
| Relay.TurnKeeps | crates/sensor-rendezvous/src/main.rs:488-503 | a whole turn over both directions keeps order, conservation and pacing, however it ends |
| Relay.RelayPair | crates/sensor-rendezvous/src/main.rs:452-508 | the relay loop is the specified run and keeps the laws of both directions |
| Relay.ForwardingKeepsTheLimit | crates/sensor-rendezvous/src/main.rs:541-580 | between the hand-overs of two messages there is the time that all messages strictly between them take at the limit |
| HandOver.OnTimeKeepsTheLimit | crates/sensor-rendezvous/src/main.rs:541-580 | a message handed over when due opens no window that carries more than the limit and its last message |
| HandOver.LatenessIsTheExcess | crates/sensor-rendezvous/src/main.rs:541-580 | any other window exceeds that by at most its first message's lateness |
| HandOver.BunchingNeedsLateness | crates/sensor-rendezvous/src/main.rs:541-580 | exactly when the limit is safe: some next turn bunches a message that takes time with the following one if and only if it went out late |
| HandOver.OnTimeIffFree | crates/sensor-rendezvous/src/main.rs:568-579 | a pending message goes out on time if and only if the clock shows its due time while its destination is not writing |
| HandOver.LimitCanBeExceeded | crates/sensor-rendezvous/src/main.rs:452-581 | a run of three turns in which a window of no length carries two messages, each of a second at the limit |
| Tunnel.EveryRunKeepsOrder | crates/sensor-rendezvous/src/main.rs:452-581 | bridge, relay, bridge and the connections between them, with turns, deliveries, control frames and input in any order: what either program received is a prefix of what the other gave, and all of it once the way is drained |
| Tunnel.Next | crates/sensor-render/src/lib.rs:452-526 | every turn of bridge or relay and every delivery keeps conservation in all three and the order on all four connections, and gives or takes nothing at the local ends |
| Throughput.FairSchedulesDeliver | crates/sensor-rendezvous/src/main.rs:452-581 | after any run in which no loop ended, every schedule that goes on giving both bridges, the relay and each connection a turn delivers everything given at either end to the other, within as many rounds as there is weight under way |
| Throughput.NextEases | crates/sensor-rendezvous/src/main.rs:452-581 | no turn and no delivery that leaves the loops running takes anything farther from its end, and a willing turn of a part with work takes something nearer |
| Throughput.TurnEases | crates/sensor-render/src/lib.rs:452-526 | the same for one turn of a bridge, over every pattern of partial and blocked calls |
| Throughput.RelayEases | crates/sensor-rendezvous/src/main.rs:488-581 | the same for one turn of the relay, if it comes when what is pending is due |
| Throughput.EverythingCanArrive | crates/sensor-rendezvous/src/main.rs:452-581 | for any input and any rate limit there is such a schedule |
| Fairness.RoundsBringRest | crates/sensor-rendezvous/src/main.rs:452-508 | a system in which served work lowers a rank, and nothing raises it, comes to rest within as many rounds as its rank |
| Tunnel.FarSideIsPrefix | crates/sensor-rendezvous/src/main.rs:541-581 | on a sound path the bytes written on the far side are a prefix of those read on the near side |
| Tunnel.DrainedPathIsComplete | crates/sensor-render/src/lib.rs:452-526 | once nothing is held on the way, everything read on the near side was written on the far side |
| Pacing.RateLimiter.Reserve | crates/sensor-rendezvous/src/main.rs:723-731 | no message is due before it asks or before the previous ones have had their time, and none waits without a positive limit |
| Pacing.DueTimesKeepTheLimit | crates/sensor-rendezvous/src/main.rs:710-731 | due times never go back, and between two of them there is the time that all messages from the first on take at the limit |
| Pacing.SpanCoversBits | crates/sensor-rendezvous/src/main.rs:723-731 | that time multiplied by the limit is exactly those messages' bits |
| Pacing.UnpacedIsImmediate | crates/sensor-rendezvous/src/main.rs:724-726 | without a limit, or with zero, every message is due when it arrives |
| Rendezvous.NextKeeps | crates/sensor-rendezvous/src/main.rs:186-440 | every atomic step of every connection thread keeps the directory invariant |
| Rendezvous.OneOfferPerRegistration | crates/sensor-rendezvous/src/main.rs:583-602 | over all interleavings no registration is offered more than one peer |
| Rendezvous.OffersAreNeverRefused | crates/sensor-rendezvous/src/main.rs:388-400 | the channel of capacity one is never full: an offer is lost only if its receiver has ended |
| Rendezvous.PairsAsAsked | crates/sensor-rendezvous/src/main.rs:356-404 | receiver and initiator of every offer proved the identities the other side asked for or is told |
| Rendezvous.KeyStaysWhilePresent | crates/sensor-rendezvous/src/main.rs:247-267 | while an ID's entry is present its key never changes, over any run |
| Rendezvous.CleanupSparesNewerEntries | crates/sensor-rendezvous/src/main.rs:669-678 | the end of an old connection removes no newer registration |
| Rendezvous.CleanupIsComplete | crates/sensor-rendezvous/src/main.rs:203-204 | after its end no entry is the connection's |
| Rendezvous.StaleStaysStale | crates/sensor-rendezvous/src/main.rs:583-602 | a registration that was replaced, removed or expired is never found or granted again |
| Rendezvous.OutgoingLeavesOwnEntry | crates/sensor-rendezvous/src/main.rs:356-404 | an outgoing connection changes its own ID's entry only by clearing it when expired |
| Rendezvous.ListenersStayReachable | crates/sensor-rendezvous/src/main.rs:405-416 | over all interleavings a listener that registers and keeps in touch, with heartbeats less than ninety seconds apart, keeps its fresh entry, and while it is not busy any look-up with its key is granted |
| Rendezvous.OffersAreTakenUp | crates/sensor-rendezvous/src/main.rs:203-337 | a listener that takes its offer up relays just that offer, and then leaves with its own registration and no other |
| Rendezvous.CallsGetThrough | crates/sensor-rendezvous/src/main.rs:356-404 | a call to such a listener ends with its offer in the listener's channel |
| Rendezvous.PresenceIsChecked | crates/sensor-rendezvous/src/main.rs:300-320 | a connection's own check ends it exactly if it was silent for ninety seconds or its entry is gone, another's or stale |
| Rendezvous.CallersClearTheSilent | crates/sensor-rendezvous/src/main.rs:583-602 | what a caller clears before it looks is exactly the entries not seen for ninety seconds |
| Rendezvous.Directory.Insert | crates/sensor-rendezvous/src/main.rs:247-267 | succeeds if and only if the ID is absent or held under the same key, leaves a fresh free entry of this connection, and no other entry changes |
| Rendezvous.Directory.Find | crates/sensor-rendezvous/src/main.rs:583-602 | succeeds if and only if the entry is there, free and of an accepted key; only its mark changes, and no other entry |
| Rendezvous.Directory.Touch | crates/sensor-rendezvous/src/main.rs:641-649 | the connection's own entry is fresh afterwards with its key and mark kept; every other entry, also a newer one of the same ID, is unchanged |
| Rendezvous.Directory.Expire | crates/sensor-rendezvous/src/main.rs:663-667 | every surviving entry is fresh and unchanged, and no fresh one is lost |
| Rendezvous.Directory.Remove | crates/sensor-rendezvous/src/main.rs:669-678 | removes the connection's own entry only |
| AuditChain.Verify | crates/sensor-audit/src/lib.rs:88-132 | the verdict is a function of the log's bytes, independent of how they are buffered, unless reading fails |
| AuditChain.ReadLine | crates/sensor-audit/src/lib.rs:92-112 | one line however it is spread over buffers, or a refusal if and only if it is longer than the bound |
| AuditChain.BytesAreRecords | crates/sensor-audit/src/lib.rs:88-132 | verifying the written lines of some records is verifying the records |
| AuditChain.AcceptedLogsParse | crates/sensor-audit/src/lib.rs:88-132 | every accepted log, whoever wrote its bytes, holds records, and those are what was verified |
| AuditChain.SameHeadSameLog | crates/sensor-audit/src/lib.rs:76-132 | two accepted logs with the same head hold the same records, for a collision-free hash |
| AuditChain.OnlyBeginningsAreAccepted | crates/sensor-audit/src/lib.rs:114-130 | for ideal signatures, a list of records is accepted if and only if it is a beginning of the writer's log up to the signature of its last record |
| AuditChain.AuditLog.Append | crates/sensor-audit/src/lib.rs:163-206 | succeeds exactly if clock, size, write and sync allow; then the file tells one record more, of just this event at this time, linked to the old head and signed; a failed write leaves a beginning of one line and stops the log |
| AuditChain.LogTellsItsRun | crates/sensor-audit/src/lib.rs:88-206 | over any run of appends the file tells what it told when opened and then the events appended, with their times, in order |
| AuditChain.OpenLog | crates/sensor-audit/src/lib.rs:146-162 | opens exactly the logs that verify, at their head |
| AuditChain.TornAppendIsFound | crates/sensor-audit/src/lib.rs:163-206 | after a torn append the log opens again if and only if nothing or the whole line reached the disk |
| ClipboardEcho.TextClipboard.Poll | crates/sensor-windows/src/clipboard.rs:60-67 | a text sent is readable, valid and different from the remembered one, which it replaces; switching off forgets |
| ClipboardEcho.TextClipboard.Apply | crates/sensor-windows/src/clipboard.rs:78-97 | what applying a text does to the clipboard and the memory, for every refusal; a failure keeps the memory |
| ClipboardEcho.SendsArePaidForByEdits | crates/sensor-windows/src/clipboard.rs:57-97 | over every interleaving, an endpoint's sends are paid for one by one by its own user's edits |
| ClipboardEcho.TotalSendsWithinEdits | crates/sensor-windows/src/clipboard.rs:57-97 | from the start of a session total sends never exceed total edits |
| ClipboardEcho.EchoesDieOut | crates/sensor-windows/src/clipboard.rs:57-97 | once users stop editing, both endpoints together send at most twice more |
| ClipboardEcho.BaselineIsNeverSent | crates/sensor-windows/src/clipboard.rs:57-76 | an endpoint that remembers nothing sends nothing until its user edits again |
| ClipboardEcho.EditIsSent | crates/sensor-windows/src/clipboard.rs:57-76 | whatever else happens before the next enabled poll, an edit is sent by it if and only if it is valid, differs from the text remembered, and no poll came in between |
| ClipboardEcho.EditWhileOff | crates/sensor-windows/src/clipboard.rs:57-76 | an edit made while sharing is off is sent afterwards if and only if no poll noticed that it was off |
| ClipboardEcho.AppliedTextIsNotEchoed | crates/sensor-windows/src/clipboard.rs:78-97 | an applied text is never sent back |
| ClipboardEcho.OffLeavesTheClipboard | crates/sensor-windows/src/clipboard.rs:78-97 | over any run, whatever arrives, a clipboard that is switched off or not permitted stays as its user left it |
| ClipboardEcho.TakenTextIsThere | crates/sensor-windows/src/clipboard.rs:78-97 | a text taken while sharing is on is in the clipboard until its user or another such text replaces it |

## Left out

- One handled message, or one desktop step, is atomic with respect to the others listed beside it; file operations inside one message still fail individually.
- Connection.SecureReader.Receive: one atomic step here, as is Connection.SecureWriter.Send; Duplex takes both in small steps, with one read of a frame or one partial write as the smallest.
- Throughput.FairSchedulesDeliver: assumes that the loops go on, so it says nothing about a side that reports an end of file, a closing frame or thirty seconds without progress; how long a turn takes is not modelled.
- Cryptography is symbolic: hash, cipher, signatures and message encodings are functions with ideal laws, and key exchange and handshake are not modelled.
- SecureStream.DeliveriesArePrefix: the ideal law is stated for the bytes of the one wire under consideration, not as a probability.
- Times, sizes scaled by floating point and relay durations are exact reals or integers; rounding of floats and of durations to nanoseconds is not modelled.
- AdaptiveRate.TargetsAreLegal: the scale is a real number where the code uses a 64-bit float.
- Display enumeration is stable during a desktop session, and a format always carries the enumerated display; codec, capture and cursor contents are not modelled.
- DesktopSession.InputComesBack: counts steps of the host loop from where the command is queued; how long a blocking send may take, and that every selected display leads to its own format, are not claimed.
- DesktopSession.OldHoldsAreLifted: says nothing after a release that the system refused, when something may stay down.
- Injection.ApplyRemembersWhatIsDown: typed Unicode units are not tracked as held keys.
- The clipboard gives back the text it was given, a failed set leaves it as it was or empty, and identical edits count as edits.
- Connection identifiers and transfer identifiers are fresh; registration signatures, tokens and control rate limits of the rendezvous server are taken as already checked.
- The relay's metrics, the HTTP pages and the connection count are not modelled.
- User interface, installer, settings, identity store, update staging, unattended grants and the provisioned relay: presentation or thin checks over foreign code.
- Media Foundation, desktop duplication, socket options and DNS: foreign code.
