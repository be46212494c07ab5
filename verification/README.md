# A verified model of a voice and screen-sharing call engine

The repository is the native core of a calling application: audio, screen capture and peer
connections behind one command loop. This project models four of its parts and proves what they
keep over whole runs.

* **The jitter buffer** (`rtc/jitter.rs`). Packets arrive, a 20 ms tick decodes them, the player
  reads 10 ms at a time. `JitterModel` is the five-state machine on values, `JitterBuffer` is the
  object with its deques and counters, proved against it, `JitterRuns` and `JitterProperties` are
  about every interleaving of inserts, ticks and reads.
* **Screen video framing** (`cap/src/video.rs`, `cap/src/h264.rs`, `cap/src/decoder.rs`). Samples with
  length-prefixed units (ISO/IEC 14496-15, section 5) become a byte stream (ITU-T H.264, Annex B) and
  are rebuilt by the viewer. `Bytes`, `ElementaryStream`, `VideoEncoder` and `VideoDecoder` follow the
  code, each with its object; `ConversionLoop` follows the conversion loop turn by turn on any bytes;
  `VideoRoundTrip` puts both ends together.
* **The microphone path** (`rtc/audio_input.rs`). The device ring, 10 ms frames, 20 ms packets:
  `MicModel`, `MicInput` (the object) and `MicRuns`.
* **The call** (`rtc/engine.rs`, `rtc/peer2.rs`, `rtc/peer_state.rs`, `rtc/signal.rs`). `PendingSignals`,
  `EngineModel` with `EngineLoop` (the object), `PeerLoopModel` with `PeerLoop` (the object) and
  `PeerLoopRuns` (all a loop does over a run), and the whole
  system in `CallSystem`: the bounded command queue, one run loop per peer incarnation, reconnect timers
  and deferred signals that fire in any order; a `Run` is any sequence of such steps, and `RunOf` gives
  every sequence of events its run. `CallCore`, `CallMoves` and `CallInvariant` carry the
  invariant through every step; `CallProperties`, `CallRoster` and `CallBound` say what follows;
  `CallEffects` and `CallHistory` account for everything the engine does, over whole runs.

Objects are classes whose methods are proved equal to a step of the value model
(`ensures Abs() == Step(old(Abs()))`); everything about runs is then a lemma about the value model.
Foreign code (Opus, resampler, echo canceller, WebRTC transport, hardware codecs) is a parameter
that may answer anything its interface allows.

## What the proofs found

* Refilled past 960 ms while more than 20 packets are queued, the jitter buffer stays silent: the
  status `IncreasingBuffer` matches no transition (rtc/jitter.rs:485-507). `StuckIsReachable` reaches that
  state, `StuckUntilDrained` counts the ticks it takes to leave it, `SoundExactly` says when a read
  returns sound.
* A signal that a peer sends while the wish to leave is already queued ends the engine's command
  loop for good (rtc/engine.rs:352-357): `LeavingCanStopTheEngine`, `StopsExactly`.
* Peer ids are 16 bits wide. Up to 65536 incarnations nothing stale is ever acted on; with one more,
  the timer of a discarded incarnation replaces somebody else's peer: `BoundIsTight`. (Arithmetic wraps
  in a release build; a debug build panics there.)
* The decoder's search windows admit parameter sets of 35 and 25 bytes, no longer. Of all lists of
  units, a sample arrives unchanged only if it is a single slice of the right type; a key frame that
  starts with anything but a slice is a panic, and one that starts with a slice that is no IDR slice
  is submitted with its parameter sets in the block: `KeyFrameDecodesExactly`,
  `DeltaFrameRoundTripsExactly`, `KeyFrameRoundTripsExactly`.
* The conversion loop spins on a unit of length zero, panics on one that reaches past the buffer,
  and returns on everything else: `LoopEndsExactly`, with `OneOfEach`.
* On overflow the jitter buffer drops its oldest samples; the comment beside it speaks of the
  newest (rtc/jitter.rs:458-460). The model follows the code.

## Model

| member | source | states |
|---|---|---|
| `Jitter.JitterBuffer.constructor` | rtc/jitter.rs:94-228 | A new buffer waits for its first packet with both queues empty. |
| `Jitter.JitterBuffer.InsertPacket` | rtc/jitter.rs:231-269 | Inserting appends the packet, first clearing all but the newest when 81 are queued, and wakes a buffer that waited for its first. |
| `Jitter.JitterBuffer.DoTick` | rtc/jitter.rs:292-382 | A tick decodes the oldest packet, after one attempt at error correction if the previous tick was a loss, or counts a loss; no drain can run past the end. |
| `Jitter.JitterBuffer.DecodeOldest` | rtc/jitter.rs:304-373 | A tick that finds a packet does all of that, but for the count of ticks. |
| `Jitter.JitterBuffer.RecoverLost` | rtc/jitter.rs:320-347 | Error correction is attempted only after a loss, pushes what it yields and counts only its successes. |
| `Jitter.JitterBuffer.DecodePacket` | rtc/jitter.rs:349-371 | The packet's own samples are pushed, or none if decoding fails; the duration is kept only when there were samples. |
| `Jitter.JitterBuffer.PushDecoderResult` | rtc/jitter.rs:429-453 | A failed decode pushes nothing; otherwise the count given by the caller, times the channels, is taken from the shared output buffer. |
| `Jitter.JitterBuffer.PushAudioFrame` | rtc/jitter.rs:455-467 | On overflow as many of the oldest samples leave as new ones come; the length stays within capacity. |
| `Jitter.JitterBuffer.FillAudio` | rtc/jitter.rs:276-289 | A read writes 10 ms: silence while waiting for 100 ms, otherwise what popping yields. |
| `Jitter.JitterBuffer.DoPopAudio` | rtc/jitter.rs:469-567 | Popping moves the status and writes silence, the next 10 ms, or every other frame of the next 20 ms; the deque never runs dry. |
| `Jitter.JitterBuffer.PopFrames` | rtc/jitter.rs:515-567 | The nested loop over frames and channels writes exactly the samples it should and removes exactly those it read. |
| `Jitter.JitterBuffer.GenerateSilence` | rtc/jitter.rs:579-596 | Silence is 10 ms of zeros in the caller's buffer. |
| `JitterModel.EnoughToPop` | rtc/jitter.rs:474-542 | Whatever status a pop decides on, the samples it is about to take are there: more than 96 times 10 ms at double speed, 10 ms at normal speed. |
| `JitterModel.PushAudioKeeps` | rtc/jitter.rs:455-467 | A push never drains more than there is, never shortens the buffer and never overfills it. |
| `JitterModel.TickKeepsInv` | rtc/jitter.rs:292-382 | Every tick keeps the invariant between status and lengths, and never shortens the audio. |
| `JitterModel.GetAudioKeepsInv` | rtc/jitter.rs:276-289 | Every read keeps it; `DecreasingBuffer` between calls implies more than 940 ms buffered. |
| `JitterRuns.RunKeepsInv` | rtc/jitter.rs:231-567 | After any interleaving of inserts, ticks and reads the whole invariant holds: window, conservation, packets, losses. |
| `JitterProperties.OutputComesFromStream` | rtc/jitter.rs:276-567 | In every reachable state a read is silence, the next 10 ms of all samples ever decoded, or the odd frames of the next 20 ms. |
| `JitterProperties.TickAppendsDecoded` | rtc/jitter.rs:322-363 | In any run a tick that takes a packet appends exactly what the decoder left in its buffer: after a loss as many frames of the recovery as the last packet had, then as many of the packet as it says; a call that fails adds nothing, and only on overflow does anything leave. |
| `JitterProperties.OddFramesKept` | rtc/jitter.rs:515-567 | At double speed frame `f` of the output is frame `2f+1` of the input, each sample in its own channel. |
| `JitterProperties.BufferIsWindow` | rtc/jitter.rs:455-567 | The buffer is a window of everything decoded, and both of its ends lie on frame boundaries, so no sample changes channel. |
| `JitterProperties.HeadOnlyGrows` | rtc/jitter.rs:455-567 | The front of that window only moves forward, and the stream only grows. |
| `JitterProperties.EverySampleAccounted` | rtc/jitter.rs:455-567 | Heard, skipped and buffered samples add up to those decoded; if none was skipped the listener has heard the stream itself. |
| `JitterProperties.PacketsAreAccounted` | rtc/jitter.rs:246-304 | At most 81 packets wait; inserted is decoded plus queued plus 80 for each clear; packets are decoded in order of arrival. |
| `JitterProperties.ClearSparesNewest` | rtc/jitter.rs:246-260 | A clear happens exactly at 81 queued packets and leaves exactly the newest of them. |
| `JitterProperties.LossesRecoveredOnce` | rtc/jitter.rs:322-381 | Ticks are packets plus losses; error correction is attempted once per maximal run of losses that a packet ends, its successes are counted exactly, and attempts and a pending loss never exceed the losses. |
| `JitterProperties.SoundExactly` | rtc/jitter.rs:276-507 | For every status, exactly when a read returns sound. |
| `JitterProperties.SpeedExactly` | rtc/jitter.rs:477-541 | A read plays at double speed exactly if more than 960 ms are buffered and more than 20 packets queued while the buffer is not refilling or waiting for its first packet. |
| `JitterProperties.StatusTellsPlayback` | rtc/jitter.rs:276-541 | The status after a read tells what it was: single speed, double speed, still waiting, or refilling. |
| `JitterProperties.DoubleSpeedIsReachable` | rtc/jitter.rs:489-490 | For stereo at 48 kHz and any capacity, a run from a fresh buffer reaches a read at double speed. |
| `JitterProperties.BufferedReadsPlay` | rtc/jitter.rs:477-542 | With k times 10 ms buffered, k at most 95, the next k reads return sound whatever happens between them. |
| `JitterProperties.ResumedPlaybackLasts` | rtc/jitter.rs:276-289 | The read that starts or resumes playback and the nine after it return sound, under any interleaving. |
| `JitterProperties.SilentUntilRefilled` | rtc/jitter.rs:485-507 | After an underflow every read is silence as long as 100 ms are not buffered. |
| `JitterProperties.StuckUntilDrained` | rtc/jitter.rs:485-507 | Over 960 ms with more than 20 packets queued, reads stay silent until exactly so many ticks have brought the queue down to 20. |
| `JitterProperties.StuckIsReachable` | rtc/jitter.rs:485-507 | For stereo at 48 kHz and any capacity, a run from a fresh buffer reaches that state. |
| `Bytes.BigEndianRoundTrip` | cap/src/h264.rs:32-36 | Reading a length prefix gives back the length written. |
| `Bytes.BoundaryIsFirst` | cap/src/decoder.rs:88-96 | The first start code found from the beginning of a unit without one is the true end of the unit, even if the unit ends in zeros. |
| `ElementaryStream.ToElemStream` | cap/src/h264.rs:7-55 | A key frame with data is the format bytes followed by a start code before each unit; without a data buffer the output is empty. |
| `ElementaryStream.ConvertUnits` | cap/src/h264.rs:25-51 | The loop appends every unit of a readable buffer behind a start code, in order. |
| `ElementaryStream.ReadableExactly` | cap/src/h264.rs:28-50 | The buffers the conversion accepts are exactly the samples of non-empty units behind their lengths, with up to four bytes more. |
| `ConversionLoop.LoopConverts` | cap/src/h264.rs:25-51 | On such a buffer the loop, turn by turn, returns the byte stream of those units after one turn each and one more. |
| `ConversionLoop.LoopEndsExactly` | cap/src/h264.rs:28-50 | For any buffer whatever: the loop returns exactly on those samples, spins for ever exactly where a length of zero follows some units, and panics exactly where a length reaches past the end or no length fits. |
| `ConversionLoop.OneOfEach` | cap/src/h264.rs:28-50 | One concrete buffer that returns, one that spins, one that panics. |
| `ElementaryStream.SplitUndoesAnnexB` | cap/src/h264.rs:38-49 | Splitting a byte stream at its start codes gives back the units. |
| `ElementaryStream.ConversionLosesNothing` | cap/src/h264.rs:13-54 | Converting a sample and splitting gives back the parameter sets of a key frame and every unit, in order. |
| `VideoEncoder.HandleKeepsCache` | cap/src/video.rs:47-75 | The cached bytes are always those of the last descriptor, whatever the history of changes. |
| `VideoEncoder.RecordContext.HandleSampleBuffer` | cap/src/video.rs:30-89 | A sample updates start time, descriptor, cache and count, and sends its byte stream unless that is empty. |
| `VideoDecoder.Decoder.FindStartCode` | cap/src/decoder.rs:88-96 | The search finds the first start code in its window, or reads past a short frame. |
| `VideoDecoder.Decoder.DecodeFrame` | cap/src/decoder.rs:58-307 | A frame is dropped, submitted as a length-prefixed block, or a panic, and the sizes and the format persist as in the code. |
| `VideoDecoder.Decoder.RebuildBlock` | cap/src/decoder.rs:163-173 | The block is the rest of the frame with its first four bytes overwritten by its length. |
| `VideoDecoder.SpsReadExactly` | cap/src/decoder.rs:87-99 | For any frame: the sequence parameter set ends at the first start code of its window; without one the size known before stays. |
| `VideoDecoder.PpsReadExactly` | cap/src/decoder.rs:101-156 | For any frame: the picture parameter set starts where the other one is known to end, its size follows its own first start code or stays, both make the format, and a session is created exactly if that has changed. |
| `VideoDecoder.LongFramesAreRead` | cap/src/decoder.rs:88-110 | Frames longer than the search windows are always read, as far as the sizes known fit them. |
| `VideoDecoder.DecodeKeepsSession` | cap/src/decoder.rs:133-160 | Blocks are only ever decoded by a session made for their own format; a frame is dropped exactly when it needs a format and none is known. |
| `VideoDecoder.DecodeKeepsSizes` | cap/src/decoder.rs:87-131 | A decoder that knows a format has sizes of at least a start code for both of its parameter sets. |
| `VideoRoundTrip.KeyFrameDecodesExactly` | cap/src/decoder.rs:87-173 | A key frame gives back its parameter sets and its block exactly when they are at most 35 and 25 bytes long; otherwise the decoder panics, whatever it has seen before. |
| `VideoRoundTrip.DeltaFrameRoundTripsExactly` | cap/src/decoder.rs:66-227 | A frame that is not a key frame, of any units, arrives unchanged if and only if a format is known and it is a single slice (whose length does not overflow). |
| `VideoRoundTrip.SlicesAreSubmitted` | cap/src/decoder.rs:217-227 | A frame that starts with a slice is submitted as one unit, however many it has. |
| `VideoRoundTrip.KeyFrameRoundTripsExactly` | cap/src/decoder.rs:80-227 | A key frame's units arrive unchanged if and only if the parameter sets fit the windows and there is one unit, an IDR slice (whose length does not overflow); a first slice that is no IDR slice is submitted with the parameter sets in its block; sets that do not fit, and a first unit that is no slice, are a panic. |
| `VideoRoundTrip.LengthFieldExactly` | cap/src/decoder.rs:172-173 | The signed length is right for every unit but those of four lengths just under 2 GB, where it overflows. |
| `VideoRoundTrip.StreamRoundTrip` | cap/src/video.rs:30-89 | From a fresh encoder to a fresh decoder, across any history of formats, every frame's block arrives byte for byte under the parameter sets of the latest key frame. |
| `VideoRoundTrip.SessionsFollowFormats` | cap/src/decoder.rs:139-156 | Over a whole stream a decoding session is created for the first key frame and then exactly when the parameter sets change. |
| `VideoRoundTrip.StreamTimes` | cap/src/video.rs:31-40 | Times sent count from the very first sample, even one without data; every sample is counted. |
| `MicInput.AudioInputEventLoop.OnDeviceData` | rtc/audio_input.rs:618-665 | The device callback enters all of its data or none. |
| `MicInput.AudioInputEventLoop.GetAudio` | rtc/audio_input.rs:544-575 | 10 ms leave the device ring, each mono sample doubled in place. |
| `MicInput.AudioInputEventLoop.DoProcessFrame` | rtc/audio_input.rs:370-452 | 10 ms are resampled, topped up with silence, muted if need be and pushed as far as the ring takes them. |
| `MicInput.AudioInputEventLoop.AudioTick` | rtc/audio_input.rs:454-524 | 20 ms, if there, are taken and encoded; nearly empty packets are not sent and take no time. |
| `MicInput.AudioInputEventLoop.DoProcessAudio` | rtc/audio_input.rs:370-452 | The loop over 10 ms frames and the encode after it. |
| `MicInput.AudioInputEventLoop.DoToggle` | rtc/audio_input.rs:257-264 | Switching the microphone on empties the device ring; switching it off leaves everything else alone. |
| `MicInput.AudioInputEventLoop.DoChangeDevice` | rtc/audio_input.rs:294-368 | A change of device empties the device ring and nothing else. |
| `MicRuns.NoTornFrames` | rtc/audio_input.rs:370-464 | Over every run the encoder ring is a list of whole 10 ms frames, and every 20 ms frame taken is two consecutively accepted ones. |
| `MicRuns.FramesComeFromDevice` | rtc/audio_input.rs:375-403 | The device ring is what the callback delivered since it was last emptied, in order, less what is used up; the next 10 ms frame is the oldest 10 ms of it, each mono sample twice, resampled, followed by silence up to 10 ms, and processed. |
| `MicRuns.SendsWhatTheSwitchSays` | rtc/audio_input.rs:454-524 | Over every run what is sent is, in order, the 20 ms frames taken whose encoding has at least three bytes: as they are if the microphone was on when they were taken, else as silence. |
| `MicRuns.SwitchIsLastToggle` | rtc/audio_input.rs:257-263 | The microphone is on exactly if the last switch said so. |
| `MicRuns.OverflowDropsWholeFrames` | rtc/audio_input.rs:440-452 | In every reachable state a push into a full ring loses the whole frame and any other keeps the whole frame, though the ring itself would truncate. |
| `MicRuns.PacketTimesHaveNoGaps` | rtc/audio_input.rs:454-524 | Sent packets carry consecutive times. |
| `MicRuns.DeviceRingStaysAligned` | rtc/audio_input.rs:544-575 | The device ring holds whole interleaved frames within its bound, across clears and changes of device. |
| `MicRuns.ProcessLeavesLessThanOneFrame` | rtc/audio_input.rs:370-452 | Undisturbed, one call of the loop is some 10 ms frames and one encode, and leaves less than 10 ms. |
| `Pending.PendingSignals.AddSignal` | rtc/signal.rs:18-52 | A description opens a queue, candidates extend it, anything else is dropped. |
| `Pending.PendingSignals.DrainUser` | rtc/signal.rs:81-97 | Draining removes the queue and returns it when it should. |
| `Pending.PendingSignals.RemoveUser` | rtc/signal.rs:99-102 | Removing returns what was there and touches nobody else. |
| `Pending.QueueHoldsFirstSdpAndCandidates` | rtc/signal.rs:18-52 | For any signals added since the last removal, the queue is the first description followed by exactly the candidates after it, in order. |
| `Pending.DrainReturnsOffersOnly` | rtc/signal.rs:54-97 | Draining always removes the queue and returns it exactly when it starts with an offer and we are not the initial offerer. |
| `EngineModel.HandleKeepsEngine` | rtc/engine.rs:303-533 | Every command keeps peers and peer states together, nobody both pending and present, nothing outside a call, and the remote control there in a call. |
| `EngineLoop.EngineEventLoop.RunCommand` | rtc/engine.rs:303-533 | One turn of the command loop is one step of the value model and keeps the structure. |
| `EngineLoop.EngineEventLoop.AddPeerTo` | rtc/engine.rs:864-980 | Adding takes the next id, replaces peer and state, drains pending signals, defers them for the answering side and starts two timers for the offering side; the remote control it expects is there. |
| `EngineLoop.EngineEventLoop.MakePeer` | rtc/engine.rs:874-971 | The peer without its timers: id, tables, and what was pending deferred for the answering side. |
| `EngineLoop.EngineEventLoop.RemovePeerFrom` | rtc/engine.rs:982-1009 | Removing drops peer, state and pending signals, in the current call only. |
| `EngineLoop.EngineEventLoop.IncomingSignal` | rtc/engine.rs:1011-1054 | A second offer replaces the peer first; then the signal is handed over or left pending, and the first offer or answer is noted. |
| `EngineLoop.EngineEventLoop.GiveSignal` | rtc/engine.rs:1037-1053 | A signal goes to the user's peer, or to the pending signals if there is none, and is noted only for a peer. |
| `EngineLoop.EngineEventLoop.TimerFired` | rtc/engine.rs:546-625 | A timer acts only on the incarnation and the call that started it, and only if not connected. |
| `EngineLoop.EngineEventLoop.ConnectionChanged` | rtc/engine.rs:627-670 | A report of the current incarnation is emitted and noted, and an ICE disconnect starts two timers. |
| `EngineLoop.EngineEventLoop.StartReconnectTimer` | rtc/engine.rs:672-702 | A timer remembers user, call and incarnation. |
| `EngineLoop.EngineEventLoop.LeaveCall` | rtc/engine.rs:827-850 | Leaving empties peers, states and pending signals. |
| `EngineLoop.EngineEventLoop.OutgoingSignal` | rtc/engine.rs:352-363 | A signal to send is emitted in a call and ends the loop outside one. |
| `PeerLoop.PeerRunLoop.Turn` | rtc/peer2.rs:361-415 | One event moves the loop's state and appends its messages to the engine as the value model says. |
| `PeerLoop.PeerRunLoop.HandleSignal` | rtc/peer2.rs:728-777 | An offer is answered; an answer is applied only against the pending offer, which it uses up. |
| `PeerLoop.PeerRunLoop.IceConnectionStateChange` | rtc/peer2.rs:524-547 | ICE changes are reported, a Connected one only once the transport has connected. |
| `PeerLoop.PeerRunLoop.DoWriteMedia` | rtc/peer2.rs:826-921 | Media is written only when connected and negotiated. |
| `PeerLoopModel.AtMostOneAnswer` | rtc/peer2.rs:758-775 | In any run a loop applies at most one answer, and only an initial offerer's loop does. |
| `PeerLoopModel.ConnectedOnlyAfterTransport` | rtc/peer2.rs:421-431 | Media is written, and Connected reported, only after the transport connected. |
| `PeerLoopModel.OnlyFirstAnswerCounts` | rtc/peer2.rs:758-775 | From the first answer that reaches a running loop on, in every continuation of the run, the offer is used up and an answer has been applied exactly if that first one was accepted by an initial offerer. |
| `PeerLoopModel.AnswerAppliedExactly` | rtc/peer2.rs:758-775 | Over any run an answer is applied if and only if we are the initial offerer and the first answer to reach the running loop is accepted. |
| `PeerLoopRuns.OffersAreAnswered` | rtc/peer2.rs:741-755 | Over every run the answers sent are exactly those to the accepted offers that reached the running loop, in that order; nothing else sends one. |
| `PeerLoopRuns.TellsExactly` | rtc/peer2.rs:417-547 | What the engine is told at each step of any run: the offer at the start of an initial offerer, answers, candidates, changes of connection that count, and the failure that ends the loop. |
| `PeerLoopRuns.SameRun` | rtc/peer2.rs:361-415 | The runs these speak of are those of the loop model, state and messages. |
| `PeerLoopRuns.StartedExactly` | rtc/peer2.rs:367-371 | Signaling has started exactly if a start has reached the loop. |
| `PeerLoopRuns.EndedExactly` | rtc/peer2.rs:127-142 | The loop has ended exactly if the network, an offer or the deciding answer failed, or a write in the transport did. |
| `PeerLoopRuns.WrittenExactly` | rtc/peer2.rs:826-921 | Media is written exactly when it is not empty, the transport has connected and its line has been negotiated. |
| `PeerLoopRuns.PendingExactly` | rtc/peer2.rs:339-341 | The offer is pending from the start of an initial offerer's loop to the first answer. |
| `PeerLoopRuns.LinesExactly` | rtc/peer2.rs:326-336 | A line for audio or video exists exactly if the initial offerer made it or the transport added it, for video with H.264. |
| `PeerLoopRuns.IceExactly` | rtc/peer2.rs:524-526 | The ICE state is the last one that reached the loop. |
| `CallInvariant.StepKeepsInv` | rtc/engine.rs:303-533 | Every step of the whole system, engine, loops, timers or deferred signals, keeps the invariant. |
| `CallProperties.StructureAlwaysHolds` | rtc/engine.rs:704-1054 | The engine's structure holds in every state of every run, however many incarnations. |
| `CallProperties.RetiredForGood` | rtc/engine.rs:858-874 | An incarnation that was discarded never becomes anyone's peer again. |
| `CallProperties.StaleCommandsIgnored` | rtc/engine.rs:638-647 | A timer or report of a discarded incarnation changes nothing, however late, also after rejoining the same call. |
| `CallProperties.ReplacedAtMostOnce` | rtc/engine.rs:573-622 | Timers replace an incarnation at most once, and never while it is believed connected. |
| `CallProperties.ConnectedIsTrue` | rtc/peer2.rs:421-431 | Whatever the engine believes, or is being told, about a connection was preceded by that very incarnation's transport connecting. |
| `CallProperties.ConnectedStays` | rtc/peer2.rs:535-547 | A loop that has connected stays so in every later state. |
| `CallProperties.NoOffererStranded` | rtc/engine.rs:546-625 | Every initial offerer's failure timer is still to come, or came when its transport had connected; coming now it would replace the peer exactly if nothing says connected. |
| `CallProperties.AwaitingMeans` | rtc/engine.rs:656-669 | The record of disconnected incarnations is exactly those whose last report says ICE disconnected and none since says connected. |
| `CallProperties.DisconnectedIsWatched` | rtc/engine.rs:666-669 | Such an incarnation has a disconnect timer still to come, and coming now it would replace the peer. |
| `CallProperties.NegotiatedOnce` | rtc/engine.rs:1020-1053 | No incarnation is handed two offers, directly, drained or after replacement; the engine knows exactly which had one; each loop applies at most one answer. |
| `CallHistory.AddingDefersTheOffer` | rtc/engine.rs:928-970 | When the answering side adds a peer in the current call, the offer that waited and the candidates after it are put on their way to exactly that incarnation, in order, and nothing else is. |
| `CallHistory.DeferredComesInOrder` | rtc/engine.rs:934-970 | Of signals so deferred, those that have come and those still to come are all of them, in order, unless none had come when the incarnation was gone. |
| `CallHistory.DeferredComesAsCommand` | rtc/engine.rs:957-968 | Each comes back into the queue as a signal of its user in its call. |
| `CallHistory.PendingExactly` | rtc/engine.rs:1037-1044 | In any run what is pending for a user is the first description that has come since it last had a peer in this call and the candidates after it. |
| `CallHistory.HandedExactly` | rtc/engine.rs:1020-1041 | Over any run exactly the signals taken in the current call for users with a peer are handed over, each to the peer of then or to the one that replaces it. |
| `CallHistory.MadeExactly` | rtc/engine.rs:864-980 | Incarnations are made by adding a peer, by a second offer and by a timer that replaces, keeping user, call and role, and by nothing else. |
| `CallHistory.TimersAccounted` | rtc/engine.rs:672-702 | Every timer started fires at most once and is outstanding until then: two for each incarnation that makes the offer, two for each ICE disconnect reported of a peer there is. |
| `CallHistory.BelievesReports` | rtc/engine.rs:656-663 | The engine believes of a peer exactly what has last been reported of its incarnation, and of a new one nothing. |
| `CallHistory.TimerReplacesExactly` | rtc/engine.rs:546-625 | For each kind of timer, exactly when its command replaces a peer; for want of a first signal if neither an offer nor an answer was handed to the incarnation and nothing says it is, or by ICE ever was, connected. |
| `CallHistory.TimerRestartsExactly` | rtc/engine.rs:608-616 | Exactly when a timer's command restarts ICE. |
| `CallHistory.RestartedExactly` | rtc/engine.rs:608-616 | Over any run ICE is restarted for exactly those. |
| `CallHistory.EmittedExactly` | rtc/engine.rs:352-363 | Over any run the window is told exactly the signals to send taken in a call and the states reported of the peers there are, in order. |
| `CallHistory.LoopsAreRuns` | rtc/peer2.rs:361-415 | In the whole system every incarnation's loop is in the state its own run gives, on its own events and the signals handed to it, each once. |
| `CallRoster.RosterRefines` | rtc/engine.rs:303-533 | The engine refines a roster of call, members and roles that only explicit commands change. |
| `CallRoster.OnlyExplicitCommandsCount` | rtc/engine.rs:578-622 | In any run members and roles are what joins, leaves, adds and removes made them: timers, offers and reports leave no trace. |
| `CallRoster.StopsExactly` | rtc/engine.rs:352-357 | The command loop has ended if and only if a signal to send was taken outside a call. |
| `CallRoster.LeavingCanStopTheEngine` | rtc/engine.rs:352-357 | Eight steps that end it. |
| `CallBound.BoundIsTight` | rtc/engine.rs:858-862 | With 65537 incarnations a discarded one's timer replaces the current peer: the bound of the theorems above cannot be raised. |

## Left out

- Foreign code: the Opus decoder and encoder, the resampler, the echo canceller, the WebRTC transport and the hardware codecs are parameters; the lengths they return are assumed to fit the buffers they write to.
- EngineLoop.EngineEventLoop.AddPeerTo: peer states are values in a map, as the table of the engine holds them, not objects; the tables of tracks, of the peer queue and of close signals are absent, since nothing fills them.
- CallHistory.DeferredComesInOrder: the delay is any time; the batch of an incarnation is dropped only while its user has another peer or none, since until then the peer is held.
- CallProperties.NegotiatedOnce: an incarnation's id is its number modulo 65536, as wrapping arithmetic has it, and the theorems about incarnations assume at most 65536 of them, which `BoundIsTight` shows to be needed.
- VideoRoundTrip.DeltaFrameRoundTripsExactly: at most 2^32 units, which takes in every frame under 20 GiB; beyond that a length that wraps around could be right by accident. Units hold no start code, as section 7.4.1 of ITU-T H.264 has it.
- VideoRoundTrip.KeyFrameRoundTripsExactly: the same bound on the number of units.
- VideoRoundTrip.StreamRoundTrip: key frames of one IDR slice and other frames of one slice, with parameter sets that fit the windows; the lemmas with exact conditions say what becomes of others. Making a format or a session is assumed to succeed.
- VideoRoundTrip.LengthFieldExactly: the signed subtraction is checked, as in a debug build; a release build would wrap to the right length.
- Jitter.JitterBuffer.PushAudioFrame: the deque's capacity is any number from 96000 on, since the allocator promises only a lower bound; samples are reals that are only copied; the 64-bit counters do not wrap.
- JitterProperties.LossesRecoveredOnce: statistics sent to the debugger are absent.
- MicInput.AudioInputEventLoop.OnDeviceData: starting a device stream, its delay measurement and the settings behind it are absent.
- Media, window and device commands of the engine, and bandwidth settings, are one command that changes nothing modelled.
- VideoEncoder.RecordContext.HandleSampleBuffer: sending to the capturer is assumed to find room in its channel; presentation times are exact numbers.
- Wall-clock delays: timers fire and deferred signals arrive in any order, also long after the others.
- PeerLoop.PeerRunLoop.DoWriteMedia: the path for raw audio is absent, since nothing sends on it; data channels and key-frame requests are absent.
- The mixing player, the audio queue of the capturer, device selection, the ICE agents, the renderer and the window commands.
