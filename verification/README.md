# Ventrilo client: verified model

A Dafny model of the hard parts of a Ventrilo 3 client: the C protocol library `libventrilo3` and the Swift layer on
top of it. Code that works by changing things in place is modelled by classes, arrays and loops and proved against
specification functions; what the program promises is then proved about those functions, over every input, every run
or every interleaving.

`dafny verify dfyconfig.toml` checks the whole project.

## The parts

**Recordings** (`VrfFormat`, `VrfLog`, `VrfContent`, `VrfImage`, `VrfLayout`, `VrfRecorder`, `VrfRecover`,
`VrfRecovery`, `VrfInterrupt`, `VrfExact`, `VrfReader`, `VrfPlayback`, `VrfHeard`, `VrfOlder`). The recorder is a small
log-structured store: it receives interleaved voice and text events, keeps a queue of open segments, streams only the
head to the file, and patches each finished segment's header in place. `VrfLog` says what a history of events means, and
`VrfContent` judges that by the history alone; the class in `VrfRecorder` refines it, byte for byte, and `VrfLayout`
says what stands at which offset. `VrfRecover` is a second, independent algorithm that rebuilds everything from an
unfinished file; `VrfRecovery` proves when the two give the same bytes, `VrfInterrupt` what the scan makes of a text
bind inside a talk spurt, `VrfExact` when they are equal over every history, and `VrfPlayback` and `VrfHeard` what a
player gets back; `VrfOlder` reads recordings of an older kind.

**Capture and transmission** (`VoxGate`, `VoxTiming`, `VoxRuns`, `VoxSamples`, `AudioBacklog`, `CaptureDelivery`,
`CaptureSystem`, `CaptureActors`, `CaptureSafety`, `CaptureOrder`, `CaptureDelivered`, `CaptureSettles`,
`CaptureBudget`, `CaptureSwitch`, `TalkControl`, `TalkSettles`, `TalkStore`). The main thread, the audio tap and one
serial worker form a step system with two transmitters; a voice-activity gate sits on the second one. Safety, order,
delivery, accounting and the hand-over between the two are proved over every interleaving. Each step of the system is
one critical section of the original; a tap step and the enqueueing after it are separate steps, and so are the halves
of a stop. `CaptureActors` holds the objects whose methods are proved to be these steps. `TalkControl` is the connection
store above them, whose blocks call the transmitters, and `TalkStore` its object.

**Encrypted channel** (`Cipher`, `Framing`). A stream cipher whose position runs on across messages, key scrambling in
the middle of the stream, and length framing over a stream that arrives in arbitrary pieces.

**Channels** (`Channels`, `ChannelRuns`, `ChannelList`, `ChannelPath`, `ChannelRoundTrip`). The linked list on the heap
with its "move before", which refines an ordered map, and the path printer and path lookup.

**Roster** (`Roster`, `RosterRows`, `RosterNames`, `ConnectionStore`). The recursive flatten of the channel tree, which
ends without a visited set, and the cached rows.

**Reframing and events** (`PcmFramer`, `EventQueue`). Cutting resampled audio into packets with a pipe for the rest; the
event list with its tail pointer, and who is woken when.

**Checksum and password** (`CrcTable`, `Checksum`, `PasswordHash`).

**Server settings** (`Decimal`, `ServerSettings`, `ServerTransfer`, `ServerRuns`). Two transfers, one property to a
message, against a server that stores and echoes.

**List messages** (`MessageCodec`, `MessageLists`, `MessageRecords`). Records with 16 bit lengths.

`NodeChain` holds the heap nodes of the two linked lists. `Bytes` holds fixed-width integers, C strings and the file as
a growable byte sequence; `Options` a value that may be missing.

## Where the code and its promises differ

The model follows the code. Each difference has its exact condition or a concrete run:

- A text bind of a user who is talking joins the voice segment (`VrfRecovery.UniformIffClean`). If the first such bind
  on disk came before 236 milliseconds, recovery refuses the file, whatever follows (`VrfExact.EarlyBindRefused`).
  Recovery equals an orderly stop exactly when nothing waits in memory and every such bind came at 240 milliseconds, or
  in the last segment at 236 or later, its text repeats that time in its second four bytes, and the voice before it has
  no other time (`VrfExact.RecoveryExactly`).
- `VoxGate` on its own can report a close that closes nothing (`VoxTiming.CloseWhileClosedIff`); inside the
  transmitter this cannot happen (`CaptureSafety.EveryCloseEndsOne`).
- An error block that a new start has overtaken leaves the microphone on with the stop button dead
  (`CaptureSwitch.FlaggedIffNoStaleHop`, `CaptureSwitch.MicrophoneLeftOn`), and voice activation can then start over it
  (`TalkControl.SharingLost`).
- A late error report, or choosing push-to-talk again while talking, puts the talk indicator out without a stop, and
  releasing the key then does nothing (`TalkControl.HeardIffNeverForgets`, `TalkControl.KeyForgotten`).
- A channel with the id of the root that reaches the root makes the flattening of the roster run without end
  (`RosterRows.NoFlattening`); a cycle of parents does the same to the path printer (`ChannelPath.LoopEndsIff`).
- A stop of the reframer can lose audio: it sends one packet even when more than one is waiting
  (`PcmFramer.StopKeepsAllIff`).
- One signal for the first event is enough for one blocking reader only (`EventQueue.OneSignalSuffices`).
- A channel name of exactly 32 bytes still resolves, although the lookup's buffer has no room for its terminator
  (`ChannelRoundTrip.RoundTripIff`).
- The inactivity channel does not come back from an update when its path is longer than 255 bytes, for names of at most
  32 bytes (`ServerRuns.ShortNamesComeBackIff`).
- A key byte can be zero after a scramble, at index 220 only (`Cipher.ScrambledKey`).
- Strings of 65534 bytes and more, and arrays of 32767 elements and more, are not read back
  (`MessageCodec.StringTripIff`, `MessageCodec.ArrayTripIff`).

## Model

| member | source | states |
|---|---|---|
| `VrfFormat.GetHeaderPutHeader` | Sources/CVentrilo3/libventrilo3.c:3067-3105 | the file header read back from its 10552 network-order bytes is the header written, for every header |
| `VrfFormat.GetSegmentPutSegment` | Sources/CVentrilo3/libventrilo3.c:3150-3172 | the same for a 64 byte table entry |
| `VrfFormat.GetAudioPutAudio` | Sources/CVentrilo3/libventrilo3.c:3175-3197 | the same for an audio record, whose first word, the one the recovery scan looks at, is its header length |
| `VrfFormat.GetFragPutFrag` | Sources/CVentrilo3/libventrilo3.c:3200-3229 | the same for a fragment header |
| `VrfLog.FindOpen` | Sources/CVentrilo3/libventrilo3.c:3298-3310 | the search finds the first segment of the user that has not stopped |
| `VrfLog.StepValid` | Sources/CVentrilo3/libventrilo3.c:3289-3443 | after every event the finished segments are the leading stopped ones, they are on disk, of the others at most the first is, and a user has at most one open segment |
| `VrfLog.RunValid` | Sources/CVentrilo3/libventrilo3.c:3289-3443 | the same over every history of events |
| `VrfLog.DemuxStep` | Sources/CVentrilo3/libventrilo3.c:3289-3443 | one event acts on the segments of each user exactly as on a recorder that serves this user alone |
| `VrfLog.DemuxIsSolo` | Sources/CVentrilo3/libventrilo3.c:3289-3443 | demultiplexing is lossless: for every interleaved history and every user, the user's segments are those of a recorder that saw this user alone, fragment for fragment and in order |
| `VrfContent.RecordingTells` | Sources/CVentrilo3/libventrilo3.c:3289-3383 | over every history, judged by the history alone: the fragments of a user are that user's data events, one by one, each with its own time, PCM length, codec, format and payload, or its time and text; a segment begins exactly where a stop, a text, a flush or somebody unknown came since the event before; it carries the user, kind and name of its first event; and it is finished exactly if something has ended it |
| `VrfContent.SoloTells` | Sources/CVentrilo3/libventrilo3.c:3289-3383 | the same of a recorder that hears this user alone |
| `VrfContent.OneSpeakerOnDisk` | Sources/CVentrilo3/libventrilo3.c:3400-3443 | while one user is recorded alone every segment is on disk after every event, so that a crash loses nothing |
| `VrfImage.PatchNext` | Sources/CVentrilo3/libventrilo3.c:3429-3434 | overwriting the audio record of the next finished segment in place changes its fragment count and no other byte of the file |
| `VrfImage.FinishBytes` | Sources/CVentrilo3/libventrilo3.c:3457-3482 | finishing any file appends the table and rewrites only the header, with the table offset, the final id and the size |
| `VrfImage.FinishIsFinal` | Sources/CVentrilo3/libventrilo3.c:3457-3482 | finishing a file of complete segments gives header, segments in index order and table |
| `VrfLayout.HeaderOfFile` | Sources/CVentrilo3/libventrilo3.h:508-528 | a finished recording is its header, its segments and its table and nothing else; the header shows mark, file size, table offset and entry count at their places, in network byte order, and otherwise what the recording was started with |
| `VrfLayout.SegmentOfFile` | Sources/CVentrilo3/libventrilo3.h:530-551 | the record of each segment stands behind the 64 bytes and the fragments of every segment before it, with length, kind, index, fragment count and name at their places; and its table entry with length, kind, validity, that offset, time and duration |
| `VrfLayout.FragmentOfFile` | Sources/CVentrilo3/libventrilo3.h:553-565 | each fragment stands behind those before it: lengths, time, codec and format at their places and then the payload, or length and time and then the text in 256 bytes |
| `VrfLayout.TimesMean` | Sources/CVentrilo3/libventrilo3.c:3317-3383 | the time of a segment is that of its first voice fragment that has one, or of its text, and its duration reaches to its last fragment |
| `VrfRecorder.Recorder.Search` | Sources/CVentrilo3/libventrilo3.c:3298-3310 | the walk over the queue finds the slot of the first open segment of the user, or its end |
| `VrfRecorder.Recorder.CollectData` | Sources/CVentrilo3/libventrilo3.c:3292-3375 | a fragment joins the slot of its segment, or begins one at the end of the queue, with all headers, counters and times it needs later |
| `VrfRecorder.Recorder.WriteOut` | Sources/CVentrilo3/libventrilo3.c:3400-3421 | the write loop puts the head and the stopped slots right behind it on disk, each segment contiguous and in index order |
| `VrfRecorder.Recorder.PopOne` | Sources/CVentrilo3/libventrilo3.c:3423-3442 | one pop turns a stopped head into the next table entry and patches its audio record on disk |
| `VrfRecorder.Recorder.PopStopped` | Sources/CVentrilo3/libventrilo3.c:3422-3443 | the pop loop ends with exactly the leading stopped segments popped |
| `VrfRecorder.Recorder.RecordEvent` | Sources/CVentrilo3/libventrilo3.c:3261-3454 | the code on queue, table and file refines the abstract recorder: after every event the representation holds and the log is the next log |
| `VrfRecorder.Recorder.AtRest` | Sources/CVentrilo3/libventrilo3.c:3400-3443 | between events the file is header, finished segments in index order, and the flushed part of the queue head only |
| `VrfRecorder.Recorder.Stop` | Sources/CVentrilo3/libventrilo3.c:3548-3568 | an orderly stop leaves exactly the final image of all segments recorded |
| `VrfRecovery.FragmentRead` | Sources/CVentrilo3/libventrilo3.c:2890-2968 | where a recorded fragment stands, the scan finds it with its own header length, payload length and time |
| `VrfRecover.ScanFile` | Sources/CVentrilo3/libventrilo3.c:3602-3673 | the scan loop computes the specified table, or fails, without touching the file |
| `VrfRecover.RecoverFile` | Sources/CVentrilo3/libventrilo3.c:3571-3705 | the recovery code computes the specified file; a failed scan changes nothing |
| `VrfRecovery.ScanFragments` | Sources/CVentrilo3/libventrilo3.c:3631-3665 | scanning the fragments of a segment one by one rebuilds the count, time and duration that the recorder kept in memory, modulo 2^32 |
| `VrfRecovery.ScanCrash` | Sources/CVentrilo3/libventrilo3.c:3602-3673 | the scan of a crash file finds exactly the segments that reached it, with their offsets, names, times and counts |
| `VrfRecovery.PatchCrash` | Sources/CVentrilo3/libventrilo3.c:3674-3693 | patching entry after entry turns a crash file whose first records are patched already into one where all are |
| `VrfRecovery.RecoverPrefix` | Sources/CVentrilo3/libventrilo3.c:3571-3705 | recovery of a crash file is the finished file of the segments on disk |
| `VrfRecovery.UniformIffClean` | Sources/CVentrilo3/libventrilo3.c:3298-3316 | every segment holds one kind of fragment exactly when no text bind came from a user whose voice segment was open |
| `VrfRecovery.CrashKeepsPrefix` | Sources/CVentrilo3/libventrilo3.c:3571-3705 | after every clean history, recovery keeps exactly the index prefix of segments that had reached the disk |
| `VrfRecovery.RecoveryEqualsStop` | Sources/CVentrilo3/libventrilo3.c:3571-3705 | after every clean history, recovery and an orderly stop give the same bytes if and only if no segment was waiting in memory |
| `VrfRecovery.RecoverTwice` | Sources/CVentrilo3/libventrilo3.c:3575-3582 | recovering a recovered file changes nothing, for every file that recovery accepts |
| `VrfInterrupt.NoteReadAsVoice` | Sources/CVentrilo3/libventrilo3.c:2899-2963 | a bind inside a voice segment is read as a voice fragment whose length is the time of the bind and whose time is the second word of the text |
| `VrfInterrupt.NoRecordInText` | Sources/CVentrilo3/libventrilo3.c:3624-3670 | no word of a zero-padded text is the length of a record, so a scan that lands inside a text fails |
| `VrfInterrupt.RunShaped` | Sources/CVentrilo3/libventrilo3.c:3289-3443 | after every history each segment is uniform or a talk spurt that one bind has ended |
| `VrfInterrupt.ScanPassing` | Sources/CVentrilo3/libventrilo3.c:3602-3673 | behind a bind the scan finds the next record if the bind came at exactly 240 milliseconds, or in the last segment at 236 or later, and makes the entry with one more fragment |
| `VrfInterrupt.RecoverStuck` | Sources/CVentrilo3/libventrilo3.c:3571-3705 | if every earlier segment passes, a bind before 236 milliseconds, or before 240 with a segment behind it, makes recovery refuse the file |
| `VrfInterrupt.RecoverPassing` | Sources/CVentrilo3/libventrilo3.c:3571-3705 | if every segment on disk passes, recovery finishes the file, and it is the file of an orderly stop if and only if every interrupting text repeats the time of its bind and the voice before it has no other time |
| `VrfExact.ScanOnward` | Sources/CVentrilo3/libventrilo3.c:3602-3673 | a scan never changes the offset of an entry, and writes down only offsets at or behind the place where it stands |
| `VrfExact.ScanMisses` | Sources/CVentrilo3/libventrilo3.c:3602-3673 | a bind after 240 milliseconds takes the scan past the segment behind it, so that no entry of the table stands for that segment |
| `VrfExact.MustPass` | Sources/CVentrilo3/libventrilo3.c:3571-3705 | if recovery builds the finished file of the segments on disk, the scan passes every one of them |
| `VrfExact.RecoveryExactly` | Sources/CVentrilo3/libventrilo3.c:3571-3705 | over every history of events, clean or not: recovery gives the finished file of the segments on disk if and only if all pass and every interrupting text repeats the time of its bind with no other time before it; and it equals an orderly stop if and only if, besides, nothing waits in memory |
| `VrfExact.EarlyBindRefused` | Sources/CVentrilo3/libventrilo3.c:3571-3705 | over every history: the file is refused if the first segment on disk that was interrupted has a bind before 236 milliseconds, or before 240 with more segments behind it |
| `VrfExact.InterruptedPair` | Sources/CVentrilo3/libventrilo3.c:3298-3383 | for one voice packet and one bind, the same condition on the two events: their times, the text and the length of the packet |
| `VrfReader.PlaySegment` | Sources/CVentrilo3/libventrilo3.c:2971-3064 | reading until the count is used up computes the specified list of payloads |
| `VrfReader.EntryOf` | Sources/CVentrilo3/libventrilo3.c:2734-2790 | entry k of the table on disk is segment k, with its type, name, time, duration and offset |
| `VrfReader.ReadBack` | Sources/CVentrilo3/libventrilo3.c:2890-3064 | reading segment k of a finished recording returns exactly its payloads in order if every payload has an admissible length, and fails otherwise |
| `VrfPlayback.RecordThenPlay` | Sources/CVentrilo3/libventrilo3.c:2890-3064 | after every clean history and an orderly stop, reading the segments of a user in table order gives, spurt for spurt, what a recorder of this user alone would have kept |
| `VrfPlayback.CrashThenPlay` | Sources/CVentrilo3/libventrilo3.c:3571-3705 | after every clean history and a crash, every segment that had reached the disk is read back the same way from the recovered file |
| `VrfHeard.StoppedIsHeard` | Sources/CVentrilo3/libventrilo3.c:2890-3064 | end to end, without the recorder's terms: after every clean history and a stop, a user's segments, read in table order, give for that user's data events, one after another, exactly the codec, format and payload of the event, or its text in 256 bytes, if all payloads have 1 to 2048 bytes; and otherwise the reader refuses |
| `VrfHeard.RecoveredIsHeard` | Sources/CVentrilo3/libventrilo3.c:3571-3705 | after a crash the recovered file gives the first of those events in the same way, as many as the segments on disk hold |
| `VrfPlayback.ReadInterrupted` | Sources/CVentrilo3/libventrilo3.c:2890-3064 | reading a segment that a bind interrupted gives all its voice and then, as one more sound, the bytes of the text from the seventeenth on, as many as the time of the bind; or it fails |
| `VrfReader.PlayedAt` | Sources/CVentrilo3/libventrilo3.c:2999-3055 | result i of a reading is the payload and codec of voice fragment i, or the padded text of a bind |
| `VrfOlder.OldersPlayed` | Sources/CVentrilo3/libventrilo3.c:2890-3064 | a segment of the older kind, with fragment headers of 16 bytes, plays its payloads in order with the codec of the file, if all have 1 to 2048 bytes and a header length, and is refused otherwise |
| `VrfOlder.OlderTallied` | Sources/CVentrilo3/libventrilo3.c:3652-3664 | recovery times older segments as it does those of the present kind |
| `VoxGate.VoxGate.Process` | Sources/VentCore/VoxGate.swift:63-98 | the pruning loop and the branches compute the specified next state and action |
| `VoxGate.VoxGate.SetMuted` | Sources/VentCore/VoxGate.swift:45 | muting an open gate records a close to be delivered with the next chunk |
| `VoxGate.VoxGate.Reset` | Sources/VentCore/VoxGate.swift:58-61 | a reset clears everything but the configuration and the mute switch |
| `VoxTiming.StaysOpen` | Sources/VentCore/VoxGate.swift:90-97 | while no chunk meets the closing condition every chunk is transmitted, and the clocks measure the time since opening and since the last chunk at or above the close threshold |
| `VoxTiming.ClosesExactly` | Sources/VentCore/VoxGate.swift:90-97 | the gate closes at the first chunk that is both beyond the minimum on-time and beyond the hangover, and at no other |
| `VoxTiming.StaysClosed` | Sources/VentCore/VoxGate.swift:76-81 | while nothing reaches the open threshold the pre-roll is exactly the recent chunks |
| `VoxTiming.OpensWithRecent` | Sources/VentCore/VoxGate.swift:76-88 | the flush on opening is exactly the maximal suffix of chunks since the gate was cleared that ended within the pre-roll time |
| `VoxRuns.GateRun` | Sources/VentCore/VoxGate.swift:63-98 | over every sequence of chunks into a cleared, unmuted gate, each answer is that of the reference: silence, an opening with the recent chunks, transmission, or a close |
| `VoxRuns.LegMeans` | Sources/VentCore/VoxGate.swift:63-98 | what the reference means by a closed and an open leg: where the last close or opening was, that nothing loud came since, or that no chunk since met the closing condition |
| `VoxRuns.RecentSplits` | Sources/VentCore/VoxGate.swift:76-88 | the flush of an opening is the longest suffix of the closed leg that ended within the pre-roll time |
| `VoxSamples.DurationLaw` | Sources/VentCore/VoxGate.swift:65 | a chunk lasts as many milliseconds as its samples times 1000 over its rate, and none at rate 0 |
| `VoxSamples.ClosingInSamples` | Sources/VentCore/VoxGate.swift:90-97 | for chunks of one rate the gate may close exactly if the samples since the last loud chunk and since the opening exceed hangover and minimum on-time |
| `VoxSamples.GateRunInSamples` | Sources/VentCore/VoxGate.swift:63-98 | over every sequence of chunks of one rate every opening, its flush and every closing come as counting samples says, without any duration |
| `VoxSamples.MutedRun` | Sources/VentCore/VoxGate.swift:70-74 | muted, the gate transmits nothing: at most its first answer is a close, and nothing captured meanwhile is held |
| `VoxTiming.CloseWhileClosedIff` | Sources/VentCore/VoxGate.swift:45-98 | the gate on its own reports a close without being open exactly when it is muted with a stale mute-close, which arises only from a natural close before the mute-close was delivered |
| `VoxTiming.SpuriousClose` | Sources/VentCore/VoxGate.swift:45-98 | such a close occurs: mute, unmute, natural close, mute |
| `AudioBacklog.AudioBacklog.Reserve` | Sources/VentCore/AudioBacklog.swift:12-17 | a reservation is granted exactly within the limit and carries the present generation |
| `AudioBacklog.AudioBacklog.Complete` | Sources/VentCore/AudioBacklog.swift:19-23 | a completion of another generation changes nothing |
| `AudioBacklog.AudioBacklog.Reset` | Sources/VentCore/AudioBacklog.swift:25-29 | a reset forgets everything pending and begins a generation |
| `AudioBacklog.AudioBacklog.Play` | Sources/VentCore/Audio.swift:124-136 | a refused buffer resets the backlog and is tried once more |
| `AudioBacklog.AlwaysBalanced` | Sources/VentCore/AudioBacklog.swift:4-30 | in every reachable state the pending time is the sum of the outstanding reservations of the present generation and never exceeds the limit |
| `AudioBacklog.ClampNeverActs` | Sources/VentCore/AudioBacklog.swift:19-23 | so the clamp at zero never acts, and a stale completion changes nothing |
| `AudioBacklog.PlayAccepts` | Sources/VentCore/Audio.swift:124-131 | the player drops a buffer exactly when it is empty or alone exceeds the limit |
| `CaptureDelivery.CaptureDelivery.Submit` | Sources/VentCore/AudioBacklog.swift:54-63 | the tap's half: a chunk gets a token only while capture is active and the budget allows it |
| `CaptureDelivery.SubmittedIff` | Sources/VentCore/AudioBacklog.swift:54-63 | a chunk is accepted if and only if the capture is on and five times the samples on their way, with its own, are no more than the rate |
| `CaptureDelivery.CaptureDelivery.Finish` | Sources/VentCore/AudioBacklog.swift:69-73 | the worker's half gives the time back only within the same generation |
| `CaptureActors.Client.Start` | Sources/VentCore/V3Client.swift:357-370 | starting is one turn of the step system: refused while the flag is up, or by a push-to-talk without microphone; otherwise a start is queued and the flag goes up |
| `CaptureActors.Client.Stop` | Sources/VentCore/Audio.swift:307-308 | the first half of a stop is one turn: nothing happens while the flag is down; otherwise the tap is cut off under the lock |
| `CaptureActors.Client.QueueStop` | Sources/VentCore/V3Client.swift:372-377 | the second half, a turn of its own between which and the first worker and tap may act: the stop is queued and the flag goes down |
| `CaptureActors.Client.ErrorHop` | Sources/VentCore/V3Client.swift:337-349 | the block of an error takes the flag down whatever has happened since |
| `CaptureActors.Client.TapChunk` | Sources/VentCore/Audio.swift:271-279 | the tap is one turn; a busy lock drops the chunk |
| `CaptureActors.Client.Enqueue` | Sources/VentCore/AudioBacklog.swift:65-66 | enqueueing is a turn of its own after the lock is released |
| `CaptureActors.Client.Work` | Sources/VentCore/Audio.swift:248-321 | the worker's next piece of work is one turn of the step system |
| `CaptureActors.Client.WorkStart` | Sources/VentCore/Audio.swift:248-300 | a start on the worker begins a session and its callbacks, or reports the failure |
| `CaptureActors.Client.WorkStop` | Sources/VentCore/Audio.swift:309-321 | a stop on the worker ends the session and always runs its callback |
| `CaptureActors.Client.WorkMute` | Sources/VentCore/V3Client.swift:415-425 | a mute on the worker stops an open transmission and clears the gate |
| `CaptureActors.Client.DeliverChunk` | Sources/VentCore/V3Client.swift:365-367 | a chunk that has passed the check is sent by push-to-talk, or goes through the gate |
| `CaptureActors.Client.Gated` | Sources/VentCore/V3Client.swift:463-480 | the chunk callback sends the flush chunk by chunk and acts as the gate decides |
| `CaptureActors.Client.GiveBack` | Sources/VentCore/AudioBacklog.swift:69-73 | the deferred block gives the time back and ends the piece of work |
| `CaptureSafety.FitsStep` | Sources/VentCore/Audio.swift:245-321 | every step of main thread, tap and worker keeps the invariant that ties tokens, sessions, the running flags, the gate and the calls made |
| `CaptureSafety.CaptureIsSafe` | Sources/VentCore/Audio.swift:245-321 | over every interleaving, PCM is sent only between a start and the next stop, no two starts lack a stop between them, no chunk is sent in a session other than the one it was captured in, and on the voice-activated side no two stops lack a start |
| `CaptureSafety.EveryCloseEndsOne` | Sources/VentCore/V3Client.swift:397-494 | over every interleaving, every stop of the voice-activated transmitter ends a transmission |
| `CaptureSafety.PttStopsUnstarted` | Sources/VentCore/V3Client.swift:336-338 | the push-to-talk transmitter does stop what it has not started: a capture that fails at once is the run |
| `CaptureSafety.WorkerViewIsRight` | Sources/VentCore/V3Client.swift:412-494 | on the worker the transmitter's flag is the gate's own state, which is whether it is on the air, and no mute-close is ever stale |
| `CaptureOrder.SentIsSubsequence` | Sources/VentCore/V3Client.swift:457-481 | over every interleaving the chunks sent are a subsequence of the chunks captured, in order and without repetition |
| `CaptureDelivered.PttSendsGiven` | Sources/VentCore/V3Client.swift:365-367 | over every interleaving push-to-talk sends exactly the chunks it is given, once each and in order |
| `CaptureDelivered.VoxSendsAnswers` | Sources/VentCore/V3Client.swift:463-480 | over every interleaving voice activation sends exactly the chunks that the gate's answers name |
| `CaptureDelivered.GivenIsPassed` | Sources/VentCore/AudioBacklog.swift:65-73 | a transmitter is given exactly the chunks whose check found the token current and the chunk recent; at most the last of them is still to come |
| `CaptureDelivered.CapturedIsTaken` | Sources/VentCore/AudioBacklog.swift:54-68 | nothing is lost before the check: what was captured has been checked, in order, or is queued, or is in the hands of the tap |
| `CaptureDelivered.PttSendsAllIff` | Sources/VentCore/V3Client.swift:365-367 | in every run that has drained, push-to-talk has sent exactly the chunks that passed, and everything captured if and only if every check succeeded |
| `CaptureDelivered.PttSendsAll` | Sources/VentCore/V3Client.swift:357-370 | and every check succeeds if the transmitter is not stopped and the worker is never late |
| `CaptureDelivered.StretchIsFeed` | Sources/VentCore/V3Client.swift:463-480 | between two tasks that change the gate it answers as if it stood alone and heard just the chunks given, and what is sent is what these answers name |
| `CaptureDelivered.StretchIsReference` | Sources/VentCore/V3Client.swift:463-480 | from a gate at rest these are the answers of the reference for chunk sequences |
| `CaptureDelivered.GateIsSet` | Sources/VentCore/V3Client.swift:400-425 | over every run the gate is muted, and has the thresholds, as the last mute and threshold tasks said |
| `CaptureDelivered.MutedSendsNothing` | Sources/VentCore/V3Client.swift:415-425 | while the last mute task said so, voice activation sends nothing |
| `CaptureDelivered.MuteTask` | Sources/VentCore/V3Client.swift:415-425 | a mute task that finds the gate open stops the transmission and leaves the gate shut and empty; any other turns the switch and does nothing else |
| `CaptureDelivered.TuneTask` | Sources/VentCore/V3Client.swift:401-409 | a threshold task changes the two thresholds and nothing else |
| `CaptureDelivered.StartTask` | Sources/VentCore/V3Client.swift:457-463 | a start of voice activation that succeeds leaves the gate at rest |
| `CaptureSettles.CapturedIsAccepted` | Sources/VentCore/AudioBacklog.swift:54-63 | over every run exactly the chunks that were offered while the capture was on and within a fifth of a second are captured, as they were offered and in order |
| `CaptureSettles.Settled` | Sources/VentCore/V3Client.swift:357-425 | over every run, once the worker's queue is empty the gate is muted, and opens at the level, as was last asked, and a transmitter whose flag is up has a running capture or an error on its way to the main thread |
| `CaptureBudget.PendingIsDue` | Sources/VentCore/AudioBacklog.swift:40-73 | over every interleaving the pending time of a capture is the duration of its chunks of the present generation that are still on their way, and never exceeds the limit |
| `CaptureBudget.GivenBackExactly` | Sources/VentCore/AudioBacklog.swift:69-73 | so giving time back never reaches below zero |
| `CaptureSwitch.FlagStep` | Sources/VentCore/V3Client.swift:337-377 | every step but one keeps the main thread's flags an upper bound of what will run, and that one step, an error block overtaken by a new start, always breaks it |
| `CaptureSwitch.FlaggedIffNoStaleHop` | Sources/VentCore/V3Client.swift:337-377 | over whole runs the flags are right throughout if and only if no error block is overtaken by a new start |
| `CaptureSwitch.MicrophoneLeftOn` | Sources/VentCore/V3Client.swift:337-377 | a run of eight steps after which the microphone is on the air, nothing is queued, and the stop button does nothing |
| `CaptureSwitch.SwitchingIsSafe` | Sources/VentCore/V3Client.swift:357-377 | if one mode is started only while the other's flag is down, and no error block is overtaken, the two transmitters share the connection safely: never two starts without a stop, neither stops or sends over the other, and the voice-activated side stops only what it has started |
| `CaptureSwitch.UnnoticedIsUnsafe` | Sources/VentCore/V3Client.swift:336-376 | the discipline does not help once an overtaken error block has left push-to-talk on: a permitted start of voice activation and one loud chunk start a second transmission over it |
| `TalkControl.KeptAct` | Sources/VentMac/ConnectionStore.swift:320-344 | every move of the store, inside and between its blocks, keeps the transmitters apart: a start meets the other flag down, and in push-to-talk mode voice activation is down |
| `TalkControl.StoreIsDisciplined` | Sources/VentMac/ConnectionStore.swift:320-344 | so the guards of the store are the switching discipline, over every run of talking, mode changes, muting, device changes, logins, lost connections and capture errors |
| `TalkControl.StoreIsSafe` | Sources/VentMac/ConnectionStore.swift:320-344 | and over every such run in which no error block is overtaken the two transmitters share the connection safely, under every interleaving of taps and worker |
| `TalkControl.HeardIffNeverForgets` | Sources/VentMac/ConnectionStore.swift:184-193 | over whole runs push-to-talk is on only while the talk indicator is lit, in its own mode, connected and not muted, if and only if no late error report and no repeated choice of push-to-talk or login comes while it is on |
| `TalkControl.ForgottenKey` | Sources/VentMac/ConnectionStore.swift:329-344 | after such a move push-to-talk is still on and releasing the key does nothing |
| `TalkControl.KeyForgotten` | Sources/VentMac/ConnectionStore.swift:184-193 | both occur: a failed start whose report comes after the next press, and choosing push-to-talk while talking |
| `TalkControl.ErrorOvertaken` | Sources/VentCore/V3Client.swift:336-348 | the guards do not keep an error block from being overtaken: a failed start, release and press again reach such a state |
| `TalkControl.SharingLost` | Sources/VentMac/ConnectionStore.swift:335-344 | and then the connection is not shared safely: such an error block, a change of mode and one loud chunk are a run of the store in which voice activation starts over push-to-talk |
| `TalkControl.ReleaseStops` | Sources/VentMac/ConnectionStore.swift:329-333 | otherwise releasing the key ends push-to-talk: once the worker queue is drained its capture does not run |
| `TalkSettles.ChoicesTakeEffect` | Sources/VentMac/ConnectionStore.swift:86-104 | over every run of the store, when no block is under way and the worker's queue is empty, the gate is muted, and opens at the level, as was last chosen |
| `TalkSettles.VoiceIsOn` | Sources/VentMac/ConnectionStore.swift:335-344 | without errors of voice activation it is up whenever the store is connected in its mode, and once the queue is empty its capture runs |
| `TalkSettles.KeyStarts` | Sources/VentMac/ConnectionStore.swift:320-327 | pressing the key while connected, in push-to-talk mode, not muted and not talking brings the transmitter up and lights the indicator |
| `TalkStore.TalkStore.StartTalking` | Sources/VentMac/ConnectionStore.swift:320-327 | pressing the key is one block: nothing unless connected, in push-to-talk mode, not transmitting and not muted |
| `TalkStore.TalkStore.StopTalking` | Sources/VentMac/ConnectionStore.swift:329-333 | releasing the key is one block: the transmitter is stopped only if the indicator is lit |
| `TalkStore.TalkStore.SetMode` | Sources/VentMac/ConnectionStore.swift:94-99 | a change of mode stops one transmitter and starts the other, in this order |
| `TalkStore.TalkStore.SetMicMuted` | Sources/VentMac/ConnectionStore.swift:86-91 | muting releases the key and tells the gate |
| `TalkStore.TalkStore.InputChanged` | Sources/VentMac/ConnectionStore.swift:205-213 | a new device restarts voice activation if it runs |
| `TalkStore.TalkStore.LoginCompleted` | Sources/VentMac/ConnectionStore.swift:502-520 | a login connects and brings the mode into effect |
| `TalkStore.TalkStore.HandleStreamEnd` | Sources/VentMac/ConnectionStore.swift:266-271 | the end of the stream stops both transmitters |
| `TalkStore.TalkStore.ShowLevel` | Sources/VentMac/ConnectionStore.swift:172-182 | in voice-activated mode the indicator follows the gate |
| `TalkStore.TalkStore.CaptureFailed` | Sources/VentCore/V3Client.swift:336-348 | the block of a capture error takes a flag down and leaves a report for the store |
| `TalkStore.TalkStore.Continue` | Sources/VentCore/V3Client.swift:357-377 | the next call of a block is one turn of the transmitters |
| `Cipher.DecryptEncrypt` | Sources/CVentrilo3/ventrilo_algo.h:129-183 | decryption undoes encryption for every key, position and message |
| `Cipher.FirstDecryptEncrypt` | Sources/CVentrilo3/ventrilo_algo.h:107-125 | the same for the cipher of the first message |
| `Cipher.OnTheWire` | Sources/CVentrilo3/ventrilo_algo.h:129-183 | byte i on the wire is the plaintext byte plus the key byte at position + i, going round the key, plus i modulo 45, modulo 256; decryption takes the same away; and the position goes on by the length of the message |
| `Cipher.KeyShows` | Sources/CVentrilo3/ventrilo_algo.h:158-183 | two keys encrypt a byte differently if and only if they differ at the position used |
| `Cipher.FirstOnTheWire` | Sources/CVentrilo3/ventrilo_algo.h:107-125 | the same law with the eleven fixed bytes of the first message |
| `Cipher.ScrambledKey` | Sources/CVentrilo3/ventrilo3_handshake.c:113-132 | after a scramble the size is at least 64, the position 0, and a key byte is zero exactly if it is byte 220 and the sum there vanishes |
| `Cipher.ScrambledAt` | Sources/CVentrilo3/ventrilo3_handshake.c:113-132 | each byte of a scrambled key: the first 64 take in the handshake key, the others their place and the size, and a sum of zero is replaced by the place plus 36 |
| `Cipher.HandshakeShows` | Sources/CVentrilo3/ventrilo3_handshake.c:113-132 | when two handshake keys give the same scrambled byte |
| `Cipher.KeyCtx.Encrypt` | Sources/CVentrilo3/ventrilo_algo.h:158-183 | the loop encrypts the buffer in place and carries the position into the next message |
| `Cipher.KeyCtx.Decrypt` | Sources/CVentrilo3/ventrilo_algo.h:129-154 | the same for decryption |
| `Cipher.KeyCtx.Scramble` | Sources/CVentrilo3/ventrilo3_handshake.c:113-132 | the loop over the key buffer computes the specified key |
| `Framing.Socket.RecvMessage` | Sources/CVentrilo3/libventrilo3.c:1262-1316 | whatever the segments of the stream, the receive loop returns the next framed message and leaves the rest |
| `Framing.UnframedFrame` | Sources/CVentrilo3/libventrilo3.c:551-571 | framing and unframing are inverse below 64 KiB |
| `Framing.FrameBytes` | Sources/CVentrilo3/libventrilo3.c:555-566 | the two bytes before a message are its length modulo 65536, the high byte first |
| `Framing.OversizedIsCut` | Sources/CVentrilo3/libventrilo3.c:560-562 | a message of 64 KiB or more does not arrive: its length field reads as a shorter one |
| `Framing.EndToEnd` | Sources/CVentrilo3/libventrilo3.c:1224-1253 | for every script of nonempty messages under 64 KiB with key scrambles at matching boundaries, the receiver gets the plaintexts in order, both keys and positions end equal, and exactly the bytes sent are consumed |
| `Framing.SendMessage` | Sources/CVentrilo3/libventrilo3.c:534-571 | sending encrypts in place and emits one frame |
| `Framing.Receive` | Sources/CVentrilo3/libventrilo3.c:1215-1253 | the client's loop on a socket computes what the stream alone determines, for every segmentation |
| `Channels.MovedIsBefore` | Sources/CVentrilo3/libventrilo3.c:3960-3997 | after a move the channel stands immediately before its target |
| `Channels.MovedKeepsOrder` | Sources/CVentrilo3/libventrilo3.c:3960-3997 | the order of all other channels, as the sort function reports it, is unchanged |
| `Channels.MovedDistinct` | Sources/CVentrilo3/libventrilo3.c:3960-3997 | a move keeps the ids distinct |
| `Channels.MovedMembers` | Sources/CVentrilo3/libventrilo3.c:3960-3997 | and neither loses nor duplicates a channel |
| `Channels.SortMeans` | Sources/CVentrilo3/libventrilo3.c:6243-6265 | the sort function says which of two channels stands first in the list, and 0 unless both do |
| `Channels.UpdatedDistinct` | Sources/CVentrilo3/libventrilo3.c:1436-1484 | an update keeps the ids distinct |
| `Channels.UpdatedPlaces` | Sources/CVentrilo3/libventrilo3.c:1436-1484 | a channel that is there is replaced where it stands, a new one goes to the end, and nothing else moves |
| `Channels.RemovedDistinct` | Sources/CVentrilo3/libventrilo3.c:1665-1689 | a removal keeps the ids distinct and leaves no entry of the removed id |
| `ChannelRuns.RunHolds` | Sources/CVentrilo3/libventrilo3.c:1436-1484 | over every run of updates, removals and moves the ids stay distinct and the list holds exactly what a map under the same operations would |
| `ChannelRuns.RunKeepsOrder` | Sources/CVentrilo3/libventrilo3.c:3960-3997 | over every run, two channels that are neither removed nor moved keep their order, as the sort function reports it |
| `ChannelList.ChannelList.Update` | Sources/CVentrilo3/libventrilo3.c:1436-1484 | on the heap the list stays an acyclic chain and becomes the updated sequence |
| `ChannelList.ChannelList.Remove` | Sources/CVentrilo3/libventrilo3.c:1665-1689 | the same for removal |
| `ChannelList.ChannelList.GetSort` | Sources/CVentrilo3/libventrilo3.c:6243-6265 | the walk reports the order of the two positions |
| `ChannelList.ChannelList.Locate` | Sources/CVentrilo3/libventrilo3.c:3963-3978 | the single loop that restarts at the head once it has found the target finds node, predecessor and destination |
| `ChannelList.ChannelList.Move` | Sources/CVentrilo3/libventrilo3.c:3960-3998 | the splice keeps the chain acyclic and computes the moved sequence, for every pair of ids |
| `ChannelPath.LoopEndsIff` | Sources/CVentrilo3/libventrilo3.c:6338-6359 | the loop over the list, started again after each hit, ends if and only if the ancestry does |
| `ChannelPath.GetPath` | Sources/CVentrilo3/libventrilo3.c:6329-6364 | the restarting loop ends when the ancestry does and prints the names from the root down |
| `ChannelPath.Cut` | Sources/CVentrilo3/libventrilo3.c:6282-6299 | the cutting loop splits the path at the separators and gives up at the first empty part |
| `ChannelPath.GetId` | Sources/CVentrilo3/libventrilo3.c:6268-6326 | the lookup resolves the parts from the root down, each to the first child with that name |
| `ChannelPath.LongPartFails` | Sources/CVentrilo3/libventrilo3.c:6303-6308 | a part of a path with more than 32 bytes finds nothing |
| `ChannelPath.LongNameClipped` | Sources/CVentrilo3/libventrilo3.c:6309-6315 | a child is found by at most the first 32 bytes of its name |
| `ChannelRoundTrip.RoundTripIff` | Sources/CVentrilo3/libventrilo3.c:6268-6364 | printing a channel's path and looking it up gives the channel back if and only if every channel on the way has a nonempty separator-free name of at most 32 bytes and is the first of its parent's children with it |
| `ChannelRoundTrip.LookupIff` | Sources/CVentrilo3/libventrilo3.c:6268-6326 | looking up any text gives the channel if and only if the text joins the clipped names on its way down and every channel there is the first of its clipped name |
| `ChannelRoundTrip.PathRoundTrip` | Sources/CVentrilo3/libventrilo3.c:6268-6364 | so in a forest of plain names, unique among siblings, it always does |
| `Roster.ChildIsNew` | Sources/VentCore/Models.swift:182-188 | a child is never on the way to its parent, because every channel stands at one distance from the root and channel 0 at none; this is why the walk ends |
| `Roster.RunKeepsLast` | Sources/VentCore/Models.swift:127-168 | over every run each user and each channel is in the roster with its last record unless it was removed after that, and a user is talking if and only if the last event about it is a talk start |
| `Roster.LessIffPrecedes` | Sources/VentCore/Models.swift:177-183 | the order of the names is that of the dictionary: the first difference decides, and a proper prefix comes first |
| `Roster.Sorted` | Sources/VentCore/Models.swift:177-183 | the sorted order lists every id once, by name |
| `Roster.AddUsers` | Sources/VentCore/Models.swift:176-181 | the loop appends the named users of a channel, sorted |
| `Roster.AddChannels` | Sources/VentCore/Models.swift:182-188 | the recursive walk appends the rows of the full subtree |
| `Roster.FlattenedTree` | Sources/VentCore/Models.swift:171-192 | unless channel 0 reaches the root, the flatten terminates without a visited set and returns lobby users and then the full forest, depth first |
| `RosterRows.NoFlattening` | Sources/VentCore/Models.swift:171-192 | if channel 0 reaches the root no list of rows is a flattening, so the walk has no end: the condition of the row above is exact |
| `RosterRows.RowsArePresent` | Sources/VentCore/Models.swift:171-192 | every row carries the record that the roster holds now |
| `RosterRows.RowsAreChannels` | Sources/VentCore/Models.swift:171-192 | the rows show exactly the channels that reach the root, each once, with its present record, at depth equal to its distance from the root |
| `RosterRows.RowsArePreorder` | Sources/VentCore/Models.swift:171-192 | every deeper row has its parent's row above it with only rows of the parent's subtree between; the rows are a preorder |
| `RosterRows.UsersFollowTheirChannel` | Sources/VentCore/Models.swift:182-188 | all named users of a channel follow its row at once, with their present records, sorted by name |
| `RosterNames.NamesRise` | Sources/VentCore/Models.swift:171-192 | names never go down in the dictionary from row to row among the channels of one parent, nor among the users of one channel, and no user has two rows |
| `RosterNames.RowsAreUsers` | Sources/VentCore/Models.swift:171-192 | the rows show every named user whose channel is shown or is the lobby, one step to the right of the channel, and no other |
| `ConnectionStore.TreeChangedIff` | Sources/VentMac/ConnectionStore.swift:464-483 | the comparison made before an event is exact: it says changed if and only if channels or users change |
| `ConnectionStore.StaleUser` | Sources/VentMac/ConnectionStore.swift:464-483 | when the comparison says that a user changed, rows that still carry the old record are no flattening of the new roster |
| `ConnectionStore.StaleChannel` | Sources/VentMac/ConnectionStore.swift:464-483 | the same for a channel |
| `ConnectionStore.Store.ApplyRosterEvent` | Sources/VentMac/ConnectionStore.swift:464-496 | after every event the cached rows are a flattening of the present roster, each row with its present record, although they are rebuilt only when the comparison says so |
| `ConnectionStore.Store.RunSession` | Sources/VentMac/ConnectionStore.swift:233-236 | a session begins with an empty roster and rows that fit it |
| `PcmFramer.PacketIsFrames` | Sources/CVentrilo3/libventrilo3.c:7172-7211 | a packet is a whole number of codec frames |
| `PcmFramer.PacketSize` | Sources/CVentrilo3/libventrilo3.h:408-455 | for every codec of the table and one or two channels a packet is not empty and fits the 32768 byte event buffer |
| `PcmFramer.SameRateSamePacket` | Sources/CVentrilo3/libventrilo3.h:408-455 | two codecs of one sample rate have equal packets, which is why a resampler kept across a codec change cuts right |
| `PcmFramer.PacketTable` | Sources/CVentrilo3/libventrilo3.c:7172-7211 | the bytes of a packet at each of the seven sample rates; 20 milliseconds of Opus and 120 of Speex |
| `PcmFramer.TableRows` | Sources/CVentrilo3/libventrilo3.h:408-455 | the rows of the codec table |
| `PcmFramer.Framer.SendAudio` | Sources/CVentrilo3/libventrilo3.c:7256-7382 | either the input is sent as it is, or the resampled output goes through the pipe as specified; the pipe is dropped exactly when rates or channels change or a write fails |
| `PcmFramer.Framer.Reframe` | Sources/CVentrilo3/libventrilo3.c:7317-7360 | the packet loop and the write after it compute the specified packets and remainder, and the byte counter is the pipe's length |
| `PcmFramer.Framer.StopAudio` | Sources/CVentrilo3/libventrilo3.c:7384-7427 | a stop sends what the pipe holds as one packet, zero-filled or cut short, and empties the pipe |
| `PcmFramer.ReframedConserves` | Sources/CVentrilo3/libventrilo3.c:7317-7360 | one call loses and reorders nothing, its packets are full, and the number of bytes left is determined by lengths alone |
| `PcmFramer.SessionConserves` | Sources/CVentrilo3/libventrilo3.c:7317-7360 | over every run packets followed by pipe are the resampler outputs in order, and every packet is full |
| `PcmFramer.PendingAfter` | Sources/CVentrilo3/libventrilo3.c:7317-7360 | after a run less than one packet plus the last output waits in the pipe |
| `PcmFramer.StopKeepsAllIff` | Sources/CVentrilo3/libventrilo3.c:7384-7420 | a stop delivers every byte of the talk spurt if and only if before the last call the total was a whole number of packets or the last output still fits the packet begun |
| `EventQueue.EventQueue.Enqueue` | Sources/CVentrilo3/libventrilo3.c:6887-6924 | on the heap the event goes to the end of the queue, and a signal is due exactly if the queue was empty |
| `EventQueue.EventQueue.Dequeue` | Sources/CVentrilo3/libventrilo3.c:6927-6958 | the head leaves the queue, and the tail pointer with the last event |
| `EventQueue.EventQueue.GetLast` | Sources/CVentrilo3/libventrilo3.c:6977-6991 | the slow walk ends at the node the tail pointer names |
| `EventQueue.EventQueue.Clear` | Sources/CVentrilo3/libventrilo3.c:7006-7020 | clearing empties list, tail and length |
| `EventQueue.FirstInFirstOut` | Sources/CVentrilo3/libventrilo3.c:6887-6959 | over every interleaving between two clears, what was handed out followed by the queue is what was there followed by what was put |
| `EventQueue.OneSignalSuffices` | Sources/CVentrilo3/libventrilo3.c:6903-6950 | signalling only on the first event never leaves a reader parked beside waiting events if and only if there is at most one blocking reader |
| `CrcTable.TableIsBitwise` | Sources/CVentrilo3/libventrilo3.h:287-353 | each of the 256 table entries is eight steps of the bitwise reflected CRC of its index |
| `Checksum.TableCrcIsBitwise` | Sources/CVentrilo3/libventrilo3.c:1396-1398 | the table-driven checksum equals the bitwise one on every message and from every start value |
| `Checksum.CrcLinear` | Sources/CVentrilo3/libventrilo3.c:1396-1398 | checksums of messages of one length add up modulo two as the messages do |
| `Checksum.CrcInjectiveInState` | Sources/CVentrilo3/libventrilo3.c:1396-1398 | no message merges two running values |
| `Checksum.CrcOfWord` | Sources/CVentrilo3/libventrilo3_message.c:1717-1723 | four table steps are thirty-two single-bit steps on the word |
| `Checksum.BurstDetected` | Sources/CVentrilo3/libventrilo3_message.c:1702-1710 | two messages that differ only within four consecutive bytes have different checksums, whatever surrounds them |
| `PasswordHash.Skip` | Sources/CVentrilo3/libventrilo3.c:1401-1403 | the search for a nonzero byte stops within four steps at the nearest one |
| `PasswordHash.HashPassword` | Sources/CVentrilo3/libventrilo3.c:1389-1406 | the code terminates for every nonempty password and computes the specified rounds, with the checksum taken from scratch each round |
| `PasswordHash.SumIsIncremental` | Sources/CVentrilo3/libventrilo3.c:1396-1398 | the checksum that round i takes from scratch over all bytes so far is one bitwise byte step from the bitwise checksum of the first i bytes of the finished hash |
| `PasswordHash.EarlierBytesStay` | Sources/CVentrilo3/libventrilo3.c:1394-1405 | a finished byte is never touched again |
| `PasswordHash.RawSurvivesIff` | Sources/CVentrilo3/libventrilo3.c:1395-1404 | a round leaves its raw byte as it is if and only if that byte is the whole checksum of the bytes before it |
| `PasswordHash.MadeOf` | Sources/CVentrilo3/libventrilo3.c:1394-1405 | every byte of the finished hash in terms of the password, earlier bytes and the sum of the round before: the raw byte is of the password or seven bits of a sum with an earlier byte, a byte of the new sum and 65, and the byte added to it is the first nonzero one of the new checksum from a place that count and raw byte give |
| `PasswordHash.BigEndianValue` | Sources/CVentrilo3/libventrilo3.c:1399 | the four bytes of a sum, the highest first, give the sum |
| `Decimal.AtoiDigits` | Sources/CVentrilo3/libventrilo3.c:4340-4346 | the number read is the number printed |
| `Decimal.DigitsMean` | Sources/CVentrilo3/libventrilo3.c:4424-4430 | a number is printed in base ten without a leading zero |
| `Decimal.AtoiMeans` | Sources/CVentrilo3/libventrilo3.c:4340-4346 | a text of digits, with a sign or without, is read as the number it shows |
| `Decimal.AtoiSkips` | Sources/CVentrilo3/libventrilo3.c:4340-4346 | white space in front of a number does not count |
| `Decimal.AtoiStops` | Sources/CVentrilo3/libventrilo3.c:4340-4346 | reading stops at the first byte that is no digit |
| `Decimal.FilterIsPrinted` | Sources/CVentrilo3/libventrilo3.c:4436-4444 | a filter is printed as three numbers with commas between them |
| `Decimal.ParseFilter` | Sources/CVentrilo3/libventrilo3_message.c:323-351 | the pointer walk splits at the first two commas and leaves the setting alone without them |
| `Decimal.FilterRoundTrip` | Sources/CVentrilo3/libventrilo3_message.c:323-351 | a printed filter is read back, whatever the setting was before |
| `ServerTransfer.Client.Handle` | Sources/CVentrilo3/libventrilo3.c:4322-4591 | one message of the transaction is one step of the specified client; messages of other transactions change nothing |
| `ServerTransfer.Client.Take` | Sources/CVentrilo3/libventrilo3.c:4332-4418 | the switch with its fall-through cases stores the value and asks for the next live property |
| `ServerTransfer.Client.Give` | Sources/CVentrilo3/libventrilo3.c:4419-4525 | the switch over the acknowledged property finds the next live one and prints its value |
| `ServerTransfer.Client.Update` | Sources/CVentrilo3/libventrilo3.c:1153-1167 | an update takes over the settings and sends the first property under a new transaction |
| `ServerRuns.NextIsLeast` | Sources/CVentrilo3/libventrilo3.c:4334-4525 | asking and sending both go to the least live property above, skipping 0x04, 0x06 and 0x17 |
| `ServerRuns.SaveFrom` | Sources/CVentrilo3/libventrilo3.c:4419-4548 | against a server that stores and echoes, a send run ends, stores every live property and emits the specified messages |
| `ServerRuns.SendsInOrder` | Sources/CVentrilo3/libventrilo3.c:4419-4548 | these messages carry live properties in increasing order and end with the closing message |
| `ServerRuns.SendsAll` | Sources/CVentrilo3/libventrilo3.c:4419-4548 | and every live property is among them |
| `ServerRuns.ReadAll` | Sources/CVentrilo3/libventrilo3.c:4332-4418 | a receive run ends, returns the stored settings whatever the client held before, and emits the specified requests |
| `ServerRuns.AsksInOrder` | Sources/CVentrilo3/libventrilo3.c:4332-4418 | these requests are for property 1, the live properties and the end, each once, in increasing order |
| `ServerRuns.UpdateThenRead` | Sources/CVentrilo3/libventrilo3.c:4322-4591 | an update followed by a read returns the same settings, the inactivity channel up to printing and looking up its path |
| `ServerRuns.ChannelComesBackIff` | Sources/CVentrilo3/libventrilo3.c:4468-4476 | that channel comes back if and only if none was named, or the first 255 bytes of its path still join the names on the way down, clipped to 32 bytes, and every channel there is the first that its clipped name finds |
| `ServerRuns.ShortNamesComeBackIff` | Sources/CVentrilo3/libventrilo3.c:4468-4476 | with names of at most 32 bytes: if and only if the path has at most 255 bytes and leads back; a path that was cut never does |
| `MessageCodec.StringTripIff` | Sources/CVentrilo3/libventrilo3_message.c:66-133 | a string is read back with the right advance if and only if it has at most 65533 bytes |
| `MessageCodec.ArrayTripIff` | Sources/CVentrilo3/libventrilo3_message.c:84-118 | an array is read back with the right advance if and only if it has at most 32766 elements |
| `MessageCodec.RecordTrip` | Sources/CVentrilo3/libventrilo3_message.c:136-320 | a user, channel, rank or account is read back, wherever it stands, and the reader stops behind it |
| `MessageCodec.RecordsTrip` | Sources/CVentrilo3/libventrilo3_message.c:136-320 | the same for every list of them |
| `MessageLists.AnnouncedIff` | Sources/CVentrilo3/libventrilo3_message.c:968-972 | the announced length of a record is the number of bytes written if and only if no length in it runs over 16 bits |
| `MessageLists.UsersTrip` | Sources/CVentrilo3/libventrilo3_message.c:1734-1796 | every user list message is read back, consuming exactly its bytes |
| `MessageLists.ChannelsTrip` | Sources/CVentrilo3/libventrilo3_message.c:1820-1842 | the same for channel lists |
| `MessageLists.AccountsTrip` | Sources/CVentrilo3/libventrilo3_message.c:1009-1045 | the same for account lists |
| `MessageLists.ApiUserFits` | Sources/CVentrilo3/libventrilo3_message.c:1782-1784 | a user as the modify event builds it fits the 512 bytes reserved for it |
| `MessageLists.PutUser` | Sources/CVentrilo3/libventrilo3_message.c:268-286 | the cursor-advancing writes put the record into the buffer and change nothing else |
| `MessageLists.PutUsers` | Sources/CVentrilo3/libventrilo3_message.c:1766-1796 | the loop builds the message, and its length is the number of bytes written, in 16 bits |
| `MessageLists.GetUsers` | Sources/CVentrilo3/libventrilo3_message.c:1734-1763 | the reading loop returns the specified users |
| `MessageRecords.StringStands` | Sources/CVentrilo3/libventrilo3_message.c:120-133 | a string stands as its length in two bytes, the higher one first, and its bytes |
| `MessageRecords.ArrayStands` | Sources/CVentrilo3/libventrilo3_message.c:105-118 | an array stands as its count in two bytes, the higher one first, and its elements |
| `MessageRecords.ElementStands` | Sources/CVentrilo3/libventrilo3_message.c:105-118 | and each element in two bytes, the higher one first |
| `MessageRecords.UsersHead` | Sources/CVentrilo3/libventrilo3_message.c:1766-1796 | a user list begins with the type, the subtype and the count, the lower bytes first |
| `MessageRecords.ChannelsHead` | Sources/CVentrilo3/libventrilo3_message.c:1820-1842 | a channel list begins with the type and the count, the lower bytes first |
| `MessageRecords.AccountsHead` | Sources/CVentrilo3/libventrilo3_message.c:1009-1045 | an account list has its count in bytes 10 and 11, the lower one first |
| `MessageRecords.ChannelParts` | Sources/CVentrilo3/libventrilo3_message.c:289-305 | a channel is its head and three strings: name, phonetic name, comment |
| `MessageRecords.RankParts` | Sources/CVentrilo3/libventrilo3_message.c:308-320 | a rank is its head and two strings: name, description |
| `MessageRecords.AccountParts` | Sources/CVentrilo3/libventrilo3_message.c:243-265 | an account is its head, four strings and two arrays: user name, owner, notes, reason of a lock, channels administered and channels allowed |
| `MessageRecords.PutChannel` | Sources/CVentrilo3/libventrilo3_message.c:289-305 | the writes put the channel into the buffer and change nothing else |
| `MessageRecords.PutRank` | Sources/CVentrilo3/libventrilo3_message.c:308-320 | the same for a rank |
| `MessageRecords.PutAccount` | Sources/CVentrilo3/libventrilo3_message.c:243-265 | the same for an account, with a loop for each array |
| `MessageRecords.GetChannel` | Sources/CVentrilo3/libventrilo3_message.c:136-154 | the code that reads a channel returns the specified record and how far it got |
| `MessageRecords.GetRank` | Sources/CVentrilo3/libventrilo3_message.c:182-198 | the same for a rank |
| `MessageRecords.GetAccount` | Sources/CVentrilo3/libventrilo3_message.c:201-241 | the same for an account, with a loop for each array |
| `MessageRecords.GetChannels` | Sources/CVentrilo3/libventrilo3_message.c:1820-1842 | the reading loop returns the specified channels |

## Left out

Recordings:
- VrfRecorder.Recorder.RecordEvent: requires the file to stay below 4 GiB and a nonzero user id, because 0 marks an empty queue slot.
- VrfRecorder.Recorder.Stop: requires the same.
- VrfRecorder.Recorder.Search: the queue of slots is a sequence; its first slot, which the original keeps in place and reuses, and the links between slots are not modelled.
- VrfExact.RecoveryExactly: says whether the two files are equal; what recovery builds when a bind after 240 milliseconds has segments behind it depends on their payloads. A time so large that the offset would wrap counts as refused.
- VrfRecover.ScanFile: an offset that would wrap at 2^32 is an error here; the original wraps and may scan on.
- VrfReader.EntryOf: an id equal to the segment count, and a table whose end wraps at 2^32, are malformed here; the original reads past its table.
- Torn writes inside one event, I/O errors, locks, the clock and the update events for the client; decoding a payload is a foreign call and the payload is what a reading returns.

Capture:
- CaptureSafety.CaptureIsSafe: sessions and generations count up without the wrap of a 64 bit counter, and times are reals.
- The conversion of samples, the level measurement, the voice effect and the audio engine; the level of a chunk, the success of a start and the freshness of a chunk are inputs of a step.
- TalkControl.StoreIsSafe: the states of a connection that is not up are one state here, and error texts are left out; that no error block is overtaken stays an assumption, because the guards do not prevent it (`TalkControl.ErrorOvertaken`, `TalkControl.SharingLost`).

Channel:
- Framing.Receive: errors of `recv` other than the end of the stream, and the handshake that exchanges the keys.
- Cipher.KeyCtx.Encrypt: the branch compiled in for other protocol versions.

Channels and roster:
- ChannelList.ChannelList.Update: the other fields of a channel and the copies of its strings.
- ChannelPath.GetPath: requires an ancestry that ends, which is when the original loop ends.
- Roster.FlattenedTree: requires that channel 0 does not reach the root through its parents, which is when the original ends. Names with equal spelling may come in any order.
- ConnectionStore.Store.ApplyRosterEvent: requires the same of the roster after the event; the returned previous channel and the string ids of the rows. All fields of a record that only the comparison looks at are one field here.

Reframing and events:
- PcmFramer.Framer.SendAudio: read errors and a full pipe; calls that bypass the pipe while it is not empty overtake the queued bytes, as in the original, and are not part of the run theorems. An input above 32768 bytes that needs no conversion is excluded: the original copies it whole into an event buffer of that size.
- EventQueue.EventQueue.Dequeue: the first readers race to create the mutex; a blocking reader's wait is the step system's `Parked`.

Checksum, settings and lists:
- PasswordHash.HashPassword: the empty password, for which the original reads what the buffer held before.
- The sums of message 0x5c, which use the same checksum on a printed number.
- ServerTransfer.Client.Handle: the message that reports a setting of another client, and a message without a value.
- Decimal.AtoiDigits: stated for numbers of 63 bits, far above every field.
- MessageRecords.GetRank: the loops over rank and account lists; the lists themselves are covered by `MessageCodec.RecordsTrip`.
- MessageCodec.GetArray: a count of 32767, for which the original computes -1 elements, gives an empty array here; neither is what was written.
- MessageCodec.RecordsTrip: assumes short fields; after a field that is too long the reader goes on at a wrong offset, where anything may follow.
- Messages of a fixed layout, the user and rank lists in memory, permissions and ban lists, which would add only easy members.
