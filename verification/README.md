# A model of NSVR's synchronised players

NSVR keeps video players on several machines frame-synchronised. A server player owns a base
time on a shared clock and broadcasts heartbeats; client players adopt that base time and
mirror state, volume and mute. This project models the players, the heartbeat wire format and
the frame handoff, and proves what they promise over whole runs.

| file | what it models |
|---|---|
| `Text.dfy` | splitting and joining text |
| `Decimal.dfy`, `Printing.dfy` | integers and six-digit doubles as a stream prints them and the standard parsers read them |
| `PacketHandler.dfy` | the heartbeat wire format: parsing loop, serialiser, receive buffer |
| `Frames.dfy` | the one-slot frame handoff, step by step, between streaming and UI thread |
| `Gst.dfy` | the pipeline: element state, base time, volume, message bus |
| `Players.dfy`, `Updates.dfy` | what the methods of the three player classes compute, on one player's state |
| `PlayerObjects.dfy` | the player classes as an object with fields and methods, each proved against those functions |
| `Invariants.dfy`, `Runs.dfy`, `Preservation.dfy` | an invariant principle; runs of one player; what calls leave alone |
| `Lifecycle.dfy` | opening and closing |
| `CachedState.dfy` | the cached state against the pipeline's |
| `Heartbeats.dfy` | how often a server broadcasts |
| `Rebasing.dfy`, `NetworkSeek.dfy` | the base-time arithmetic, the two-phase seek |
| `SeekRuns.dfy`, `Overtaking.dfy` | the seek in any run; commands made while it waits |
| `Resuming.dfy`, `OwedResume.dfy` | resuming after a pause or a stop |
| `EndOfStream.dfy` | replaying or pausing at the end of the stream |
| `SeekCoalescing.dfy` | the seek lock and the pending slot |
| `MuteVolume.dfy` | mute and volume, and their mirroring |
| `Hearing.dfy`, `ClientSync.dfy`, `Network.dfy` | a client on single heartbeats; convergence of a client; base-time safety and convergence over a lossy network |
| `Playback.dfy` | a server's seek, followed by its clients |
| `Sessions.dfy` | the theorems, read off player objects that an application drives |

`dafny verify dfyconfig.toml` checks everything.

## How to read it

The state of a player is the datatype `PlayerState`; its member functions and those of
`Updates` are the specification of each method. `PlayerObjects.Player` holds the fields of
`Player`, `PlayerServer` and `PlayerClient` and has their methods; a virtual call is resolved
by the player's kind. The theorems are about runs of these functions: any sequence of calls,
updates and pipeline events.

The pipeline is what the code relies on of GStreamer. Position is clock minus base time when
PLAYING and frozen when PAUSED. Whether a state or seek request succeeds at once, later or not
at all is read from an arbitrary oracle; a completed transition posts one message for each
single step, and entering NULL flushes the bus. Most theorems hold for every oracle:
`CachedState`, `Rebasing`, `SeekRuns`, `Resuming`, `Heartbeats`, `MuteVolume`,
`Lifecycle`, `SeekCoalescing`, `Network.BaseTimesSafe`. Progress is proved for requests that do not fail but may finish at any
time (`Unfailing`: `SeekCommitsOnceReady`, `Convergence`, `InStep`), and the number of updates it
takes also for requests that succeed at once (`AllDone`). A calm run is one in which nobody
seeks, changes state or closes, and no seek completion arrives while a seek is pending
(`NetworkSeek.Calm`). Doubles are reals, and the truncating casts, the unsigned subtraction and
the six-digit printing are explicit.

## Where the code does less than one might expect

- A number that is malformed after the fifth command does not fail a packet, and repeated tags count (`PacketHandler.ParseSucceedsIff`).
- A time or volume that prints below the smallest normal double makes a heartbeat unreadable (`PacketHandler.RoundTrip`). A volume can be set so low, and then no client reads the server's heartbeats (`Network.TinyVolumeUnheard`); a server's time never is (`Decimal.ClockInRange`).
- A NUL separator joins with nothing (`Text.ImplodeInvertsExplode`, `ExplodeInvertsImplode`).
- A request made while the duration is 0 stays parked, even when a duration is announced later (`SeekCoalescing.ParkedWithoutDuration`).
- A request the pipeline refuses is not tried again; one refused when a seek completes stays parked with nothing to issue it (`SeekCoalescing.RefusedSeek`, `RefusedOnCompletion`).
- A negative request parked during a seek is never issued (`SeekCoalescing.SeeksCoalesce`, `NegativeRequestLost`).
- Entering NULL with a seek's completion queued loses it and locks seeking until close (`SeekCoalescing.SeeksCoalesce`, `StopLosesCompletion`, `StuckForever`, `Lifecycle.StuckUntilReopened`).
- A seek, or the completion of one, landing after the READY transition leaves the server in READY (`NetworkSeek.SeekWhileParked`, `AsyncDoneStrands`).
- A command made while a seek waits is undone by its commit; pausing, and playing from a pause, replace the seek as well (`Overtaking.CommandsUndone`, `PauseWhileSeeking`, `PlayReplacesSeek`).
- A pause that is late, with a state change still queued, makes a seek of its own (`Resuming.PauseSeeksIff`, `LatePauseSeeks`); a play that overtakes a late pause forgets the resume (`OwedResume.HurriedPlayForgets`).
- A seek made while paused is forgotten by the next play (`Resuming.PausedSeekForgotten`).
- A seek further than the clock has run wraps the base time (`Rebasing.RebaseRight`, `EarlySeekWraps`); a later seek within it repairs the base, whatever it was (`RebaseExact`).
- A server that is opened again owes a resume at 0 from having been closed, so that its first play makes a network seek (`Lifecycle.ReopenedPlay`); one opened for the first time counts from its opening (`FirstPlay`).
- A client whose network clock cannot be made gives up the base it was to adopt (`Hearing.NoClockNoBase`).
- A muted, audible client needs two heartbeats (`MuteVolume.OneHeartbeatNotEnough`); muting twice forgets the volume (`UnmuteRestores`).
- The header calls the heartbeat frequency seconds (include/nsvr/nsvr_player_server.hpp:18-22); the code counts updates, and at the largest value never broadcasts (`Heartbeats.LargestFrequencyIsSilent`).
- Base time 0 means that nothing is pending, so a client never adopts it, and such a heartbeat cancels the pending adoption of a client that has a base (`ClientSync.Convergence`).
- `open` on a medium that cannot be discovered reports success without a pipeline (`Updates.OpenedNothing`).

## Model

| member | source | states |
|---|---|---|
| Text.Explode | source/nsvr/nsvr_internal.cpp:68-90 | the loop with its two cursors returns the pieces between separators, in order, empty ones included |
| Text.Split | source/nsvr/nsvr_internal.cpp:68-90 | one more piece than there are separators, and no piece holds one |
| Text.SplitAtSeparator | source/nsvr/nsvr_internal.cpp:74-86 | the first piece ends at the first separator and the rest is split on its own |
| Text.ImplodeInvertsExplode | source/nsvr/nsvr_internal.cpp:52-90 | joining the pieces of a text with the separator gives the text back exactly when the separator is not NUL, which c_str() makes no glue, or does not occur |
| Text.ExplodeInvertsImplode | source/nsvr/nsvr_internal.cpp:52-90 | splitting a joined non-empty list whose elements avoid the separator gives the list back exactly when the separator is not NUL or there is one element |
| Decimal.StoiReadsPrinted | source/nsvr/nsvr_packet_handler.cpp:53-58 | a printed 32-bit integer is read back exactly |
| Decimal.StoullReadsPrinted | source/nsvr/nsvr_packet_handler.cpp:61-65 | a printed 64-bit base time is read back exactly |
| Decimal.OthersRead | source/nsvr/nsvr_packet_handler.cpp:53-65 | an integer outside 32 bits is refused by stoi, one whose magnitude takes more than 64 by stoull, and a smaller negative one is read modulo 2^64 |
| Decimal.PrintedIsClose | source/nsvr/nsvr_packet_handler.cpp:86-88 | a printed double, of either sign, is off by at most half a unit of its sixth significant digit |
| Decimal.ClockInRange | source/nsvr/nsvr_player_server.cpp:87 | every time a 64-bit clock can show prints within the range a double is read in |
| Decimal.PrintedIdempotent | source/nsvr/nsvr_packet_handler.cpp:86-88 | rounding to six significant digits twice is rounding once |
| Decimal.PrintedInUnit | source/nsvr/nsvr_packet_handler.cpp:88 | a volume in [0, 1] is still in [0, 1] once printed, and silence stays silence |
| Printing.StodReadsPrinted | source/nsvr/nsvr_packet_handler.cpp:41-51 | what the stream prints for a double, in fixed or scientific notation, is read back as its six-digit rounding, or refused when that is out of range |
| Printing.PrintStable | source/nsvr/nsvr_packet_handler.cpp:86-88 | printing the value read back gives the same text |
| Printing.PrintedLength | source/nsvr/nsvr_packet_handler.cpp:86-88 | a double in the range of a 64-bit double prints in at most 13 characters |
| Printing.PrintsAs | source/nsvr/nsvr_packet_handler.cpp:86-88 | 1.5, 0.25, -30, 1e-05 and 2e+06 as the stream spells them: fixed and scientific notation, rounded |
| PacketHandler.Parse | source/nsvr/nsvr_packet_handler.cpp:20-77 | the mutating loop, leaving on an exception, returns and stores what the fold over the split commands does |
| PacketHandler.FoldIsLastWriteWins | source/nsvr/nsvr_packet_handler.cpp:36-66 | each field is the last well-formed write before the first malformed number; the count is the recognised commands until there |
| PacketHandler.ParseSucceedsIff | source/nsvr/nsvr_packet_handler.cpp:20-77 | parsing succeeds exactly for a heartbeat header with five recognised commands, distinct or not, before the first malformed number or the end |
| PacketHandler.OrderInsensitive | source/nsvr/nsvr_packet_handler.cpp:36-66 | five well-formed commands with distinct tags parse to the same packet in any order, with any empty or unknown commands between |
| PacketHandler.SerializeSplits | source/nsvr/nsvr_packet_handler.cpp:79-97 | a serialised packet is a heartbeat whose commands are the five tagged values |
| PacketHandler.RoundTrip | source/nsvr/nsvr_packet_handler.cpp:20-97 | parsing a serialised packet succeeds, into any packet, exactly when time and volume as printed are zero or normal doubles; then mute, state and base are exact, time and volume as printed |
| PacketHandler.SerializeStable | source/nsvr/nsvr_packet_handler.cpp:79-97 | serialising the packet read back gives the same text |
| PacketHandler.OnTheWire | source/nsvr/nsvr_packet_handler.cpp:20-97 | the heartbeat of a server in PLAYING (4) at 1.5 s, volume 0.25, base 123 is one literal text, tags, separators and all, and that text is read back as it |
| PacketHandler.WireSize | source/nsvr/nsvr_packet_handler.cpp:79-97 | a heartbeat has at most 80 characters, none of them NUL |
| PacketHandler.HeartbeatReceived | source/nsvr/nsvr_client.cpp:168-187 | a heartbeat passes unchanged through the zeroed 1024-byte buffer read as a C string |
| Frames.NoSharedAccess | source/nsvr/nsvr_player.cpp:350-365 | in every interleaving, a thread about to touch the sample, buffer or map finds the other outside its own use of them |
| Frames.FramesInOrder | source/nsvr/nsvr_player.cpp:350-365 | in every interleaving the frames shown are pulled samples in order without repetition, each shown while mapped |
| Frames.SamplesConserved | source/nsvr/nsvr_player.cpp:544-562 | over every run each sample pulled is dropped, released by update, released by close, in the slot or in hand: exactly one of these, once |
| Frames.DirtyMeansHeld | source/nsvr/nsvr_player.cpp:544-562 | with both threads at rest the dirty flag says exactly whether a sample is held |
| Frames.NextFrame | source/nsvr/nsvr_player.cpp:350-365 | a sample pulled into a free slot is the next frame shown; into a taken one it is dropped and the waiting frame is shown |
| Frames.ProcessSteps | source/nsvr/nsvr_player.cpp:544-562 | the streaming thread's single steps, uninterrupted, amount to processSample |
| Frames.ConsumeSteps | source/nsvr/nsvr_player.cpp:350-365 | the UI thread's single steps, uninterrupted, amount to the end of update |
| Frames.ReleaseSteps | source/nsvr/nsvr_player.cpp:172-184 | the UI thread's single steps of closing amount to the end of close |
| Frames.FrameSlot.constructor | source/nsvr/nsvr_player.cpp:482-497 | starts empty, not dirty, nothing pulled |
| Frames.FrameSlot.ProcessSample | source/nsvr/nsvr_player.cpp:544-562 | drops the sample when dirty, otherwise stores and maps it and raises the flag |
| Frames.FrameSlot.ConsumeFrame | source/nsvr/nsvr_player.cpp:350-365 | hands out the mapped frame, unmaps and releases it, empties the slot and lowers the flag |
| Frames.FrameSlot.ReleaseFrame | source/nsvr/nsvr_player.cpp:178-183 | unmaps and releases what the slot holds, dirty or not, and empties it |
| PlayerObjects.Player.constructor | source/nsvr/nsvr_player.cpp:11-22 | a closed player: no pipeline, nothing pending, not muted; server fields as its constructor sets them |
| PlayerObjects.Player.QueryState | source/nsvr/nsvr_player.cpp:202-208 | writes the pipeline's state into the cache, waiting for a transition under way that completes in time |
| PlayerObjects.Player.GetTime | source/nsvr/nsvr_player.cpp:410-421 | the position when the pipeline can tell, otherwise the last one known; 0 without a pipeline |
| PlayerObjects.Player.NetworkSetTime | source/nsvr/nsvr_player_server.cpp:40-45 | captures the clock, the clamped target and the pipeline's state |
| PlayerObjects.Player.PlainSetTime | source/nsvr/nsvr_player.cpp:384-408 | parks the request while locked or without a duration; otherwise asks for the clamped seek and, when it is accepted, takes the lock and empties the slot (what a refused one leaves: `SeekCoalescing.RefusedSeek`) |
| PlayerObjects.Player.OnBeforeSetState | source/nsvr/nsvr_player_server.cpp:65-71 | a server owes a resume at 0 before NULL, at the position before PAUSED |
| PlayerObjects.Player.OnStateChanged | source/nsvr/nsvr_player_server.cpp:73-80 | a server found PLAYING that owes a resume asks for that seek and owes no more |
| PlayerObjects.Player.SetState | source/nsvr/nsvr_player.cpp:186-195 | hook, state request, and the change hook when it succeeded at once |
| PlayerObjects.Player.Play | source/nsvr/nsvr_player.cpp:216-221 | PLAYING, then mutes again a muted but audible pipeline, and no other (`MuteVolume.PlayKeepsSound`) |
| PlayerObjects.Player.GetVolume | source/nsvr/nsvr_player.cpp:436-446 | the pipeline's volume, cached as it is read; 0 without a pipeline |
| PlayerObjects.Player.SetVolume | source/nsvr/nsvr_player.cpp:423-434 | clamps, clears the mute flag and sets the pipeline's volume, unless closed, muted and unchanged |
| PlayerObjects.Player.SetMute | source/nsvr/nsvr_player.cpp:448-465 | saves the volume and silences, or restores the saved volume |
| PlayerObjects.Player.Handle | source/nsvr/nsvr_player.cpp:246-345 | one bus message: state changes, seek completions, durations, and the end of the stream, which replays when looping and pauses otherwise (`EndOfStream.StreamEnds`) |
| PlayerObjects.Player.Update | source/nsvr/nsvr_player.cpp:234-348 | the hook, then the bus loop until the bus is empty, with what handling adds |
| PlayerObjects.Player.DispatchHeartbeat | source/nsvr/nsvr_player_server.cpp:82-94 | broadcasts the serialised time, volume, mute flag, cached state and base time |
| PlayerObjects.Player.OnBeforeServerUpdate | source/nsvr/nsvr_player_server.cpp:118-155 | heartbeat when the counter exceeds the frequency, one phase of a pending seek, then the 32-bit count |
| PlayerObjects.Player.AdvanceNetworkSeek | source/nsvr/nsvr_player_server.cpp:130-152 | forces READY first; from a cached READY moves the base, restores the captured state and clears the three fields |
| PlayerObjects.Player.SetHeartbeatFrequency | source/nsvr/nsvr_player_server.cpp:26-33 | a different frequency restarts the count; the same one changes nothing (`Heartbeats.SameFrequencyIsIgnored`) |
| PlayerObjects.Player.OnMessage | source/nsvr/nsvr_player_client.cpp:23-44 | ignores empty and unparsable messages and mirrors the others |
| PlayerObjects.Player.MirrorPacket | source/nsvr/nsvr_player_client.cpp:32-42 | mute, then volume, then a pending base, and the state only when no base is pending |
| PlayerObjects.Player.OnBeforeClientUpdate | source/nsvr/nsvr_player_client.cpp:68-87 | messages first; with a base pending, READY first and adoption once the cache says READY |
| PlayerObjects.Player.ClearClock | source/nsvr/nsvr_player_client.cpp:89-100 | drops the clock and, on a client, unsets the base |
| PlayerObjects.Player.SetupClock | source/nsvr/nsvr_player_client.cpp:46-66 | a client adopts the pending base on a network clock, or is left unset without one; a server starts its base at the clock |
| PlayerObjects.Player.Close | source/nsvr/nsvr_player.cpp:172-184 | hook, stop, release and reset, the mute flag kept |
| PlayerObjects.Player.Open | source/nsvr/nsvr_player.cpp:29-152 | closes, then a new pipeline on its clock to READY and PAUSED; the duration is the medium's (`Lifecycle.OpenIsFresh`), every way to fail but one ends closed (`Lifecycle.FailedOpenCloses`); an undiscovered medium opens nothing and reports success |
| Updates.HandleWork | source/nsvr/nsvr_player.cpp:240-347 | handling a message leaves less to do, so the bus loop ends |
| Updates.OpenedNothing | source/nsvr/nsvr_player.cpp:29-152 | opening reports success without a pipeline exactly when the medium could not be discovered |
| Lifecycle.OpensIff | source/nsvr/nsvr_player.cpp:29-152 | opening succeeds exactly for an undiscovered medium, and for one whose pipeline answers the requests for READY and then PAUSED at once or within the time waited |
| Lifecycle.FailedOpenCloses | source/nsvr/nsvr_player.cpp:29-152 | an opening that fails or finds nothing leaves the player closed, unlocked and reset, its mute, loop and heartbeats kept; without the library it changes nothing |
| Lifecycle.OpenIsFresh | source/nsvr/nsvr_player.cpp:119-148 | a successful opening, whatever came before it, is in PAUSED with the medium's duration, nothing sought, parked or locked, at full volume; settings and heartbeat count are kept, and a server opened before owes a resume at 0 |
| Lifecycle.SeekAfterOpening | source/nsvr/nsvr_player.cpp:148 | the first request then is noted down by a server, issued by another player, for where the request was or the nearer end of the medium |
| Lifecycle.StuckUntilReopened | source/nsvr/nsvr_player.cpp:482-497 | a player locked for good issues nothing until it is opened again, and then its next request |
| Lifecycle.OpenTimeline | source/nsvr/nsvr_player_server.cpp:47-63 | a server's base is the clock of the opening exactly when it could provide its clock; a client's is the base pending before, exactly when there is one and its clock can be made, and nothing is pending then |
| Lifecycle.FirstPlay | source/nsvr/nsvr_player_server.cpp:47-80 | a server opened for the first time and put to PLAYING shows the time since it was opened and makes no seek |
| Lifecycle.ReopenedPlay | source/nsvr/nsvr_player_server.cpp:47-152 | a prompt server that was open before makes a network seek at its first play and plays from 0 as of then |
| Lifecycle.CloseResets | source/nsvr/nsvr_player.cpp:172-184 | closing forgets medium, cache, lock, parked request, time and volume, keeps mute, loop and the heartbeat count, and drops the clock and a client's base |
| Lifecycle.ClosedIgnores | source/nsvr/nsvr_player.cpp:186-238 | a closed player's state calls, updates and heartbeats do nothing, nor do seeks but a server's |
| Lifecycle.TimeRemembered | source/nsvr/nsvr_player.cpp:410-421 | a player shows its pipeline's position and, once a stop leaves none, the last one it has shown |
| Updates.DrainInvariant | source/nsvr/nsvr_player.cpp:240-347 | what handling every message keeps the loop keeps, and it empties the bus |
| Invariants.DrainInv | source/nsvr/nsvr_player.cpp:234-348 | what every single step keeps, a request, a query, a note, a setting, a message read or a seek, the whole bus loop keeps |
| Runs.CommandInv | source/nsvr/nsvr_player.cpp:186-465 | and every command of a player keeps |
| Preservation.SetStateKeeps | source/nsvr/nsvr_player.cpp:186-195 | a state change keeps base, clock, mute, volume, issued seeks and heartbeat bookkeeping |
| Preservation.DrainKeeps | source/nsvr/nsvr_player.cpp:234-348 | the bus loop keeps base, clock and heartbeat bookkeeping |
| CachedState.CacheRightWhenDrained | source/nsvr/nsvr_player.cpp:186-276 | in every run, whatever succeeds, fails or finishes late: bus drained and pipeline not in NULL, the cached state is the pipeline's |
| CachedState.StepCached | source/nsvr/nsvr_player.cpp:186-348 | every call and pipeline event keeps: newest queued state, or the cache, is the pipeline's state outside NULL |
| CachedState.NullIsSilent | source/nsvr/nsvr_player.cpp:186-195 | after a completed setState(NULL) the cache is right exactly on a server or when it already said NULL |
| CachedState.StopLeavesNull | source/nsvr/nsvr_player.cpp:210-214 | stop with working transitions ends in READY with the cache about to say so |
| Heartbeats.HeartbeatCount | source/nsvr/nsvr_player_server.cpp:118-154 | n updates from counter 0 at constant frequency f < 2^32 - 1 broadcast floor((n - 1) / (f + 1)) heartbeats; the counter stays within f + 1 |
| Heartbeats.HeartbeatSpacing | source/nsvr/nsvr_player_server.cpp:124-128 | in every run, the k updates after one that broadcasts broadcast floor(k / (f + 1)) times: consecutive heartbeats are f + 1 updates apart |
| Heartbeats.FrequencyChangeRestarts | source/nsvr/nsvr_player_server.cpp:26-33 | a real change of frequency restarts that count from wherever it was |
| Heartbeats.SameFrequencyIsIgnored | source/nsvr/nsvr_player_server.cpp:28-29 | setting the frequency already set changes nothing, so the counts above hold of runs that do so at any time |
| Heartbeats.LargestFrequencyIsSilent | source/nsvr/nsvr_player_server.cpp:124-154 | at frequency 2^32 - 1 the counter wraps first and no heartbeat is ever sent |
| Rebasing.RebaseRight | source/nsvr/nsvr_player_server.cpp:139-143 | from any base, the committed base plays the target within 1 ns exactly when the clock had run for it: its whole nanoseconds, rounded up when the base was ahead of the clock |
| Rebasing.RebaseExact | source/nsvr/nsvr_player_server.cpp:139-143 | from any base, a target in whole nanoseconds is met exactly |
| Rebasing.EarlySeekWraps | source/nsvr/nsvr_player_server.cpp:139-143 | a seek to 1 s at clock 0 wraps the base into the future |
| Rebasing.BaseInRange | source/nsvr/nsvr_player_server.cpp:40-152 | with the clock past the media duration, every reachable base is within [0, clock] and a pending subtraction never wraps |
| Rebasing.OpenAnchors | source/nsvr/nsvr_player_server.cpp:47-63 | an opening that succeeds, however late, starts such a run exactly when the server could provide its clock |
| SeekRuns.TwoPhaseSeek | source/nsvr/nsvr_player_server.cpp:40-152 | in every run in which no other setTime lands, whatever is commanded, posted or finished late: once an update has found the cache saying READY the base has been moved as planned, from any base, and the three fields are cleared; until then the seek waits as planned |
| SeekRuns.CommitsExactly | source/nsvr/nsvr_player_server.cpp:130-152 | an update of a server with a seek waiting, unless it makes another, applies it exactly when it finds the cache saying READY, and then asks for the captured state; otherwise it asks for READY |
| SeekRuns.SeekPosition | source/nsvr/nsvr_player_server.cpp:130-152 | in the same runs, a server playing after the commit shows the clamped target plus the time since the request, within 1 ns, exactly when the clock had run for the target |
| NetworkSeek.CalmSeek | source/nsvr/nsvr_player_server.cpp:40-152 | in every calm run no other seek is made, the captured state is restored, and a prompt pipeline takes two updates |
| NetworkSeek.SeekCommitsOnceReady | source/nsvr/nsvr_player_server.cpp:130-152 | when nothing fails, two updates commit the seek once READY, asked for, is no longer outstanding |
| NetworkSeek.StepWithin | source/nsvr/nsvr_player_server.cpp:118-155 | no calm event takes a seek further from its commit, and each update brings it nearer as the pipeline's answers allow |
| NetworkSeek.SeekWhileParked | source/nsvr/nsvr_player_server.cpp:40-45 | a seek landing once READY has been reached leaves the server in READY, whatever the first one captured |
| NetworkSeek.AsyncDoneStrands | source/nsvr/nsvr_player.cpp:278-292 | a seek completion handled by the update that reaches READY does the same, whatever else is queued |
| Overtaking.CommandsUndone | source/nsvr/nsvr_player_server.cpp:40-152 | state changes commanded while a prompt server's seek waits, unless they make another seek, are undone exactly when they led anywhere but to the captured state; a second seek starts, to where the resume is owed, exactly when that state is PLAYING and they left one owed |
| Overtaking.CommitSeeksIff | source/nsvr/nsvr_player_server.cpp:65-152 | whatever the pipeline answers, a commit that leaves it in PLAYING or not on its way there starts an owed resume seek exactly when a state change is queued and PLAYING is found |
| Overtaking.PlayReplacesSeek | source/nsvr/nsvr_player_server.cpp:65-80 | a play that finds a resume owed replaces the waiting seek by one to there |
| Overtaking.PauseWhileSeeking | source/nsvr/nsvr_player_server.cpp:65-80 | for example a pause while a playing server seeks: it is undone, and the seek is replaced by one back to the pause |
| Resuming.UpdateResumesIff | source/nsvr/nsvr_player_server.cpp:73-80 | a server that owes a resume starts it in an update exactly when a state change is queued and it is still found PLAYING |
| Resuming.PauseSeeksIff | source/nsvr/nsvr_player_server.cpp:65-80 | a pause makes a seek of its own exactly when a state change was still queued and the pipeline is late in leaving PLAYING |
| Resuming.LatePauseSeeks | source/nsvr/nsvr_player_server.cpp:65-80 | for example after an unread notification of PLAYING: the pause seeks, back to PLAYING |
| Resuming.ResumesOnce | source/nsvr/nsvr_player_server.cpp:65-80 | play after a rest makes at most one network seek, to where the rest began, whatever the pipeline answers and however many notifications arrive; it has been made once PLAYING is reached and the bus drained, and its own return to PLAYING makes none |
| Resuming.NoChangeNoResume | source/nsvr/nsvr_player.cpp:267-273 | a notification that names no change starts no resume, though the server is PLAYING |
| Resuming.PromptResume | source/nsvr/nsvr_player_server.cpp:65-152 | a prompt pipeline starts that seek in play() and commits it in two updates |
| Resuming.PausePlayResumes | source/nsvr/nsvr_player_server.cpp:65-80 | pause then play resumes exactly at the position of the pause, from the clock at which PLAYING was found, unless the pause is refused, not yet reached, or made a seek of its own |
| Resuming.StopPlayResumes | source/nsvr/nsvr_player_server.cpp:65-80 | stop then play resumes exactly at 0, whatever the base was |
| Resuming.PausedSeekForgotten | source/nsvr/nsvr_player_server.cpp:65-80 | after a seek made while paused, play seeks back to where the pause was |
| OwedResume.NoResumeForgotten | source/nsvr/nsvr_player_server.cpp:65-152 | in every orderly run without failures, between open and close, a server in PLAYING to stay owes no resume once its bus is drained |
| OwedResume.HurriedPlayForgets | source/nsvr/nsvr_player_server.cpp:65-80 | asking for PLAYING while the pipeline is leaving it forgets the resume exactly when the request does not succeed at once |
| OwedResume.OpenMindful | source/nsvr/nsvr_player.cpp:119-148 | an opening that succeeds, however late, gives such a server, ready for a seek |
| EndOfStream.StreamEnds | source/nsvr/nsvr_player.cpp:300-313 | an update in which a prompt plain player or client reads the end of its stream leaves it, and its cache, in PLAYING exactly when it loops and in PAUSED otherwise |
| EndOfStream.ServerPauses | source/nsvr/nsvr_player.cpp:300-313 | a prompt server that does not loop pauses there without a seek, owing a resume at the time it showed |
| EndOfStream.ServerLoops | source/nsvr/nsvr_player.cpp:300-313 | a prompt server that loops plays on, makes one network seek, to 0, and two updates later plays from 0, counting from the clock at which it read the end |
| MuteVolume.VolumeSilent | source/nsvr/nsvr_player.cpp:423-465 | on an open pipeline setVolume and setMute leave muted players silent and clamp the volume |
| MuteVolume.PlaySilent | source/nsvr/nsvr_player.cpp:216-221 | play leaves a muted player silent whatever it found |
| MuteVolume.ReplaySilent | source/nsvr/nsvr_player.cpp:223-227 | and so does replay |
| MuteVolume.PlayKeepsSound | source/nsvr/nsvr_player.cpp:216-221 | play leaves the sound of a player that is not muted, or silent already, as it was; a muted but audible one is muted again, and unmuting it then gives back the volume found |
| MuteVolume.UnmuteRestores | source/nsvr/nsvr_player.cpp:448-465 | muting and unmuting gives the volume back; muting twice forgets it, and unmuting twice turns it up fully |
| MuteVolume.ClosedSound | source/nsvr/nsvr_player.cpp:423-465 | a closed player takes a volume and loses its mute flag unless muted at that volume, and ignores mute unless silence was saved |
| MuteVolume.RunAudible | source/nsvr/nsvr_player.cpp:186-465 | in every run that neither sets the sound, opens nor closes, an unmuted plain player or server keeps its volume and stays unmuted |
| MuteVolume.RunSilent | source/nsvr/nsvr_player.cpp:186-465 | in every run without reopening, a muted player stays silent |
| MuteVolume.ReopenBreaks | source/nsvr/nsvr_player.cpp:482-497 | after reopening the player is silent exactly when it was not muted, and play silences it again |
| MuteVolume.HeartbeatFollowed | source/nsvr/nsvr_player_client.cpp:32-36 | a plausible heartbeat is matched after one for a silent-when-muted client, after two for any, and stays matched |
| MuteVolume.OneHeartbeatNotEnough | source/nsvr/nsvr_player_client.cpp:32-36 | for a muted client and a muted heartbeat, one is enough exactly when the client is silent |
| SeekCoalescing.SeeksCoalesce | source/nsvr/nsvr_player.cpp:278-292 | in every run, whatever is refused, at most one seek is in flight; with none in flight and no completion queued the lock is free exactly when entering NULL has flushed no completion, otherwise taken for good; the last request was refused and has changed nothing, or issued exactly once, clamped to a duration of the medium, or parked: then lost if negative, else parked still or issued once; parked still at quiescence takes a duration of 0 or a refused seek |
| SeekCoalescing.RefusedSeek | source/nsvr/nsvr_player.cpp:393-407 | a refused request leaves lock, parked request and seeks as they were, and the next one is issued |
| SeekCoalescing.RefusedOnCompletion | source/nsvr/nsvr_player.cpp:278-292 | a parked request refused when a seek completes stays parked, unlocked, through later updates, until the next request that is issued gives it up |
| SeekCoalescing.TargetIs | source/nsvr/nsvr_player.cpp:400 | a request within the medium is sought to the nanosecond below it, any other to the nearer end |
| SeekCoalescing.ParkedIffNoDuration | source/nsvr/nsvr_player.cpp:384-408 | when nothing is refused, on a medium whose duration does not come or go, a last request that is not negative is left parked at quiescence exactly when the duration is 0 |
| SeekCoalescing.ParkedWithoutDuration | source/nsvr/nsvr_player.cpp:388-392 | a request at duration 0 is parked with nothing in flight, and a duration announced later does not issue it |
| SeekCoalescing.NothingIssuedWithoutDuration | source/nsvr/nsvr_player.cpp:388-392 | while the duration is 0 no seek is issued in any run |
| SeekCoalescing.SeeksCoalesceOffNull | source/nsvr/nsvr_player.cpp:384-408 | kept off NULL the lock is free at quiescence whatever is refused; when nothing is, and no duration is 0, nothing is parked and a last request that is not negative has been issued, clamped |
| SeekCoalescing.NegativeRequestLost | source/nsvr/nsvr_player.cpp:285 | a request of -1 made during a seek is never issued though its clamp is 0 |
| SeekCoalescing.StopLosesCompletion | source/nsvr/nsvr_player.cpp:210-214 | stop leaves the lock taken for good exactly when it was taken with the completion queued and NULL is entered at once |
| SeekCoalescing.StuckForever | source/nsvr/nsvr_player.cpp:388-392 | from then on no request is issued before the player is closed |
| ClientSync.Convergence | source/nsvr/nsvr_player_client.cpp:23-87 | from any base, pending base, state, mute and volume, with transitions that take any time and heartbeats that differ in theirs, five updates that find a heartbeat and no transition under way, or four when prompt, leave nothing pending and the server's state reached or asked for; the server's base exactly when it is not 0 or was there before; its mute and volume |
| ClientSync.StepNearer | source/nsvr/nsvr_player_client.cpp:23-87 | each such update brings a client nearer to the heartbeat in base and state, each that finds a heartbeat in mute and volume, and nothing takes it further away |
| ClientSync.HeartbeatsIdempotent | source/nsvr/nsvr_player_client.cpp:23-87 | in agreement, further heartbeats that say the same, whatever their time, change nothing at all |
| ClientSync.EqualPositions | source/nsvr/nsvr_player_client.cpp:57-63 | two playing pipelines on one base show the same position at every shared clock reading |
| Hearing.LaterHeartbeatDecides | source/nsvr/nsvr_player_client.cpp:32-39 | of two heartbeats found by one update the later decides mute and volume, and the pending base unless the client already has the later's: then it is the earlier's |
| Hearing.LaterHeartbeatGoes | source/nsvr/nsvr_player_client.cpp:41-42 | with their base in use and none pending, a prompt client goes to the later's state |
| Hearing.UnknownStateStays | source/nsvr/nsvr_player_client.cpp:41-42 | a heartbeat whose state is none of the four sends the client nowhere |
| Hearing.PromptAdoption | source/nsvr/nsvr_player_client.cpp:68-87 | the update that finds a heartbeat with a new base parks a prompt client in READY, and the next adopts the base |
| Hearing.NoClockNoBase | source/nsvr/nsvr_player_client.cpp:46-66 | a client that cannot make the network clock gives up the pending base and is left without base or clock |
| Network.BaseTimesSafe | source/nsvr/nsvr_player_client.cpp:23-110 | over a network that loses, repeats and reorders, a client's pending base is 0 or one broadcast, its pipeline's base unset or one broadcast |
| Network.InitiallySafe | source/nsvr/nsvr_player_client.cpp:10-21 | it holds of closed players with nothing broadcast |
| Network.ServerStepExtends | source/nsvr/nsvr_player_server.cpp:82-94 | whatever a server does, its broadcasts only grow, by whole heartbeats |
| Network.HeartbeatSays | source/nsvr/nsvr_player_server.cpp:86-91 | a heartbeat carries the base, mute flag and cached state exactly, time and volume as printed |
| Network.UpdateSaysBefore | source/nsvr/nsvr_player_server.cpp:118-155 | an update that broadcasts sends what the server was before the update moves its base or state |
| Network.TinyVolumeUnheard | source/nsvr/nsvr_packet_handler.cpp:36-72 | a server set to a volume such as 1e-310 sends heartbeats that no client reads |
| Network.StepStill | source/nsvr/nsvr_player_server.cpp:82-155 | a server at rest stays so and says the same in every heartbeat, but for the time |
| Network.InStep | source/nsvr/nsvr_player_client.cpp:23-87 | from the moment the server is at rest and older heartbeats stop arriving, over that network, a client that hears enough of the new ones has the server's mute, printed volume, state or a transition to it, and its base exactly when that is not 0 or was there before; playing on it, both show the same position at every clock |
| Network.HeartbeatsKeepComing | source/nsvr/nsvr_player_server.cpp:124-128 | meanwhile the server broadcasts such heartbeats at its frequency, all saying the same |
| Playback.SeekFollowed | source/nsvr/nsvr_player_server.cpp:40-152 | a server is asked for a seek and, whatever happens meanwhile, comes to rest in PLAYING having made no other: every client that then hears enough of it plays, once PLAYING, the target plus the time since the request, within 1 ns, as the server does |
| Playback.SeekRests | source/nsvr/nsvr_player_server.cpp:130-152 | however long its transitions take, a seeking server comes to rest like that in the state it captured |
| Playback.UpdateOnClock | source/nsvr/nsvr_player_server.cpp:87 | the time a server shows stays a count of nanoseconds on its clock, whatever arrives |
| Sessions.SeekServer | tests/basic.server.cpp:119-124 | a seek and any number of updates of a server object: playing with no seek waiting and no other made, it is at the target exactly when its clock had run for it; a prompt one after two updates |
| Sessions.PauseThenPlay | tests/basic.server.cpp:89-91 | pause and update; if that has halted the server without a seek, play and updates: with no resume owed and no seek waiting it plays on from where it was paused, by one network seek; a prompt one after two updates |
| Sessions.Broadcast | tests/basic.server.cpp:152-155 | n updates in a loop broadcast floor((n - 1) / (f + 1)) heartbeats |
| Sessions.FollowServer | tests/basic.client.cpp:152-155 | a client object that finds heartbeats, five with no transition under way or four if prompt, has the server's base, mute and volume, and its state reached or asked for |
| Sessions.Scrub | tests/basic.playback.cpp:106-111 | any number of requests in one go and two completions issue the first and the last request and nothing else |

## Left out

- GStreamer beyond the pipeline of `Gst.dfy`: launching, caps, preroll timing, element children. A failed transition leaves the state as it was, with no partial progress, and a flushing seek is logged without moving the position or the base.
- The clock is read once per call: it advances between calls, not inside one.
- A pipeline on a clock of its own (base never set) reports no position.
- Sockets, main contexts, registration of clients and sending: a client update is handed the list of texts it finds waiting.
- IEEE rounding: doubles are reals, and negative zero prints as 0. The C standard leaves it to the library whether a subnormal number is a range error for std::stod; it is one here.
- Decimal.Stod: hexadecimal, infinity and not-a-number spellings are read by the decimal grammar only.
- NetworkSeek.CalmSeek: how many updates a seek takes is proved for runs without state commands and without an end of the stream; what such commands do to it is proved for requests that succeed at once (`Overtaking.CommandsUndone`).
- OwedResume.NoResumeForgotten: a looping server is covered when its requests succeed at once; otherwise its replay can be such a play that overtakes a late stop.
- ClientSync.Convergence: requests do not fail, and no local command or end of stream intervenes; likewise the client of `Network.InStep`.
- SeekCoalescing.SeeksCoalesce: assumes completions that answer issued seeks.
- EndOfStream.StreamEnds: requests succeed at once; `ServerPauses` and `ServerLoops` likewise.
- PlayerObjects.Player.MirrorPacket: a state code outside the enumeration moves nothing; what GStreamer does with such a code is not modelled.
- `saved_volume` is a field of the player: several players in one process, which share it, are not modelled.
- `mWidth`, `mHeight` and the pre-roll callback's caps query: they feed no other logic.
- Reference counting of clocks, errors and pipelines; sample ownership is the only resource tracked.
- `Discoverer`, `pathToUri`, logging, `getIp`, `getClockPort`, the windows and shaders of the test applications: foreign calls or string plumbing.
