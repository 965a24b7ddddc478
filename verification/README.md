# A verified model of allsquare

allsquare is a client for the Square Golf launch monitor and a bridge from that
device to controllers that speak the Flight Relay Protocol (FRP). This project
models its stateful protocols in Dafny and proves what they guarantee over whole
runs: for every sequence of calls, every answer of the device and the link, and
every interleaving of the threads involved. `dafny verify dfyconfig.toml` checks
all of it.

## How it is organised

- **Wire codec** — `Common`, `Clubs`, `Protocol`, `Encoders`, `Codec`, `Captured`. The command
  encoder, the notification parser and the device-side encoders. The encoders that
  fill byte buffers are methods over arrays, each proved to compute a function;
  the round trips are proved about those functions. Rounding is a parameter `fp`:
  the codec results hold for every `fp` whose relative error is at most 2^-53, or
  absolute error near zero, which is what section 4.3.1 of IEEE 754-2019 gives for
  round-to-nearest.
- **Text scanners** — `Text`, `FirmwareScan`, `Names`. The hand-written firmware
  scanner, extraction of the advertised name, and pinning.
- **Poll client** — `Client` holds the state, every operation as a function of
  state and of the world's answers, and the class `PollClient` whose methods
  update fields in place and are proved to compute those functions. The state
  carries four histories: writes attempted, frames read, frames handled, events
  returned. Its arithmetic, too, rounds by an arbitrary `fp`. `ClientRuns` defines,
  from frames alone, which events are due, and proves the invariant that ties the
  client to that definition; `ClientTheorems` draws the consequences. `ClientCalls`
  says what each call writes and leaves, `Watchdog` and `Detection` are about real
  time.
- **FRP adapter** — `Frp` models the adapter, its acceptor thread and the two
  channels between them as steps that may interleave in any order, and the class
  `FrpDevice`. `FrpTokens` is about connections, `FrpStream` about what each
  controller is sent, `FrpReports` about how that follows from the device's events,
  `FrpFailures` about connections on which a send has failed.
- **Bridge** — `Bridge` joins the two in the program's main loop; `BridgeControl` is
  about what passes between controller and device through it.
- **Bluetooth session lifecycle** — `Sessions` (who owns which OS session, for any
  number of connection attempts at once) and `LinkLife` (one transport's flags,
  channel and disconnect, against its notification pump). `ClosedLink` puts the poll
  client on that transport.

State machines are given as a function for one step and a run function over a
list of steps; a theorem about "every reachable state" quantifies over all lists.
A step's argument holds what the outside world answers, so failed writes, closed
connections, blocked reads and arbitrary pauses are all covered.

## Where code and documentation differ

- The documentation of `club_notification` (src/testing.rs:111-115) promises a
  round trip whenever the mask covers the measured fields; its later paragraphs
  add rounding, clamping and the "not measured" sentinel. The exact condition,
  which joins all of these, is `Codec.ClubMetricsRoundTrip`, and
  `Codec.CoveringMaskIsNotEnough` is an input that meets the first promise's
  condition and does not come back.
- `Firmware::parse` reads the wrong value for `lm` when the launcher's own value
  is the text `lm`, since it looks for the first quoted occurrence of the key.
  `FirmwareScan.FirmwareConfusion` is such an input, `FirmwareScan.FirmwareRoundTrip`
  the exact condition, for every input. The opposite worry, a value equal to
  `mmi`, or an MMI value equal to `lm`, turns out to be harmless.
- The module documentation of src/btleplug_transport.rs (lines 30-33) bounds the
  sessions opened by the connections made. That holds, with one spare session and
  those lost to Bluetooth being off, for attempts that do not overlap
  (`Sessions.SequentialBound`). Attempts that do can exceed it
  (`Sessions.OverlapDiscards`), as the comment inside `park` concedes; with no
  attempt under way the bound holds exactly when the sessions that `park` refused
  at a taken slot and the one in the slot make at most one (`Sessions.BoundExactly`).
- After a send that fails other than by the controller leaving, the connection
  stays up, and what the adapter promises its controller can fail on it.
  - The controller's view: a report that is suppressed leaves it as it was. Any
    other whose send fails leaves it right exactly when what was to be sent is what
    the controller last received (`FrpStream.FailedSendBreaksView`); a READY value
    so lost is not sent again (`FrpStream.FailedReadyNotRetried`), and any telemetry
    that is sent puts the view right. The re-send at adoption, when it fails, always
    leaves the view wrong (`FrpFailures.AfterFailedAdoption`). A run is
    `FrpFailures.ViewBreaks`.
  - The grammar: `FrpFailures.ShotPosition` says where any shot leaves the stream,
    wherever its sends fail and whatever failed before. A shot sent whole stays in
    grammar exactly when no block was cut short, no numbered shot was skipped, and
    READY=false is sent ahead of it or was what the controller last heard
    (`FrpFailures.SentShotInGrammar`). What that means for a failure inside a shot,
    in telemetry outside one, and at adoption is spelled out in
    `GrammarAfterFailure`, `GrammarAfterFailedTelemetry` and `AfterFailedAdoption`;
    each can break the grammar, and `GrammarBreaks`, `UntoldReadyBreaksGrammar` and
    `FailedAdoptionBreaksGrammar` are runs on which it does.

  The results about what a controller sees are for connections without such a
  failure; a failure on one connection takes nothing from the others.
- Shot numbers increase only as long as fewer than 2^32 shots have been numbered
  (`FrpStream.NumbersIncrease`).

## Model

| member | source | states |
|---|---|---|
| `Clubs.FindCode` | src/club.rs:141-167 | a search by wire code returns a listed club with that number and category, and nothing only when no listed club has them |
| `Clubs.CodeIdentifiesClub` | src/club.rs:100-167 | a wire code names a club if and only if it is that club's own code: the codes are distinct and the table is complete |
| `Clubs.NumberingScheme` | src/club.rs:100-125 | irons and woods carry their own number, wedges continue the irons from 10, hybrids start at 13 in the woods' category, driver and putter are 1; and these are all the clubs (section 8 of docs/WIRE.md) |
| `Protocol.EncodeInto` | src/protocol.rs:200-229 | the byte-by-byte encoder produces the padded nine-byte form of its command |
| `Protocol.DecodeEncode` | src/protocol.rs:200-229 | every command and sequence number can be read back from its nine bytes, so the encoding is unambiguous |
| `Protocol.ParseAccepts` | src/protocol.rs:461-549 | a frame parses if and only if its kind is known and it has that kind's minimum length; otherwise which error is reported, the empty payload being the only teardown |
| `Captured.BatteryBytes` | src/protocol.rs:467-474 | the percentage is byte 1, the charging state byte 2, by its six codes |
| `Captured.AlignmentBytes` | src/protocol.rs:517-520 | the angle is the signed little-endian pair at 5, over 100 |
| `Captured.StateByteOf` | src/protocol.rs:254-267 | the state is byte 3, by its eight codes |
| `Captured.BallBytes` | src/protocol.rs:500-512 | which bytes give each of a ball's eight values, signed and scaled |
| `Captured.ClubBytes` | src/protocol.rs:522-546 | which bytes give each of a club's fields, and when a field is absent, for frames of any length |
| `Captured.CapturedPutt` | src/protocol.rs:686-697 | a putt as the device sent it |
| `Captured.CapturedChip` | src/protocol.rs:700-723 | a wedge chip's club data as the device sent it |
| `Captured.CapturedCommands` | src/protocol.rs:652-683 | four commands as the official app sent them |
| `Encoders.Widen` | src/testing.rs:125-152 | widening a mask sets exactly the bits of the present fields, keeps all others, and changes nothing when they are covered already |
| `Encoders.BallNotification` | src/testing.rs:93-106 | filling the seventeen-byte buffer in place gives the ball frame of section 6.2 |
| `Encoders.ClubNotification` | src/testing.rs:125-152 | the loop that fills the body and widens the mask gives the club frame, for every mix of present and absent fields |
| `Codec.WireOfScaled` | src/testing.rs:76-87 | dividing a wire value by 100 and multiplying it again, each correctly rounded, and rounding to an integer gives the wire value back: double rounding is harmless |
| `Codec.ScaledOfWire` | src/testing.rs:76-87 | a value survives the wire if and only if it is one that the parser can produce |
| `Codec.WireSaturates` | src/testing.rs:76-87 | values beyond the 16-bit range saturate |
| `Codec.WireIsNearest` | src/testing.rs:76-87 | within range, what is written is a nearest wire value: within half a unit and the rounding error of one product |
| `Codec.BallFrameRoundTrip` | src/testing.rs:89-106 | encoding what was parsed gives the frame back, for every seventeen-byte ball frame |
| `Codec.BallMetricsRoundTrip` | src/testing.rs:89-106 | parsing what was encoded gives the metrics back if and only if every scaled value is on the grid; for arbitrary metrics encode-parse-encode equals encode |
| `Codec.ClubFrameRetraction` | src/protocol.rs:522-546 | for every accepted club frame, short and odd bodies included, parse after encode after parse equals parse |
| `Codec.ClubMetricsRoundTrip` | src/testing.rs:108-152 | club metrics come back unchanged if and only if the mask covers each measured field, its value is on the grid, and it is not the sentinel |
| `Codec.CoveringMaskIsNotEnough` | src/testing.rs:108-152 | metrics whose mask covers the only measured field, and which do not come back |
| `Codec.HeartbeatAckRoundTrip` | src/testing.rs:154-183 | a state survives the heartbeat acknowledgment if and only if it is not an unknown code that is in fact a known one |
| `Codec.QueryResponseRoundTrip` | src/testing.rs:185-194 | any payload of a query response comes back whole |
| `Codec.SensorRoundTrip` | src/protocol.rs:493-499 | flags and three signed 32-bit coordinates laid out as in section 6.1 of docs/WIRE.md are read back |
| `Codec.ClockRoundTrip` | src/protocol.rs:473-481 | a 64-bit big-endian tick count is read back |
| `Names.NameRecovered` | src/protocol.rs:54-60 | a name with the prefix and no bracket is recovered from itself and from any GAP name followed by it in brackets |
| `Names.NameIdempotent` | src/protocol.rs:54-60 | extracting the name from an extracted name changes nothing, for every reported text |
| `Names.NameExactly` | src/protocol.rs:54-60 | which name is extracted, if and only if: it has the prefix and is the text after the last bracket of a text that ends in one, or a whole text without one |
| `Names.ForeignName` | src/protocol.rs:54-60 | a text without the prefix anywhere names no device |
| `Names.DiscoveryRejects` | src/protocol.rs:83-97 | discovery turns away every other name and manufacturer entry |
| `Names.DiscoveryAccepts` | src/protocol.rs:83-97 | and takes the Omni by its GAP name or its manufacturer data alone |
| `Names.PinByName` | src/ble.rs:62-68 | a pin selects the device it names under either reported form, ignoring case and padding, and discovery accepts both forms |
| `Names.PinByOwnName` | src/ble.rs:62-68 | so does the device's very name when it carries no outer whitespace |
| `Names.PinRejects` | src/ble.rs:62-68 | a blank pin, or one naming neither the device nor its address, selects nothing |
| `Names.PinByAddress` | src/ble.rs:62-68 | a pin equal to the address, but for case and padding, selects the device whatever it reports; and is the only way to select one of another make |
| `Names.CaseIgnored` | src/ble.rs:62-68 | two texts match when they differ by ASCII case alone |
| `FirmwareScan.ValueAfter` | src/client.rs:70-94 | for every input text the value found is free of quotes and, unless empty, a slice of the text: no index is out of bounds |
| `FirmwareScan.FindKey` | src/client.rs:70-94 | a quoted key is found at the first inner quoted segment equal to it, never inside one |
| `FirmwareScan.ValueOfSegments` | src/client.rs:70-94 | the value is the quoted segment after the first segment with a colon |
| `FirmwareScan.FirmwareRoundTrip` | src/client.rs:70-94 | parsing the rendered object, in compact, spaced or any other quote-free layout: launcher and MMI always come back, and all three do if and only if the launcher value is not `lm` or the other two values are equal |
| `FirmwareScan.KnownLayouts` | docs/WIRE.md:69-73 | the device's spaced form and a compact one are among the layouts covered |
| `FirmwareScan.FirmwareConfusion` | src/client.rs:70-94 | a launcher value of `lm` makes the parser report the MMI version as the launch monitor's |
| `Client.ApplyImpactVerticalOffset` | src/client.rs:464-474 | field by field: vertical impact is present if and only if measured and the active club has an offset, and then is their rounded sum; every other field is as given |
| `Client.PollClient.constructor` | src/client.rs:190-212 | a new client's complete state |
| `Client.PollClient.SendCommand` | src/client.rs:228-236 | the sequence number advances, wrapping, before the write, so a failed write uses one up |
| `Client.PollClient.Arm` | src/client.rs:242-253 | selects the club, then starts detection; stops at the first failed write |
| `Client.PollClient.SelectActiveClub` | src/client.rs:266-280 | the active club changes only if the selection was written |
| `Client.PollClient.ReadIdentityNow` | src/client.rs:373-407 | the new state at every point where reading the identity can fail, and the event when it does not |
| `Client.PollClient.HandleNote` | src/client.rs:409-458 | the new state and the event for each kind of notification, a failed request for club metrics included |
| `Client.PollClient.HeartbeatIfDue` | src/client.rs:332-337 | a failed heartbeat leaves timer and count alone; a written one sets the timer and counts as unanswered |
| `Client.PollClient.ReceivePayload` | src/client.rs:338-347 | data stops the watchdog even when it repeats the last frame or does not parse; a repeat is dropped before parsing |
| `Client.PollClient.PollOnce` | src/client.rs:321-371 | one poll's whole effect, and of an active client its answer: lost link and error, each if and only if |
| `Client.PollVerdict` | src/client.rs:321-371 | an active poll's answer from fields and world: `Disconnected` if and only if no due heartbeat was refused and the read was empty or the link has gone quiet; an error if and only if a heartbeat, a club request or the read failed; a reported loss touches no frame, event or shot |
| `ClientCalls.CallWrites` | src/client.rs:242-300 | what every call but `poll` writes, command by command: arming selects and then starts detection, disarming stops it, the stimp index is capped at 5 |
| `ClientCalls.CallLeaves` | src/client.rs:214-300 | and what it leaves: only what the call is for |
| `ClientCalls.PollWrites` | src/client.rs:332-337 | an active poll writes a heartbeat when due and, if that did not fail, a club request for a new ball frame, nothing else |
| `ClientCalls.PollLeaves` | src/client.rs:332-347 | times, counts and frames an active poll leaves; a handled frame is marked with the active club and calibration of the moment |
| `ClientCalls.IdentityPoll` | src/client.rs:373-407 | what a connecting poll writes, when it connects, and which value goes where in the announcement; a nonempty GAP name wins over the hint |
| `ClosedLink.EndIsReported` | src/client.rs:340-341 | over every run of client and transport together: once a read has met the end of the link, or nothing is left to read of it, every poll reports the disconnect unless its heartbeat is refused |
| `ClientRuns.StepKeeps` | src/client.rs:228-458 | every operation, whatever fails, keeps the invariant: log numbered, frames handled once per run of repeats, ball waiting if and only if one is open, events exactly those due |
| `ClientRuns.Always` | src/client.rs:188-458 | hence the invariant holds after any operations at all, whatever the rounding |
| `ClientTheorems.EventsAreDue` | src/client.rs:321-371 | a connected client has announced the connection once, first, and then exactly the events due for the collapsed stream of frames it read; the queue is always empty |
| `ClientTheorems.AllFramesRead` | src/client.rs:338-371 | polling reads every frame offered, in order, however many polls in between find nothing |
| `ClientTheorems.StutterRefinement` | src/client.rs:338-371 | repeating each frame any number of times makes no difference: events are those of a pure fold over the frames with adjacent equal ones collapsed, as docs/WIRE.md section 10 requires |
| `ClientTheorems.OpenBallIsLatest` | src/client.rs:409-444 | the open ball is the latest ball frame with no club frame after it, in terms of frame positions |
| `ClientTheorems.ShotsArePairs` | src/client.rs:409-444 | a shot is reported at a club frame if and only if it is the first after a ball with no other ball between; it carries the parsed ball and club, vertical impact corrected by the active club's offset, the club absent if speed, path and face angle are; nothing else yields a shot |
| `ClientTheorems.ShotsAreThePairs` | src/client.rs:409-444 | the whole list of shots: one for each pair of ball and first following club frame, no others, in order, the k-th with the data of the k-th pair |
| `ClientTheorems.ShotConservation` | src/client.rs:409-444 | in every reachable state balls = shots + superseded + waiting, one club request per ball, and a ball waits if and only if club data is awaited; section 6 of docs/SEQUENCE.md |
| `ClientTheorems.LogTheorem` | src/client.rs:228-280 | the k-th attempted write carries k modulo 256 and decodes to the command issued; the active club is the last one selected by a successful write |
| `ClientTheorems.SequenceWindow` | src/client.rs:228-236 | any 256 consecutive attempts have distinct sequence bytes, and 256 apart they agree |
| `ClientTheorems.StateFiltering` | src/client.rs:445-451 | state changes reported are the acknowledged states, duplicates included, with adjacent equal ones dropped: filtering by frame and then by state loses nothing |
| `Common.CollapseCharacterised` | src/client.rs:356-362 | what dropping repeats means: the result has no adjacent repeats and the input is a stutter of it |
| `Common.CollapseStutter` | src/client.rs:356-362 | any stutter of a stream collapses to the same stream |
| `Watchdog.BeatEffect` | src/client.rs:332-337 | a second unanswered heartbeat is sent only once the first one's answer is due |
| `Watchdog.NoFalseAlarm` | src/client.rs:321-354 | if each written heartbeat is followed within an interval by a nonempty frame becoming readable, be it before the same poll reads, no schedule of polls, of pauses between or within them, and of failed writes makes the watchdog declare the link lost |
| `Watchdog.NewLinkQualifies` | src/client.rs:190-212 | a new client satisfies what that theorem asks, whatever already waits to be read |
| `Detection.DataStartsWatch` | src/client.rs:338-347 | reading data starts the measured silence |
| `Detection.IdentityStartsWatch` | src/client.rs:395-400 | so does reading the identity, with its heartbeat already out |
| `Detection.OneSilentPoll` | src/client.rs:332-354 | one blocking poll either reports the loss inside the window or leaves the silence measured |
| `Detection.DetectedInTime` | src/client.rs:142-147 | a link silent since t0 is reported no earlier than t0 + timeout and before t0 + max(timeout + d, 2 intervals + 2d), for polls at most d apart, and a poll late enough must report it |
| `Detection.TimingFixed` | src/client.rs:190-212 | interval and timeout are five seconds and three times that in every reachable state |
| `Detection.DetectedInFifteenSeconds` | src/client.rs:142-147 | for any reachable client polled at least every five seconds: the first report comes no earlier than fifteen seconds after the last data and before fifteen plus the polling gap, and any poll that starts after fifteen reports |
| `Detection.LossRecurs` | src/client.rs:348-354 | once reported, the loss recurs on every later blocking poll |
| `Detection.HeartbeatRetried` | src/client.rs:332-337 | a heartbeat that could not be written is retried by the next poll, nothing having been read |
| `Frp.FrpDevice.Spawn` | src/frp/mod.rs:108-146 | a new device has asked for one connection |
| `Frp.FrpDevice.AdoptConnection` | src/frp/mod.rs:164-179 | adoption clears `pending` and re-sends the cached telemetry; the connection stays adopted if that fails |
| `Frp.FrpDevice.PollController` | src/frp/mod.rs:212-222 | a receive error drops the connection and asks for another |
| `Frp.FrpDevice.SendOne` | src/frp/mod.rs:239-251 | a closed peer drops the connection, any other error keeps it and is passed on |
| `Frp.FrpDevice.EmitTelemetry` | src/frp/mod.rs:309-347 | suppression, the cached envelope and the last READY value, updated before the send |
| `Frp.FrpDevice.EmitEvents` | src/frp/mod.rs:349-361 | the sending loop stops where the connection goes or a send fails, for every list of events and outcomes |
| `Frp.FrpDevice.OnEvent` | src/frp/mod.rs:261-307 | one event's whole effect: READY=false first, then number the shot, then its block |
| `FrpTokens.TokenConservation` | src/frp/mod.rs:113-179 | under every interleaving with the acceptor exactly one of held, requested, establishing and waiting holds; `pending` if and only if no connection is held; every connection ever established is accounted for, in order |
| `FrpTokens.AcceptorIdleWhileHeld` | src/frp/mod.rs:113-130 | the acceptor has no step while a connection is held, so calls that use one are not interfered with |
| `FrpTokens.AcceptorEnds` | src/frp/mod.rs:113-130 | once the device is dropped the acceptor hands over no connection, and each of its steps but a failed attempt to connect brings its end closer |
| `FrpTokens.AdoptionProgress` | src/frp/mod.rs:149-179 | an established connection comes strictly closer to adoption with the hand-over and with `poll_connection`, nothing sets it back, and at distance zero it has been adopted |
| `FrpStream.ControllerView` | src/frp/mod.rs:309-347 | the last telemetry a held controller received is the cached envelope whenever there is one, unless a send on that very connection failed; and the cache's READY is always the last reported or false |
| `FrpReports.EventReported` | src/frp/mod.rs:261-270 | an event reports READY for the state Ready, not READY for any other state or a shot, and the percentage for the battery; no other event reports anything |
| `FrpReports.CacheFollowsEvents` | src/frp/mod.rs:309-347 | over every interleaving the cached telemetry is the last report that the events and settings called for, with name, model, firmware, READY and battery of that moment |
| `FrpReports.ReadyFollowsEvents` | src/frp/mod.rs:261-270 | READY is true if and only if the last state or shot event handled was the state Ready |
| `FrpReports.ControllerKnows` | src/frp/mod.rs:309-347 | that is what the controller of a connection without a failed send last heard |
| `FrpStream.FailedSendBreaksView` | src/frp/mod.rs:309-347 | for any held connection, whether or not its controller's view was right, and any telemetry whose send fails: the connection stays up, and the view is right if and only if the report was suppressed and the view was right before, or the report was not suppressed and its name, model, firmware, READY and battery are what the controller last received |
| `FrpStream.FailedReadyNotRetried` | src/frp/mod.rs:309-325 | a READY value whose send failed is suppressed when reported again |
| `FrpStream.SentTelemetryRestoresView` | src/frp/mod.rs:309-347 | any telemetry that is sent puts the controller's view right, whatever failed before |
| `FrpFailures.ViewBreaks` | src/frp/mod.rs:239-251 | a run from a new device to a held connection whose controller has received nothing while READY=true is cached |
| `FrpFailures.CutBlockNeverResumes` | src/frp/mod.rs:349-361 | a stream cut inside a block leaves the grammar for good with the next telemetry or trigger |
| `FrpFailures.ScanTelemetry` | src/frp/mod.rs:309-347 | telemetry sent on a stream in grammar keeps it there if and only if no block is cut short |
| `FrpFailures.ShotPosition` | src/frp/mod.rs:261-361 | on any held connection whose stream is in grammar, whatever failed on it before: where a shot leaves the stream, for every send that may be the first to fail, or none, and what it leaves of counter, READY value and numbered shots |
| `FrpFailures.SentShotInGrammar` | src/frp/mod.rs:261-361 | a shot sent whole keeps such a stream in grammar if and only if no block was cut short, no numbered shot was skipped, and READY=false is not yet the last reported or is what the controller last heard |
| `FrpFailures.GrammarAfterFailure` | src/frp/mod.rs:261-361 | when any one send of a shot is the first to fail on a connection and another shot, sent whole, follows it, the stream is in grammar if and only if it was the telemetry ahead of the first block that failed and the controller had been told READY=false before |
| `FrpFailures.GrammarAfterFailedTelemetry` | src/frp/mod.rs:309-347 | when telemetry outside a shot is the first send to fail and a shot sent whole follows, the stream is in grammar if and only if READY=false is not the last reported or is what the controller last heard |
| `FrpFailures.AfterFailedAdoption` | src/frp/mod.rs:164-179 | when the re-send of the cache fails the connection is adopted, its controller has nothing of the cache, and a shot sent whole is in grammar if and only if READY=false was not the last reported |
| `FrpFailures.UntoldReadyBreaksGrammar` | src/frp/mod.rs:309-361 | a run from a new device to a held connection out of grammar on which no shot's send failed: READY=true was sent, READY=false was not, a shot followed |
| `FrpFailures.FailedAdoptionBreaksGrammar` | src/frp/mod.rs:164-179 | another, on which only the re-send at adoption failed |
| `FrpFailures.GrammarBreaks` | src/frp/mod.rs:349-361 | a run from a new device whose held connection is out of grammar: the first shot's ball could not be sent, the second shot was |
| `FrpStream.ScanMeaning` | src/frp/mod.rs:261-361 | a stream in grammar is, telemetry aside, whole consecutive blocks and at most one strict prefix of a block at the end |
| `FrpStream.StreamOrder` | src/frp/mod.rs:309-361 | telemetry comes only between complete blocks, and the latest telemetry before a trigger says READY=false |
| `FrpStream.HeldStream` | src/frp/mod.rs:261-361 | a held connection without a failed send carries exactly the complete blocks of the shots numbered since it was adopted |
| `FrpStream.EndedStreams` | src/frp/mod.rs:233-251 | no shot is shared by two connections and later connections carry later shots; each that ended without a failed send carried whole consecutive blocks and at most one strict prefix at the end |
| `FrpStream.NumbersIncrease` | src/frp/mod.rs:274-275 | shot numbers strictly increase if and only if there are fewer than 2^32 of them |
| `Bridge.Program.Apply` | src/bin/allsquare-frp.rs:86-117 | a command's hand and club are applied in place, an unknown club keeps the current one, and the selection is sent only when armed |
| `Bridge.Program.Announce` | src/bin/allsquare-frp.rs:185-200 | the device is reported, then armed; a failed arm ends the program |
| `Bridge.Program.RunTurn` | src/bin/allsquare-frp.rs:181-252 | one turn of the main loop |
| `Bridge.TurnKeeps` | src/bin/allsquare-frp.rs:181-252 | one turn keeps both halves' invariants, and the shots numbered are the client's shots |
| `Bridge.SelectionFollowsController` | src/bin/allsquare-frp.rs:86-117 | with every write succeeding, the last club selection written since arming is the club and hand in play |
| `BridgeControl.SelectionIsAsked` | src/bin/allsquare-frp.rs:86-117 | over every run the club in play is the last one a controller named that has a code, or the starting one, and the hand the last one named, or the right; with every write succeeding they are what the armed device last was told |
| `BridgeControl.CommandWrites` | src/bin/allsquare-frp.rs:109-116 | an idle turn writes the selection of club and hand in play if and only if armed and the command names one of them |
| `BridgeControl.ConnectedTurnArms` | src/bin/allsquare-frp.rs:185-200 | the turn of the announcement caches a report of model and firmware, arms with the club in play and advanced spin, and ends the loop if that fails |
| `BridgeControl.IdleTurnAdopts` | src/bin/allsquare-frp.rs:224-232 | an idle turn adopts the waiting connection and keeps it unless its controller is found gone |
| `BridgeControl.PollErrorEnds` | src/bin/allsquare-frp.rs:245-248 | a failed poll ends the loop and touches nothing else |
| `BridgeControl.ControllerHearsDevice` | src/bin/allsquare-frp.rs:181-252 | over every run READY is that of the last state or shot among the events due for the frames read, name, model and firmware are the device's own, and a controller without a failed send last heard the last report these events call for, battery included |
| `Bridge.HandleNumbers` | src/frp/mod.rs:261-307 | a shot event is numbered, once and with its data, if and only if the telemetry ahead of it does not fail; no other event numbers anything |
| `Bridge.EndToEnd` | src/bin/allsquare-frp.rs:181-252 | the shots handled are, one for each and in order, the pairs of latest ball and first following club in the collapsed frame stream, with their data; those numbered are the same list without exactly those marked as not numbered; and a controller still connected, no send to which has failed, was sent exactly the complete blocks of those numbered since it connected |
| `Sessions.HandsAfter` | src/btleplug_transport.rs:265-317 | a step of one attempt changes what unconnected attempts hold by that attempt's session only |
| `Sessions.StepKeeps` | src/btleplug_transport.rs:118-147 | every step of every attempt keeps single ownership, the ledger of sessions and the sequential bound |
| `Sessions.SessionOwnership` | src/btleplug_transport.rs:118-147 | for any number of attempts at once a session has at most one owner, and the slot never holds one that connected or saw Bluetooth off |
| `Sessions.SessionConservation` | src/btleplug_transport.rs:265-317 | opened = retired + powered off + discarded + held by unconnected attempts + in the slot |
| `Sessions.SequentialBound` | src/btleplug_transport.rs:118-147 | attempts that do not overlap open at most one session more than they retire or lose to Bluetooth being off |
| `Sessions.DiscardedAreRefused` | src/btleplug_transport.rs:139-147 | over any run, from any state, as many sessions are discarded as times `park` found the slot taken |
| `Sessions.BoundExactly` | src/btleplug_transport.rs:118-147 | overlapping or not, once no attempt is under way: the bound holds if and only if the refusals at a taken slot and the session in the slot make at most one; so it holds when nothing was refused |
| `Sessions.OverlapDiscards` | src/btleplug_transport.rs:139-147 | two attempts that scan at once exceed that bound |
| `Sessions.Bluetooth.TakeScanner` | src/btleplug_transport.rs:118-137 | takes the cached session, leaving the slot empty, or opens one |
| `Sessions.Bluetooth.ReturnSession` | src/btleplug_transport.rs:139-147 | returns a session unless the slot is taken |
| `Sessions.Bluetooth.Connect` | src/btleplug_transport.rs:265-317 | one whole attempt is a run of the protocol; which session ends in the slot, in a transport or nowhere, for each way it can go |
| `LinkLife.StepKeeps` | src/btleplug_transport.rs:379-466 | every step of caller or pump keeps the invariant and clears no flag |
| `LinkLife.DisconnectOnce` | src/btleplug_transport.rs:379-449 | over a transport's whole life the stack is asked to disconnect at most once, and exactly once when closed or dropped unless the released flag was seen |
| `LinkLife.ReleaseIsReported` | src/btleplug_transport.rs:607-637 | released is set if and only if the stack reported the disconnect and the pump published it, down if and only if the pump published the end or the transport was closed; an ended transport has issued exactly one request unless the report was published before it first looked, and always if there was none |
| `LinkLife.FlagsNeverClear` | src/btleplug_transport.rs:379-393 | closed, down and released, once set, stay set from any reachable state on, and closed implies down |
| `LinkLife.DrainInOrder` | src/btleplug_transport.rs:452-466 | every notification that arrives while the transport lives is forwarded; reads deliver these in order and at most cut short; after the first end of link everything has been read and every read reports the end |
| `LinkLife.NextRead` | src/btleplug_transport.rs:452-466 | which payload the next read delivers, and when it reports nothing or the end |
| `LinkLife.BtleplugTransport.Read` | src/btleplug_transport.rs:452-466 | the buffer's first bytes are the oldest payload, as much as fits; the rest of the buffer is untouched |
| `LinkLife.BtleplugTransport.Disconnect` | src/btleplug_transport.rs:379-393 | equals the machine's whole disconnect call |
| `LinkLife.BtleplugTransport.Drop` | src/btleplug_transport.rs:432-449 | equals the machine's whole drop call |

## Left out

- src/bluez.rs, and the D-Bus, GATT, Tokio and WebSocket calls themselves: only their outcomes appear (written or not, payload, blocked, closed, error).
- Scanning, name timers, settle delays and the wait for Bluetooth in src/btleplug_transport.rs: a scan's outcome is one step; no timing.
- `ensure_up` and the failures of writes and characteristic reads: a write succeeds or fails as the environment says; error texts and kinds are not kept apart.
- src/frp/convert.rs: FRP events carry the client's metrics; unit conversion is a pure function applied on the way out.
- The default table in src/impact.rs: a calibration is an arbitrary map from club to offset, absent where the club has none.
- `uuid_v4`: a shot's identifier is an arbitrary text given with each call, so uniqueness of identifiers is not claimed; shots are told apart by number.
- JSON beyond flat string fields and lossy UTF-8 decoding: texts are sequences of characters.
- The `raw-face-impact` and `serde` features, `examples/monitor.rs`, argument parsing and logging: the default build without its user interface.
- `establish` panicking, a poisoned mutex, and the runtime's own creation: not modelled.
- Codec.ScaledOfWire: one zero stands for both of binary64's, which compare equal; a finite product too large for a double saturates, as the infinity it becomes does.
- Client.ApplyImpactVerticalOffset: returns the corrected metrics, a value here, instead of changing them in place; a sum too large for a double stays finite.
- Client.PollClient.PollOnce: of a poll's errors it tells a lost link from an I/O failure, no more.
- Frp.FrpDevice.OnEvent: the shot counter wraps as in a release build; a debug build would stop at 2^32.
- Frp.FrpDevice.EmitEvents: a call into the device is one step of the interleaving; while a connection is held the acceptor has no step (`FrpTokens.AcceptorIdleWhileHeld`), and once it is dropped the rest of the call touches nothing the acceptor does.
- FrpFailures.ShotPosition: is for connections on which fewer than 2^32 - 1 numbered shots were skipped, so that two different shots due do not share a number.
- Sessions.SequentialBound: is about attempts that do not overlap; `Sessions.BoundExactly` is about all.
- Sessions.Bluetooth.Connect: the class runs one attempt at a time; attempts that overlap are the step machine's, about which the results are proved.
- LinkLife.BtleplugTransport.Read: the class runs the caller's thread with the pump standing still; their interleavings are the step machine's.
- LinkLife.DisconnectOnce: counts requests issued to the stack, not whether the stack carries them out.
