# Dafny model of the media elements' state machines

A verified model of five state machines of the media server's GStreamer plugins. GStreamer,
libnice, SCTP, the muxers and the operating system are only the environment: they appear as
events, as clock readings, as the result of a push or a bind, and as which of several
possible orders things happen in.

Each machine is written three times over: as functions on values that say what one handler
does, as a class (or methods on arrays) that updates its state in place like the source and is
proved to compute exactly those functions, and as lemmas about those functions, most of them
over all runs. Some of the lemmas say in numbers, and in terms of arguments, clock readings and
history alone, what each operation comes to (`ParsedFromWire`, `PushSends`, `FirstSampleTime`,
`CallCompleteExactly`, `CommandExactly`, `CreateExactly`, `ReadingOrder`, `FillerExactly`).

| part | files |
|---|---|
| Data channels (RFC 8832): the OPEN codec, one channel, two peers on a network | `DataChannelOpen.dfy`, `DataChannelWire.dfy`, `DataChannel.dfy`, `DataChannelElement.dfy`, `DataChannelNetwork.dfy`, `DataChannelMessages.dfy` |
| Stream ids of a data session | `DataSession.dfy`, `DataSessionRules.dfy`, `DataSessionElement.dfy` |
| Player timestamps | `Retimer.dfy`, `RetimerTimes.dfy`, `Player.dfy` |
| RTP/RTCP port pairs | `PortSearch.dfy` |
| Recorder lifecycle and timeline | `Recorder.dfy`, `RecorderStop.dfy`, `RecorderHistory.dfy`, `RecorderElement.dfy` |
| Composite grid, port table and teardown | `CompositeGrid.dfy`, `CompositePorts.dfy`, `CompositeRules.dfy`, `CompositeElement.dfy` |
| Style composite: views and strips | `StyleViews.dfy`, `StyleRules.dfy`, `StyleElement.dfy` |
| Shared: optional values, fixed-width integers, clock times | `Wrappers.dfy`, `Integers.dfy`, `ClockTime.dfy` |

`dafny verify dfyconfig.toml` checks everything.

## What holds, and what does not

Several properties one would expect are not true of the code without a condition. For these
the exact condition is proved, in both directions.

- An OPEN is parsed back to what was encoded if and only if at most one of lifetime and
  retransmits is set, the priority is one of the five known ones, and label and protocol are
  free of zero bytes and shorter than 65536 bytes (`RoundTrip`). An accepted message is encoded
  again byte for byte if and only if it is canonical (`Reencode`).
- `request_open` moves to CONNECTING before it knows whether an OPEN can be built and pushed;
  on failure it stays there, and user messages reach the peer without an OPEN. Nothing arrives
  early if and only if the OPEN could be encoded and pushed (`SafeExactlyWhenOpenSent`).
- `handle_ack` does not look at the state, so a late ACK reopens a closing channel
  (`LateAckReopens`). Agreement between the peers survives this (`OpenAgreement`).
- Channels created before the association is up get one and the same id; once it is up, each
  has a place of its own in the table if and only if at most one was waiting
  (`WaitingChannelsShareAnId`).
- The port loop ends on every machine if and only if the upper bound is at most 65533, or 65534
  with an odd start (`EndsExactly`). Beyond that, which includes the default 65535, its 16-bit
  port runs over, from an even start to port 0, where a bind takes any port and the loop goes on
  from there.
- A pair that stays free is found on every machine if and only if it is not one the search can
  miss: the one just below an even start with an odd lower bound, or, where the port runs over,
  any pair below an even start (`CompleteExactly`).
- The pair lies in the range on every machine if and only if the port does not run over, or the
  upper bound is 65535 and the start is odd or the lower bound even (`WithinExactly`). Else a
  search can return the pair that straddles the lower bound, or 65534.
- A recorded time is running time minus base minus pauses, clamped at 0, if and only if base
  and pauses do not overflow 64 bits or the time is within what wraps (`RecordedTimeline`).
- With commands that are atomic and a muxer that goes down only when asked, no source is left
  waiting for an EOS (`NothingLeftWaiting`). But a stop drops its lock between sending the EOS
  and noting it. Whatever else happens meanwhile and afterwards, no source is left waiting if and
  only if the EOS is not handled in between (`SplitStopExactly`, with a run in `EarlyEosLeaks`).
- A start drops its lock before it accounts for the pause: a buffer that passes then is recorded
  as it would be afterwards if and only if the pause had no length or both times are clamped
  (`SplitStartBuffer`). A notification of the muxer that comes then does no harm
  (`SplitStartConfluent`).
- An input port of the composite mixer is taken down exactly once, unless its removal unlinks
  the capsfilter while an EOS from upstream is between capsfilter and mixer pad; then never
  (`TornDownExactly`, `LeftInThePipeline`).
- `n_elems` of the composite mixer is the number of input ports plus the number of ports that
  were removed after their EOS or started after their removal (`CountedExactly`).

Where a run lemma carries such a condition as a precondition (`NoMessageBeforeOpen`, for
example), the matching lemma above shows what happens without it.

## Assumptions about the environment

- The SCTP association delivers the ordered packets of one direction in order and unordered
  ones at any time; it may lose packets that are not fully reliable, and nothing else. A stream
  reset is one step that empties both directions and removes both channels.
- Each handler, command or locked section is one step; `request_open` includes the push of its
  OPEN, a recorder command the work done while its lock is dropped. What can come between the
  halves of a stop and of a start is in the lemmas about split commands.
- A bind of a port other than 0 gives that port or fails; a bind of port 0 gives any port that
  is not held, or fails.
- A capsfilter's EOS flag is set when an EOS enters it, and the mixer's own EOS reaches the
  mixer pad within the call that sends it.
- The base class of the recorder, which holds its uri state, is not part of this model; the
  state is taken to start as STOP. The muxers decide which sources they let go of
  (`removable`).
- The hub gives every port a new non-negative id.

## Model

| member | source | states |
|---|---|---|
| DataChannelOpen.CreateOpenRequest | src/gst-plugins/webrtcendpoint/kmswebrtcdatachannelbin.c:189-211 | the bytes written into the new buffer are the wire image of the fields, each 16-bit and 32-bit field with its most significant byte first, with exactly the given lengths of label and protocol |
| DataChannelOpen.WriteHeader | src/gst-plugins/webrtcendpoint/kmswebrtcdatachannelbin.c:200-205 | the twelve fixed bytes hold the header's fields at their offsets, as the wire image has them |
| DataChannelOpen.CopyInto | src/gst-plugins/webrtcendpoint/kmswebrtcdatachannelbin.c:207-208 | the copied bytes land in place and no other byte of the buffer changes |
| DataChannelOpen.WrittenOnWire | src/gst-plugins/webrtcendpoint/kmswebrtcdatachannelbin.c:200-208 | of the wire image, for all fields: type 3, the channel type, and in plain arithmetic 256 times the first byte plus the second for priority and the two lengths, likewise four bytes for the parameter, then label and protocol |
| DataChannelOpen.RoundTrip | src/gst-plugins/webrtcendpoint/kmswebrtcdatachannelbin.c:443-478 | for all parameters: encoding succeeds and parsing gives the parameters back, if and only if the two limits are not both set, the priority is known, and the strings are zero-free and under 65536 bytes |
| DataChannelOpen.Reencode | src/gst-plugins/webrtcendpoint/kmswebrtcdatachannelbin.c:687-761 | for every message the parser accepts: encoding what was read gives the same bytes if and only if the message is canonical |
| DataChannelOpen.ParseEncoded | src/gst-plugins/webrtcendpoint/kmswebrtcdatachannelbin.c:443-478 | whatever the strings, the peer stores every field as sent; only strings of 65536 bytes or more are cut, to their length modulo 65536 |
| DataChannelOpen.ReadBack | src/gst-plugins/webrtcendpoint/kmswebrtcdatachannelbin.c:695-741 | each field read at its offset of an encoded message is the field that was written |
| DataChannelOpen.WriteBack | src/gst-plugins/webrtcendpoint/kmswebrtcdatachannelbin.c:705-741 | every message of consistent length is the image of the fields read from it: no byte is ignored |
| DataChannelWire.EncodedOnWire | src/gst-plugins/webrtcendpoint/kmswebrtcdatachannelbin.c:443-478 | a channel with at most one limit sends an OPEN, one with both none; the OPEN carries 0x80 for unordered, 0x01 for retransmits and 0x02 for a lifetime, the limit as 32 bits, the priority as 16, and the strings up to their first zero byte |
| DataChannelWire.ParsedFromWire | src/gst-plugins/webrtcendpoint/kmswebrtcdatachannelbin.c:687-741 | exactly the messages whose length is 12 and the two lengths at bytes 8 and 10, and whose priority at byte 2 is known, are accepted; each field is then the number, bit or text at its place |
| DataChannelElement.DataChannelBin.constructor | src/gst-plugins/webrtcendpoint/kmswebrtcdatachannelbin.c:971-990 | a new channel is closed, not negotiated, with zero counters |
| DataChannelElement.DataChannelBin.RequestOpen | src/gst-plugins/webrtcendpoint/kmswebrtcdatachannelbin.c:423-496 | the whole new state and the packet sent, on success, on an unsupported channel type and on a failed push |
| DataChannelElement.DataChannelBin.OpenMessage | src/gst-plugins/webrtcendpoint/kmswebrtcdatachannelbin.c:443-478 | the bytes of the OPEN for the channel as it is, or none if both limits are set |
| DataChannelElement.DataChannelBin.OpenType | src/gst-plugins/webrtcendpoint/kmswebrtcdatachannelbin.c:443-472 | channel type and reliability parameter follow from the ordering and the limit that is set, with the type of a channel with both limits left to the caller to refuse |
| DataChannelElement.DataChannelBin.RequestClose | src/gst-plugins/webrtcendpoint/kmswebrtcdatachannelbin.c:498-521 | a reset is asked for once, and not for a channel that is closing or closed |
| DataChannelElement.DataChannelBin.SendAck | src/gst-plugins/webrtcendpoint/kmswebrtcdatachannelbin.c:646-675 | an ACK that is pushed opens the channel, one that fails resets it |
| DataChannelElement.DataChannelBin.HandleOpenRequest | src/gst-plugins/webrtcendpoint/kmswebrtcdatachannelbin.c:677-775 | a malformed OPEN resets, an OPEN out of CLOSED is ignored, else parameters are stored, counters zeroed and the OPEN answered |
| DataChannelElement.DataChannelBin.AcceptOpen | src/gst-plugins/webrtcendpoint/kmswebrtcdatachannelbin.c:728-775 | what was read is taken only by a closed channel, all of it before the ACK is tried |
| DataChannelElement.DataChannelBin.ResetCounters | src/gst-plugins/webrtcendpoint/kmswebrtcdatachannelbin.c:743-747 | all five counters start again, and nothing else changes |
| DataChannelElement.DataChannelBin.HandleAck | src/gst-plugins/webrtcendpoint/kmswebrtcdatachannelbin.c:777-789 | an ACK opens the channel in any state |
| DataChannelElement.DataChannelBin.HandleControlMessage | src/gst-plugins/webrtcendpoint/kmswebrtcdatachannelbin.c:791-814 | dispatch by the first byte; empty and unknown messages reset |
| DataChannelElement.DataChannelBin.NewData | src/gst-plugins/webrtcendpoint/kmswebrtcdatachannelbin.c:816-905 | a received user message counts one message and its bytes, an empty one no bytes, and goes to the application's callback, whose result is returned; other identifiers reset and fail |
| DataChannelElement.DataChannelBin.SendFlags | src/gst-plugins/webrtcendpoint/kmswebrtcdatachannelbin.c:1142-1175 | sending is possible exactly while connecting or open, ordered while connecting, with the reliability of the channel |
| DataChannelElement.DataChannelBin.SendBuffer | src/gst-plugins/webrtcendpoint/kmswebrtcdatachannelbin.c:1105-1182 | the packet for a message of this kind and contents; what its identifier, ordering, reliability and payload are is in `PushSends` |
| DataChannelElement.DataChannelBin.PushBuffer | src/gst-plugins/webrtcendpoint/kmswebrtcdatachannelbin.c:1031-1197 | what is sent, returned and counted, for each identifier of a forwarded buffer, each state and each push result; in numbers in `PushSends` and `PushCounts` |
| DataChannelNetwork.NoMessageBeforeOpen | src/gst-plugins/webrtcendpoint/kmswebrtcdatachannelbin.c:1140-1184 | on every run of both peers and the network in which each accepted open request sent its OPEN, no user message of the opener is delivered before the OPEN of its stream |
| DataChannelNetwork.SafeExactlyWhenOpenSent | src/gst-plugins/webrtcendpoint/kmswebrtcdatachannelbin.c:423-496 | for any life of a channel after its open request nothing is delivered early, if and only if the OPEN could be encoded and pushed |
| DataChannelNetwork.StepPhase | src/gst-plugins/webrtcendpoint/kmswebrtcdatachannelbin.c:423-521 | every event keeps a stream in one of four phases: idle, OPEN in front of everything in flight, OPEN taken by the peer, or stuck without one |
| DataChannelNetwork.OpenAgreement | src/gst-plugins/webrtcendpoint/kmswebrtcdatachannelbin.c:646-789 | on every run, while the opener is open the peer has accepted an OPEN on the same stream, is negotiated and keeps the same parameters; they are equal if and only if the strings fit their length fields |
| DataChannelNetwork.AcceptedAgreement | src/gst-plugins/webrtcendpoint/kmswebrtcdatachannelbin.c:743-775 | on every run, while the accepting peer is open the opener exists on the same stream, is not closed, and their parameters agree |
| DataChannelNetwork.TrafficConserved | src/gst-plugins/webrtcendpoint/kmswebrtcdatachannelbin.c:855-886 | on every run and in both directions, messages and bytes sent are those received, in flight, lost or not pushed |
| DataChannelNetwork.DeliverToBConserved | src/gst-plugins/webrtcendpoint/kmswebrtcdatachannelbin.c:743-775 | zeroing the counters on an OPEN loses nothing from the books |
| DataChannelNetwork.LateAckReopens | src/gst-plugins/webrtcendpoint/kmswebrtcdatachannelbin.c:777-789 | a concrete run in which an ACK takes a closing channel back to open |
| DataChannelMessages.PushSends | src/gst-plugins/webrtcendpoint/kmswebrtcdatachannelbin.c:1031-1197 | every push that is let through sends one packet: 51 for text, 53 for binary, 56 and 57 for empty ones with one zero byte, ordered until open and then as the channel, with its lifetime or its retransmits; and exactly when a push sends |
| DataChannelMessages.PushCounts | src/gst-plugins/webrtcendpoint/kmswebrtcdatachannelbin.c:1031-1197 | what a push returns, and that a message counts even if it cannot go out, its bytes only if it does |
| DataChannelMessages.ReceiveCounts | src/gst-plugins/webrtcendpoint/kmswebrtcdatachannelbin.c:816-905 | a packet 51, 53, 56 or 57 is counted, with its bytes unless empty, and handed to the callback, whose result is returned; any other but 50 resets the channel and fails |
| DataChannelMessages.ControlExactly | src/gst-plugins/webrtcendpoint/kmswebrtcdatachannelbin.c:777-814 | a control message of type 2 opens the channel in any state, one that is neither 2 nor 3, or empty, resets it |
| DataChannelMessages.OpenExactly | src/gst-plugins/webrtcendpoint/kmswebrtcdatachannelbin.c:677-775 | for an OPEN: unreadable, out of place, or taken with its parameters and fresh counters and answered with one byte 2, after which the channel is open or, if that fails, reset |
| DataChannelMessages.RequestOpenExactly | src/gst-plugins/webrtcendpoint/kmswebrtcdatachannelbin.c:423-496 | only a fresh channel opens: it is connecting in any case, and one ordered reliable packet with the OPEN goes out and is counted exactly if it can be built and pushed |
| DataChannelMessages.ClosesOnce | src/gst-plugins/webrtcendpoint/kmswebrtcdatachannelbin.c:498-521 | a close asks for a reset if and only if the channel is connecting or open, so that however often it is closed it asks once |
| DataChannelMessages.CloseStopsA | src/gst-plugins/webrtcendpoint/kmswebrtcdatachannelbin.c:498-521 | an opener that was connecting or open is closing after its close, and a push then puts nothing on the wire |
| DataChannelMessages.CloseStopsB | src/gst-plugins/webrtcendpoint/kmswebrtcdatachannelbin.c:498-521 | and so for the accepting side |
| DataChannelMessages.NewIsFresh | src/gst-plugins/webrtcendpoint/kmswebrtcdatachannelbin.c:971-990 | a new channel is closed, carries its arguments with priority 0 and has counted nothing |
| DataChannelMessages.OpenComesFirst | src/gst-plugins/webrtcendpoint/kmswebrtcdatachannelbin.c:423-496 | on every run in which each open request of a fresh channel has at most one limit set and its push succeeds, a user message that reaches the peer finds the OPEN handled and the channel there, on the same stream |
| DataChannelMessages.MessagesKept | src/gst-plugins/webrtcendpoint/kmswebrtcdatachannelbin.c:816-1197 | on every run of both peers and in both directions the messages pushed, text or binary and byte for byte, are those handed to the peer's application, in flight or dropped: none changes, is made up or comes twice |
| DataSessionElement.DataSessionBin.constructor | src/gst-plugins/webrtcendpoint/kmswebrtcdatasessionbin.c:820-890 | a new session has empty tables, even ids from 0 and odd ids from 1 |
| DataSessionElement.DataSessionBin.SetCursor | src/gst-plugins/webrtcendpoint/kmswebrtcdatasessionbin.c:700-708 | only the cursor of the session's role moves |
| DataSessionElement.DataSessionBin.PickStreamId | src/gst-plugins/webrtcendpoint/kmswebrtcdatasessionbin.c:695-712 | the loop ends on the first unused id from the cursor in steps of two and leaves the role's cursor there |
| DataSessionElement.DataSessionBin.CreateDataChannel | src/gst-plugins/webrtcendpoint/kmswebrtcdatasessionbin.c:714-752 | a channel is filed under its id only with the association up and the link made; before that it waits, unfiled |
| DataSessionElement.DataSessionBin.AssociationEstablished | src/gst-plugins/webrtcendpoint/kmswebrtcdatasessionbin.c:754-800 | all waiting channels that can be linked are filed, and none is left waiting |
| DataSessionElement.DataSessionBin.OnPadAdded | src/gst-plugins/webrtcendpoint/kmswebrtcdatasessionbin.c:550-632 | a stream of an unknown number is accepted only with the peer's parity and not 65535 |
| DataSessionElement.DataSessionBin.OnPadRemoved | src/gst-plugins/webrtcendpoint/kmswebrtcdatasessionbin.c:634-693 | a closed stream leaves both tables and is counted only if it was there |
| DataSessionElement.DataSessionBin.OnNegotiated | src/gst-plugins/webrtcendpoint/kmswebrtcdatasessionbin.c:494-520 | a negotiated channel enters the table of open channels |
| DataSession.FirstFreeIsLeast | src/gst-plugins/webrtcendpoint/kmswebrtcdatasessionbin.c:695-712 | for any table and cursor from which the search does not pass 2^32, the pick is the least unused id of its parity from the cursor on, and not below the cursor |
| DataSession.PicksOnRuns | src/gst-plugins/webrtcendpoint/kmswebrtcdatasessionbin.c:695-752 | at any point of a run within 16-bit stream numbers the search ends, gives the least unused id of the role's parity from the cursor on and leaves the cursor there; and the cursor never moves back |
| DataSession.PickIsNear | src/gst-plugins/webrtcendpoint/kmswebrtcdatasessionbin.c:706-709 | the search takes at most one step: the id after the cursor is never in use |
| DataSession.CreationsFit | src/gst-plugins/webrtcendpoint/kmswebrtcdatasessionbin.c:695-712 | a run of any length with up to 2^15 - 1 creations stays within 16-bit stream numbers |
| DataSession.SmallTableHasFree | src/gst-plugins/webrtcendpoint/kmswebrtcdatasessionbin.c:706-709 | with fewer than 2^31 channels the search ends within as many steps as there are channels |
| DataSession.NumberingIsSplit | src/gst-plugins/webrtcendpoint/kmswebrtcdatasessionbin.c:481-492 | on every pair of runs, within 16-bit stream numbers, of two sessions of opposite roles, ids made on one side never meet those made on the other or accepted from it |
| DataSession.PickedIsAccepted | src/gst-plugins/webrtcendpoint/kmswebrtcdatasessionbin.c:695-752 | on every run within 16-bit stream numbers and with the association up, a new id is in no use on either side of the table, and the peer accepts it if and only if it is not 65535 |
| DataSession.WaitingChannelsShareAnId | src/gst-plugins/webrtcendpoint/kmswebrtcdatasessionbin.c:728-733 | on every run all waiting channels have one id, so that the table gains one entry for all of them: one each if and only if at most one waits |
| DataSession.StepKeeps | src/gst-plugins/webrtcendpoint/kmswebrtcdatasessionbin.c:594-800 | every event keeps the cursors' parity and the split of the table between own ids, none past the cursor, and foreign ones; only a creation moves the cursor, up by at most two |
| DataSessionRules.PadExactly | src/gst-plugins/webrtcendpoint/kmswebrtcdatasessionbin.c:550-632 | a number the peer opens is filed if and only if it is free, not 65535, and odd for a client or even for a server; nothing else changes |
| DataSessionRules.FirstNumber | src/gst-plugins/webrtcendpoint/kmswebrtcdatasessionbin.c:695-712 | a client numbers its first channel 0, a server 1 |
| DataSessionRules.CreateExactly | src/gst-plugins/webrtcendpoint/kmswebrtcdatasessionbin.c:695-752 | at any point of a run: the number is the least unused one of the role's parity from the role's cursor on, and the channel waits without an association, is filed with one if it could be linked, and changes nothing else |
| DataSessionRules.AssociationExactly | src/gst-plugins/webrtcendpoint/kmswebrtcdatasessionbin.c:754-800 | at any point of a run: when the association comes up nothing waits any more, and the number the waiting channels share is filed if and only if one of them could be linked |
| DataSessionRules.FollowsEvents | src/gst-plugins/webrtcendpoint/kmswebrtcdatasessionbin.c:494-800 | on every run the association flag, the length of the waiting list, each open channel and the count of opened ones are read off the events: the last report, the creations since, the last negotiation or removal |
| DataSessionRules.TableBalance | src/gst-plugins/webrtcendpoint/kmswebrtcdatasessionbin.c:634-752 | on every run the channels filed are those in the table and those counted as closed |
| DataSessionRules.LeavesExactly | src/gst-plugins/webrtcendpoint/kmswebrtcdatasessionbin.c:634-693 | a channel leaves the table when its pad is removed and with no other event, and keeps its origin until then |
| Player.PtsMemory.constructor | src/gst-plugins/kmsplayerendpoint.c:140-154 | a new sink remembers no time |
| Player.PtsMemory.Reset | src/gst-plugins/kmsplayerendpoint.c:156-161 | a preroll forgets base and last original time, and keeps the last pushed one |
| Player.PlayerEndpoint.ResetBaseTime | src/gst-plugins/kmsplayerendpoint.c:394-404 | a mark clears both shared base times and itself |
| Player.PlayerEndpoint.MarkResetBaseTime | src/gst-plugins/kmsplayerendpoint.c:406-413 | a mark changes no time yet |
| Player.PlayerEndpoint.GetOrGenerateBaseTime | src/gst-plugins/kmsplayerendpoint.c:370-392 | a base that is set is returned; one that is not becomes the clock reading and is kept, and the other base stays |
| Player.PlayerEndpoint.EmitBuffer | src/gst-plugins/kmsplayerendpoint.c:508-551 | the last tests and the rewritten timestamps, with 64-bit wrap-around |
| Player.PlayerEndpoint.ProcessSample | src/gst-plugins/kmsplayerendpoint.c:423-585 | the sink's memory, the shared times and the pushed buffer after any buffer, preroll or not; in terms of the clock in `PrerollTime`, `EpochStart`, `FirstSampleTime` and `RunningTime` |
| Retimer.StepPushes | src/gst-plugins/kmsplayerendpoint.c:456-551 | a timestamped buffer is pushed if and only if it is a preroll or its original PTS advances, so the final guard never fires; it leaves at base plus its offset in the epoch, past the last push, by 1 ms in a new epoch, with PTS minus DTS unchanged |
| Retimer.PrerollExactly | src/gst-plugins/kmsplayerendpoint.c:474-489 | for all 64-bit times: a timestamped preroll is dropped if and only if the new base wraps and the shared base is not past the last push |
| Retimer.PushedPtsIncrease | src/gst-plugins/kmsplayerendpoint.c:423-585 | on every run of any length over any number of sinks in which no 64-bit sum wraps, the PTS pushed for one sink strictly increase |
| Retimer.NothingElseIsDropped | src/gst-plugins/kmsplayerendpoint.c:508-548 | at any point of such a run a timestamped buffer is pushed if and only if it is a preroll or its original PTS advances |
| Retimer.EpochKeepsGaps | src/gst-plugins/kmsplayerendpoint.c:490-528 | from any point of such a run to the sink's next preroll, every push keeps the same distance from its original PTS, whatever the other sinks do |
| Retimer.FewEpochsFit | src/gst-plugins/kmsplayerendpoint.c:474-507 | with bounded clock readings and timestamps nothing wraps on a run of any length, as long as the epochs it starts fit in 64 bits: samples within an epoch use nothing up |
| Retimer.MarkClearsOnce | src/gst-plugins/kmsplayerendpoint.c:394-413 | on every run the shared times are cleared at most once per mark |
| Retimer.OnlyMarksClear | src/gst-plugins/kmsplayerendpoint.c:370-404 | through any run without such a clearing, base times that are set stay as they are |
| RetimerTimes.PrerollTime | src/gst-plugins/kmsplayerendpoint.c:474-489 | a timestamped preroll leaves at the preroll time that is set and not marked, else at the clock, or 1 ms past the last push if that is later; the mark is used up and clears the other base too |
| RetimerTimes.EpochStart | src/gst-plugins/kmsplayerendpoint.c:490-507 | the first sample of an epoch starts it at the samples' base that is set, else at the clock, or 1 ms past the last push if that is later |
| RetimerTimes.FirstSampleTime | src/gst-plugins/kmsplayerendpoint.c:490-548 | it leaves at that time, unless it is no later than the preroll was; then it is dropped |
| RetimerTimes.RunningTime | src/gst-plugins/kmsplayerendpoint.c:490-551 | in a running epoch a sample that advances leaves at the epoch's start plus its distance from the epoch's first sample, any other is dropped |
| RetimerTimes.UntimedExactly | src/gst-plugins/kmsplayerendpoint.c:436-455 | a buffer without timestamps leaves as it came if nothing with timestamps has passed, else it is dropped |
| RetimerTimes.UntimedOnlyFirst | src/gst-plugins/kmsplayerendpoint.c:436-455 | on every run such a buffer is pushed if and only if no timestamped one of its sink came before |
| RetimerTimes.FirstBufferAtClock | src/gst-plugins/kmsplayerendpoint.c:370-392 | the first timestamped buffer of a run leaves at the clock reading, whatever its timestamps |
| RetimerTimes.OneBaseForAll | src/gst-plugins/kmsplayerendpoint.c:370-507 | after a first sample, on any run in which no mark takes effect, every epoch of any sink starts at the clock reading of that sample or 1 ms past the sink's last push, whatever the clock says by then |
| RetimerTimes.OnePrerollForAll | src/gst-plugins/kmsplayerendpoint.c:370-489 | and prerolls leave at the clock reading of the first preroll, or 1 ms past the sink's last push |
| RetimerTimes.UnmarkedNeverClears | src/gst-plugins/kmsplayerendpoint.c:394-404 | without a mark the shared times are never cleared |
| RetimerTimes.MarkTakesEffect | src/gst-plugins/kmsplayerendpoint.c:394-413 | after a mark, whatever comes in between, the next timestamped preroll of any sink leaves at the clock or 1 ms past its last push, and no samples' base is left |
| PortSearch.SocketTable.Open | src/gst-plugins/rtpendpoint/kmssocketutils.c:31-55 | a bind of a port succeeds exactly if it is free and not held, a bind of port 0 on any port the machine gives; the port it ends up on is then held |
| PortSearch.SocketTable.Finalize | src/gst-plugins/rtpendpoint/kmssocketutils.c:20-29 | closing gives up that port only |
| PortSearch.TryPort | src/gst-plugins/rtpendpoint/kmssocketutils.c:128-166 | one attempt leaves both sockets of the pair open, or none it opened, and goes on from the port read back from the first socket |
| PortSearch.SearchFrom | src/gst-plugins/rtpendpoint/kmssocketutils.c:123-169 | whenever the loop ends, on whatever machine and range, its result is that of its attempts in turn, with the pair's sockets open or none, and at most two binds per attempt |
| PortSearch.GetSockets | src/gst-plugins/rtpendpoint/kmssocketutils.c:98-169 | whenever the call returns: an even port and the next, not held before, are the only new sockets, both of the caller's range if the search is safe and else at least one; without two ports in the caller's range nothing is bound; on failure there are no new sockets |
| PortSearch.EndsExactly | src/gst-plugins/rtpendpoint/kmssocketutils.c:74-90 | the loop ends on every machine, whatever is held, if and only if the upper bound is at most 65533, or 65534 with an odd start |
| PortSearch.AttemptBound | src/gst-plugins/rtpendpoint/kmssocketutils.c:74-128 | a loop whose port does not run over ends within (max - min) / 2 + 1 attempts, with the result of trying the ports from the start up and then from the lowest up |
| PortSearch.CompleteExactly | src/gst-plugins/rtpendpoint/kmssocketutils.c:78-87 | for every range and start, the default bound included: a pair that stays free makes the search succeed on every machine, if and only if it is not below an even start where the port runs over, and not the pair just below an even start with an odd lower bound where it does not |
| PortSearch.FindResult | src/gst-plugins/rtpendpoint/kmssocketutils.c:131-165 | every pair a search returns is even and next, was not held, and has at most one port out of range |
| PortSearch.WithinExactly | src/gst-plugins/rtpendpoint/kmssocketutils.c:74-165 | every pair a search can return lies in the range, if and only if the port does not run over, or the upper bound is 65535 and the start is odd or the lower bound even |
| PortSearch.SearchesGivenRange | src/gst-plugins/rtpendpoint/kmssocketutils.c:110-121 | for all arguments the search goes over the ports above 1024, from min_port on, up to max_port, or 65535 if that is 0, and there is none if these are fewer than two |
| PortSearch.CallCompleteExactly | src/gst-plugins/rtpendpoint/kmssocketutils.c:110-169 | in the arguments of the call: a pair of the range that stays free is found on every machine, if and only if the start is odd or the pair is not below it, or the port cannot run over and the pair is not just below the start or the range starts at an even port |
| PortSearch.CallWithinExactly | src/gst-plugins/rtpendpoint/kmssocketutils.c:110-169 | in the arguments of the call: both ports are always of the caller's range, if and only if max_port is 1 to 65533, or the start is odd, or max_port is 0 or 65535 and min_port even and above 1024 |
| PortSearch.FailedAttempt | src/gst-plugins/rtpendpoint/kmssocketutils.c:74-90 | where the port does not run over, a failed attempt takes the search exactly one candidate further |
| RecorderElement.RecorderEndpoint.constructor | src/gst-plugins/recorderendpoint/kmsrecorderendpoint.c:2004-2039 | a new recorder has no transition, no pads, no base and no pause |
| RecorderElement.RecorderEndpoint.LinkSink | src/gst-plugins/recorderendpoint/kmsrecorderendpoint.c:1033-1114 | a linked pad's source is taken from the muxer, whatever the state |
| RecorderElement.RecorderEndpoint.ReleasePendingPad | src/gst-plugins/recorderendpoint/kmsrecorderendpoint.c:1116-1124 | a source leaves the table only if the muxer lets it go |
| RecorderElement.RecorderEndpoint.UnlinkSink | src/gst-plugins/recorderendpoint/kmsrecorderendpoint.c:1116-1155 | an unlinked pad's source goes back at once, or waits while an EOS drains |
| RecorderElement.RecorderEndpoint.RemovePads | src/gst-plugins/recorderendpoint/kmsrecorderendpoint.c:711-722 | the loop unlinks every pad once, whatever the order |
| RecorderElement.RecorderEndpoint.OnEos | src/gst-plugins/recorderendpoint/kmsrecorderendpoint.c:1259-1287 | an EOS that was waited for gives back all waiting sources and ends the drain; during a stop the muxer is then asked to go down |
| RecorderElement.RecorderEndpoint.ReleasePendingSrcs | src/gst-plugins/recorderendpoint/kmsrecorderendpoint.c:1271-1277 | the loop gives back each waiting source the muxer lets go of, in any order, and empties the list |
| RecorderElement.RecorderEndpoint.AsyncStateChanged | src/gst-plugins/recorderendpoint/kmsrecorderendpoint.c:466-502 | a notification completes only the transition it belongs to |
| RecorderElement.RecorderEndpoint.OnStateChanged | src/gst-plugins/recorderendpoint/kmsrecorderendpoint.c:1977-1999 | only the end of the pipeline's way up and the first step of its way down are reported |
| RecorderElement.NotifiedExactly | src/gst-plugins/recorderendpoint/kmsrecorderendpoint.c:1977-1999 | a state change of the pipeline completes a start when it plays with nothing pending, a stop when it is ready with nothing or null pending, and does nothing else |
| RecorderElement.RecorderEndpoint.UpdateInternalState | src/gst-plugins/recorderendpoint/kmsrecorderendpoint.c:439-452 | what completing a transition records |
| RecorderElement.RecorderEndpoint.SyncStateChanged | src/gst-plugins/recorderendpoint/kmsrecorderendpoint.c:454-463 | a transition without the muxer completes at once and sets the uri state |
| RecorderElement.RecorderEndpoint.Stopped | src/gst-plugins/recorderendpoint/kmsrecorderendpoint.c:746-803 | that a stop is accepted exactly when the state allows it, and the whole state after it, playing or not; on runs in `CommandExactly` and `StopExactly` |
| RecorderElement.RecorderEndpoint.EndStop | src/gst-plugins/recorderendpoint/kmsrecorderendpoint.c:774-803 | once the EOS is sent, a stop removes the pads, forgets base and pauses, and completes, waits for the EOS, or asks the muxer to go down |
| RecorderElement.RecorderEndpoint.ResetTimeline | src/gst-plugins/recorderendpoint/kmsrecorderendpoint.c:780-788 | a stop forgets base and pauses, and nothing else |
| RecorderElement.RecorderEndpoint.Started | src/gst-plugins/recorderendpoint/kmsrecorderendpoint.c:814-877 | that a start is accepted exactly when the state allows it, and how it closes the account of a pause; on runs in `CommandExactly` and `PauseVanishes` |
| RecorderElement.RecorderEndpoint.EndPause | src/gst-plugins/recorderendpoint/kmsrecorderendpoint.c:857-864 | a running pause is added to the paused time, in 64 bits, and ends |
| RecorderElement.RecorderEndpoint.Paused | src/gst-plugins/recorderendpoint/kmsrecorderendpoint.c:879-917 | that a pause is accepted exactly when the state allows it, and the whole state after it, with or without a muxer clock; on runs in `CommandExactly` and `PauseVanishes` |
| RecorderElement.RecorderEndpoint.RecvSample | src/gst-plugins/recorderendpoint/kmsrecorderendpoint.c:264-371 | which buffers pass, the base they set and the times they are recorded with |
| Recorder.AtMostOneInFlight | src/gst-plugins/recorderendpoint/kmsrecorderendpoint.c:746-917 | on every run at most one accepted command has not completed, exactly while the state says so, and no command is accepted before |
| Recorder.GateExactly | src/gst-plugins/recorderendpoint/kmsrecorderendpoint.c:305-315 | on every run the gate is open if and only if the last accepted command is a start, so nothing is recorded while paused or after a stop is accepted |
| Recorder.StoppedForGood | src/gst-plugins/recorderendpoint/kmsrecorderendpoint.c:439-502 | once stopped, whatever follows, the recorder is not playing, drains nothing, is in STOP and COMPLETED, accepts no command and records nothing |
| Recorder.StopCompletes | src/gst-plugins/recorderendpoint/kmsrecorderendpoint.c:1977-1999 | a stop under way completes with the next ready notification and with nothing before it |
| Recorder.RecordedTimeline | src/gst-plugins/recorderendpoint/kmsrecorderendpoint.c:320-371 | on every run over a clock that does not go back, a recorded PTS is running time less base less completed pauses, clamped at 0, if and only if base and pauses fit in 64 bits or the time is within what wraps |
| Recorder.RecordedPair | src/gst-plugins/recorderendpoint/kmsrecorderendpoint.c:349-371 | two buffers of any streams recorded after the same pauses keep their distance in PTS, and times do not decrease when the input advances by at least the pauses between |
| Recorder.RecordedDts | src/gst-plugins/recorderendpoint/kmsrecorderendpoint.c:336-371 | on every such run a recorded DTS is running time less the DTS base less completed pauses, clamped at 0, if and only if these fit in 64 bits or the time is within what wraps; without a base it is untouched; the base is that of the first buffer with a PTS for every buffer that has one |
| Recorder.RecordedDtsPair | src/gst-plugins/recorderendpoint/kmsrecorderendpoint.c:360-371 | and two such buffers keep their distance in DTS, under the same conditions |
| Recorder.StepLifecycle | src/gst-plugins/recorderendpoint/kmsrecorderendpoint.c:427-502 | every event keeps state and last accepted command in step |
| RecorderStop.EosReleases | src/gst-plugins/recorderendpoint/kmsrecorderendpoint.c:1259-1287 | from any point of a run at which an EOS drains until it comes through, no source is given back and none forgotten; then all that wait are given back |
| RecorderStop.NothingLeftWaiting | src/gst-plugins/recorderendpoint/kmsrecorderendpoint.c:513-536 | on every run with a muxer that goes down only when asked, sources wait only while an EOS drains, and none once the recorder has stopped |
| RecorderStop.SplitStopExactly | src/gst-plugins/recorderendpoint/kmsrecorderendpoint.c:513-536 | for a stop that drops its lock, with any events before it, in the gap and after it, one EOS among them and a pad linked when the lock is taken again: no source is left waiting if and only if the EOS is not handled in the gap |
| RecorderStop.LateEosReleases | src/gst-plugins/recorderendpoint/kmsrecorderendpoint.c:513-536 | without an EOS in the gap the sources of all linked pads wait, on any run up to the EOS, and are given back by it |
| RecorderStop.EarlyEosKeepsWaiting | src/gst-plugins/recorderendpoint/kmsrecorderendpoint.c:1259-1287 | with one in the gap they wait on through any run without another EOS |
| RecorderStop.SplitStopConfluent | src/gst-plugins/recorderendpoint/kmsrecorderendpoint.c:513-536 | for a stop without sources: a muxer that goes down while the lock is dropped leads to the same state as one that goes down afterwards |
| RecorderStop.EarlyEosLeaks | src/gst-plugins/recorderendpoint/kmsrecorderendpoint.c:774-776 | a run at the end of which such a stop leaves a source waiting for good |
| RecorderStop.SplitStartConfluent | src/gst-plugins/recorderendpoint/kmsrecorderendpoint.c:850-874 | for a start that drops its lock: a playing notification in between leads to the same state as one after it |
| RecorderStop.SplitStartBuffer | src/gst-plugins/recorderendpoint/kmsrecorderendpoint.c:850-864 | a buffer that passes in between, the first one or a later one, is recorded as after the start if and only if the pause had no length or both times are clamped, for all 64-bit times |
| RecorderHistory.CommandExactly | src/gst-plugins/recorderendpoint/kmsrecorderendpoint.c:746-917 | on every run a command is accepted, and enters the log, if and only if none is in flight, none was a stop and the last one was another, the first being no stop; a pause completes at once, a start unless it is the first, a stop if nothing was started |
| RecorderHistory.NotificationExactly | src/gst-plugins/recorderendpoint/kmsrecorderendpoint.c:466-502 | on every run a notification completes the command in flight if and only if that is a start and the pipeline plays, or a stop and it is down |
| RecorderHistory.BufferExactly | src/gst-plugins/recorderendpoint/kmsrecorderendpoint.c:305-371 | on every run a buffer is recorded if and only if the last accepted command is a start |
| RecorderHistory.PauseVanishes | src/gst-plugins/recorderendpoint/kmsrecorderendpoint.c:320-371 | on every run, a buffer after a pause whose running time is later by the length of the pause on the muxer's clock is recorded where one before the pause would have been, whatever happens during the pause; without a clock nothing is taken off |
| RecorderHistory.StopExactly | src/gst-plugins/recorderendpoint/kmsrecorderendpoint.c:746-803 | on every run an accepted stop keeps the sources of all pads waiting and sends an EOS, or without sources asks the muxer to go down, or is the end at once if nothing was started; it forgets the timeline |
| RecorderHistory.StopNeverHangs | src/gst-plugins/recorderendpoint/kmsrecorderendpoint.c:513-536 | on every run with a muxer that goes down only when asked, a stop under way waits for its EOS or has asked the muxer, not both, and EOS and answer complete it |
| RecorderHistory.UnlinkExactly | src/gst-plugins/recorderendpoint/kmsrecorderendpoint.c:1116-1155 | an unlinked pad's source waits during a drain, else goes if the muxer lets it; nothing else changes |
| RecorderHistory.SourcesFollowPads | src/gst-plugins/recorderendpoint/kmsrecorderendpoint.c:1033-1155 | on every run with a muxer that lets sources go and goes down only when asked, the sources are those of the linked pads and those that wait for an EOS, none twice |
| CompositeGrid.Columns | src/gst-plugins/kmscompositemixer.c:173 | the columns' square holds n, and that of one column less does not |
| CompositeGrid.ColumnsAreLeast | src/gst-plugins/kmscompositemixer.c:173 | no smaller number of columns has a square that holds n |
| CompositeGrid.GridFits | src/gst-plugins/kmscompositemixer.c:173-174 | rows are at most columns, all n fit, and the last row is not empty |
| CompositeGrid.TileInside | src/gst-plugins/kmscompositemixer.c:178-197 | each of n tiles lies inside the output |
| CompositeGrid.TilesApart | src/gst-plugins/kmscompositemixer.c:178-197 | different tiles do not overlap |
| CompositeGrid.TilesAreVisible | src/gst-plugins/kmscompositemixer.c:178-179 | tiles have an area if and only if the output has a pixel per column and row |
| CompositeRules.TilesAreLargest | src/gst-plugins/kmscompositemixer.c:173-179 | tiles are as large as that many columns and rows of equal size can be |
| CompositeRules.ReadingOrder | src/gst-plugins/kmscompositemixer.c:181-200 | the first tile is in the corner, the next directly to the right, or at the left edge directly below after as many as there are columns |
| CompositePorts.TornDownExactly | src/gst-plugins/kmscompositemixer.c:257-376 | for every interleaving of upstream EOS, its arrival at the mixer pad and the two parts of a removal, the port is scheduled for removal at most once, and in the end exactly once if and only if no EOS was cut off |
| CompositePorts.LeftInThePipeline | src/gst-plugins/kmscompositemixer.c:360-376 | a concrete interleaving after which the port is never taken down |
| CompositePorts.CountedExactly | src/gst-plugins/kmscompositemixer.c:310-482 | on every run n_elems is the number of input ports plus the leaks, hence never smaller, and exact if and only if nothing leaked |
| CompositePorts.AlwaysSideBySide | src/gst-plugins/kmscompositemixer.c:157-208 | on every run, between recalculations too, the input ports are shown inside the output and without overlap |
| CompositePorts.RankIsPosition | src/gst-plugins/kmscompositemixer.c:148-155 | walking the ports by id, a port's tile number is the number of input ports passed before it, however the table lists them |
| CompositePorts.RankGrows | src/gst-plugins/kmscompositemixer.c:148-197 | tile numbers grow with the id and stay below the number of input ports |
| CompositePorts.StepCounts | src/gst-plugins/kmscompositemixer.c:310-482 | each event changes the excess of n_elems over the input ports by exactly its leak |
| CompositePorts.PortStepKeeps | src/gst-plugins/kmscompositemixer.c:257-376 | each event keeps a port either on its way to one removal, or cut off for good |
| CompositeRules.AlwaysArranged | src/gst-plugins/kmscompositemixer.c:157-208 | on every run on which nothing leaks, each input port has the tile of its place in the order of ids, of the grid for exactly the input ports there are |
| CompositeRules.TableExactly | src/gst-plugins/kmscompositemixer.c:628-763 | on every run the table holds just the ports that were handled and not taken out since |
| CompositeRules.TablePortsAtHome | src/gst-plugins/kmscompositemixer.c:420-482 | on every run no port of the table is on its way out, and exactly those with video have a probe for EOS |
| CompositeRules.TablePortRuns | src/gst-plugins/kmscompositemixer.c:257-482 | from the start of its stream until it is taken out, whatever the other ports do, a port of the table is where its own EOS events bring the machine of `TornDownExactly` |
| CompositeRules.ScheduledOnce | src/gst-plugins/kmscompositemixer.c:257-292 | a second EOS at the mixer pad of a removed port does nothing |
| CompositeRules.WithoutVideo | src/gst-plugins/kmscompositemixer.c:379-394 | a port removed without video is never scheduled for removal from the pipeline, whatever EOS comes |
| CompositeElement.SortedIds | src/gst-plugins/kmscompositemixer.c:164-171 | sorting the entries of the table in any order gives exactly its ids, ascending |
| CompositeElement.PortData.constructor | src/gst-plugins/kmscompositemixer.c:516-596 | a new port has no video, no EOS and nothing scheduled |
| CompositeElement.PortData.EosReceived | src/gst-plugins/kmscompositemixer.c:257-292 | the callback notes an EOS before a removal and schedules the removal after one |
| CompositeElement.PortData.Destroy | src/gst-plugins/kmscompositemixer.c:310-418 | the part of a removal under the lock, for ports with and without video and with and without EOS |
| CompositeElement.PortData.EosCrosses | src/gst-plugins/kmscompositemixer.c:257-292 | an EOS in transit reaches the callback over a link, and nothing without one |
| CompositeElement.CompositeMixer.TileFor | src/gst-plugins/kmscompositemixer.c:173-196 | the place computed from the counter is the counter's tile |
| CompositeElement.CompositeMixer.LayTiles | src/gst-plugins/kmscompositemixer.c:181-204 | after the loop exactly the input ports have got the tile of their rank |
| CompositeElement.CompositeMixer.LayTile | src/gst-plugins/kmscompositemixer.c:184-200 | an input port gets the counter's tile and moves the counter on, another port neither |
| CompositeElement.CompositeMixer.RecalculateSizes | src/gst-plugins/kmscompositemixer.c:157-208 | every input port gets the tile of its rank, and nothing else changes |
| CompositeElement.CompositeMixer.HandlePort | src/gst-plugins/kmscompositemixer.c:628-763 | a new port is filed, without video |
| CompositeElement.CompositeMixer.LinkToVideomixer | src/gst-plugins/kmscompositemixer.c:420-482 | a started stream makes its port an input, is counted and laid out |
| CompositeElement.CompositeMixer.LinkLate | src/gst-plugins/kmscompositemixer.c:420-482 | a stream that starts after its port left the table is counted, and all others are laid out anew |
| CompositeElement.CompositeMixer.Uncount | src/gst-plugins/kmscompositemixer.c:351-355 | an input port without EOS is taken out of the count and the others laid out anew, and no other port is |
| CompositeElement.CompositeMixer.UnhandlePort | src/gst-plugins/kmscompositemixer.c:310-376 | the port leaves the table; the count and the layout change only if it carried video and had no EOS |
| StyleViews.NamedViewIsGiven | src/gst-plugins/kmsstylecompositemixer.c:262-280 | an enabled view named by input ports shows the first of them |
| StyleViews.DisabledIsHidden | src/gst-plugins/kmsstylecompositemixer.c:266-269 | a port that names a disabled view is in no slot |
| StyleViews.ShownOnce | src/gst-plugins/kmsstylecompositemixer.c:246-306 | no port is in two slots |
| StyleViews.ShownExactly | src/gst-plugins/kmsstylecompositemixer.c:246-306 | the number of views shown is the number of eligible ports, at most four |
| StyleViews.FillAt | src/gst-plugins/kmsstylecompositemixer.c:294-306 | slot by slot: a named port stays, the e-th empty slot gets the e-th spare port from the end, if there is one |
| StyleViews.OccupiedExactly | src/gst-plugins/kmsstylecompositemixer.c:343-347 | with distinct view ids a shown port carries its view's own text if and only if it got the view by name |
| StyleViews.NeighboursAreALineApart | src/gst-plugins/kmsstylecompositemixer.c:322-350 | for all styles, neighbouring strips are exactly one line weight apart and level |
| StyleViews.StripsAreVisible | src/gst-plugins/kmsstylecompositemixer.c:322-330 | strips have an area if and only if there is room for a line and a pixel per column and for two lines of height |
| StyleViews.StripInside | src/gst-plugins/kmsstylecompositemixer.c:321-360 | with room every strip, and always a single full-screen view, lies inside the output |
| StyleViews.StripsApart | src/gst-plugins/kmsstylecompositemixer.c:321-360 | with room different strips do not overlap, with at least a line between them |
| StyleViews.ViewsSideBySide | src/gst-plugins/kmsstylecompositemixer.c:337-361 | with room the views of any assignment are shown inside the output, in the order of their slots and apart |
| StyleRules.EligibleExactly | src/gst-plugins/kmsstylecompositemixer.c:258-269 | an input port may be shown unless the first view with the id it gives is disabled |
| StyleRules.ClaimedExactly | src/gst-plugins/kmsstylecompositemixer.c:262-280 | a view shows the first input port that names it while it is enabled, and is left to others if and only if there is none |
| StyleRules.SpareExactly | src/gst-plugins/kmsstylecompositemixer.c:281-291 | the ports set aside are, in order, those that may be shown and name no view, or one that an earlier port has |
| StyleRules.FillerExactly | src/gst-plugins/kmsstylecompositemixer.c:282-306 | the views without a port of their own get, in order, the first ten of these, the last of them first, and one is left empty only when they are used up |
| StyleRules.OneFillsTheScreen | src/gst-plugins/kmsstylecompositemixer.c:352-360 | a single view has the whole screen |
| StyleRules.StripsAreWidest | src/gst-plugins/kmsstylecompositemixer.c:322-330 | strips are as wide as strips of equal width with a line each can be |
| StyleRules.StripsAreCentred | src/gst-plugins/kmsstylecompositemixer.c:322-350 | the margins on both sides differ by a pixel at most, and so do those above and below, which together are the pad |
| StyleElement.FindView | src/gst-plugins/kmsstylecompositemixer.c:265-281 | the loop finds the first view with the port's id, or none |
| StyleElement.Store | src/gst-plugins/kmsstylecompositemixer.c:282-291 | a port is set aside in the first free of ten places, and dropped when there is none |
| StyleElement.MapPort | src/gst-plugins/kmsstylecompositemixer.c:261-291 | one port takes the view it names, is set aside, or is left out, and each count grows by what was stored |
| StyleElement.MapPorts | src/gst-plugins/kmsstylecompositemixer.c:246-292 | after the loop each view holds the first eligible port that names it, and the spare ones are set aside in order unless all views are taken |
| StyleElement.FillSlots | src/gst-plugins/kmsstylecompositemixer.c:294-306 | the filling loop ends, with the empty slots filled from the spare ports in reverse |
| StyleElement.FirstEmpty | src/gst-plugins/kmsstylecompositemixer.c:296-298 | with fewer ports mapped than views the scan stops at the first empty slot |
| StyleElement.DrawViews | src/gst-plugins/kmsstylecompositemixer.c:336-384 | each shown port's pad and label get the column of its slot; other pads stay |
| StyleElement.HideAll | src/gst-plugins/kmsstylecompositemixer.c:248-256 | every input port, and no other, is made transparent |
| StyleElement.DrawView | src/gst-plugins/kmsstylecompositemixer.c:338-372 | one slot's pad gets the place of its column, and its label says whether it is another view's port |
| StyleElement.AssignViews | src/gst-plugins/kmsstylecompositemixer.c:242-306 | the three loops together give the assignment the view lemmas are about |
| StyleElement.RecalculateSizes | src/gst-plugins/kmsstylecompositemixer.c:216-390 | every pad after a recalculation: in its view's strip, transparent for an input port without a view, untouched otherwise or without elements |
| StyleElement.LabelExactly | src/gst-plugins/kmsstylecompositemixer.c:343-347 | with distinct ids a shown view is labelled as another's if and only if no input port names it while it is enabled |

## Left out

- DataChannelNetwork.TrafficConserved: counters are unbounded here; the source's wrap at 64 bits (control bytes at 32) is not modelled.
- DataSessionElement.DataSessionBin.PickStreamId: supposes an unused id of the role's parity among all 2^31, without which the source's loop would not end.
- DataSession.PicksOnRuns: up to ids of 16 bits, the range of a channel's id property; what becomes of a channel with a larger id is not part of this model.
- PortSearch.TryPort: a bound socket whose local address cannot be read, and missing result pointers, are not modelled.
- PortSearch.GetSockets: the number of attempts after which the loop ends is given; a search that never ends returns nothing to state.
- RecorderElement.RecorderEndpoint.Stopped: one step, though the lock is dropped at lines 518-533 and 792-794; what an EOS or the muxer going down does in the first gap is in `SplitStopExactly` and `SplitStopConfluent`.
- RecorderElement.RecorderEndpoint.Started: one step, though the lock is dropped around the muxer's state change; what can come in the gap is in `SplitStartConfluent` and `SplitStartBuffer`, other commands excepted.
- Recorder.RecordedPair: supposes that base and clock together stay below 2^64; what happens beyond is in `RecordedTimeline`.
- Recorder.RecordedDtsPair: supposes the same of the DTS base, and that the first buffer with a PTS has a DTS; the other cases are in `RecordedDts`.
- RecorderElement.RecorderEndpoint.UnlinkSink: the list of waiting sources is a set, so that their order and repetitions are not captured.
- CompositeGrid.Columns: the source takes the root and the quotient in floating point; here they are integers, which agree for counts a float holds exactly.
- CompositePorts.TornDownExactly: one EOS from upstream; a stream that clears the EOS flag and ends again is not modelled, nor the removal of the elements once scheduled.
- CompositeElement.CompositeMixer.RecalculateSizes: the places of pads and capsfilters are a table by port id, not properties of separate elements.
- StyleElement.RecalculateSizes: pads are made transparent in a pass of their own before ports are mapped; the overlay's style is its labels, not JSON text.
- StyleViews.StripInside: supposes line weights of at least 0 and pads of at least minus the line weight, which the initial values and the style reader keep.
- Dispose, finalize, class initialisation, properties, statistics and latency probes.
- Element and pad creation, linking, caps, ghost pads, reference counting and probes other than the EOS probe.
- DTLS, SRTP, ICE candidates and the internals of SCTP.
- Races inside a handler while its lock is dropped.
- Style parsing, drawing, background download, the alpha blending and dispatcher hubs, RTCP demultiplexing and key handling.
- The style mixer's port table and teardown, which repeat the composite mixer's.
