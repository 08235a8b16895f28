# A model of concordd, the Concord alarm-panel daemon

concordd sits between a GE/Interlogix Concord alarm panel, reached over a serial
line, and D-Bus clients. This project models its protocol stack in Dafny and proves
what it keeps over every run:

- `Framing`, `Link`: the wire format (LF, hex length, hex data, hex checksum), the
  byte-at-a-time receiver with its nibble buffer, running sum and length sentinel,
  and ACK/NAK bytes that travel in the same stream.
- `Outbox`, `Protocol`, `Runs`, `Progress`, `Timing`, `Channel`: the eight-slot retry queue. A run
  leaves a record of what can be observed (submissions, transmissions, answers,
  completions), judged by an automaton that knows nothing of rings; what time does to
  a queue whatever the line does; then two endpoints over a line that loses and
  garbles.
- `Panel`, `Instance`, `Lights`, `History`, `EventLog`, `Signals`, `Replica`: the mirror
  of the panel's partitions, zones, outputs, users, lights and events; what it amounts
  to as a function of all frames received; and whether a subscriber fed by change
  notifications alone keeps a true copy.
- `Chronicle`, `Lamps`, `Reports`, `News`, `Subscriber`: the same in the panel's own
  numbers. For every field of the tables the last frame that bears on it is named by its
  bytes; so are the events, the notifications and the entries of a subscriber's copy.
- `Keys`, `Commands`, `Replies`, `Refusals`: key strings, the guarded commands down to
  the frame on the wire, the one reply owed to each D-Bus call, and which it is.
- `Session`, `Requests`, `Delivery`, `Network`, `Daemon`: the layers put together. A session is
  any interleaving of bytes, calls and ticks after the refresh at start-up; it refines
  to the frames the receiver delivers and the history they make. On one line with the
  far end, a call answered OK has had its message delivered. The objects of the
  program are where a session starts when they are built (`Daemon.PowerOn`), and every
  byte, call and tick takes them where the session goes.
- `ConfigArgs`, `TokenText`: the in-place argument splitter and the one-line
  rendering of touchpad text.

Objects that the program updates in place are classes (`Link.SerialLink`,
`Outbox.MessageQueue`, `Instance.Instance`, `Daemon.Daemon`, `Daemon.DbusServer`);
each method is proved equal to a function on values, and the properties of runs are
proved about those functions. Text written into a buffer by the program is written
into an array here.

`dafny verify dfyconfig.toml` checks everything.

## What comes in from outside

Time is an integer given to each call; one call sees one reading of the clock.
`written` is the status of `send_bytes`, and may be a failure. The lookup table of
text tokens and the presence of a light subscriber are parameters. Callbacks are
returned as a list, in the order in which they are made, and are carried out by the
caller: a `finished` callback does not enter the queue again, as the D-Bus helper
does not (`src/concordd/concordd-dbus-server.c:237-260`).

## The limits the code relies on

The theorems on runs name these limits. For the first two the step lemma is an
equivalence: a consistent world stays consistent if and only if the limit is met. For
the other two the code writes past an array, and the model stops there.

- A message is submitted only while at most six are queued (`Protocol.Allowed`). The
  full branch at `src/concordd/ge-rs232.c:282-285` sets a status and goes on: the
  message is stored, the tail meets the head, and the ring looks empty
  (`Runs.FullRingLosesSight`). Seven submissions in one second get there
  (`Runs.FullRingIsReached`). The D-Bus caller is then told of an error and its
  helper freed, while the ring still holds the callback
  (`Replies.FullQueueKeepsTheCallback`).
- No update gives up the only message in the queue (`Protocol.GivesUpLast`).
  Emptiness is not looked at again between `src/concordd/ge-rs232.c:250` and `:257`,
  so the slot after the last message is sent (`Runs.StaleSlotIsSent`). One
  submission and six seconds of silence get there (`Runs.GivingUpLastIsReached`).
- A message has at most 29 bytes (`Link.Sendable`, in `Protocol.LegalJob` and
  `Replies.LegalTurn`), because the staging array has 63 cells
  (`src/concordd/ge-rs232.c:151`). The commands keep to it (`Replies.CommandsFit`); key
  texts do if and only if they have at most 26 codes or fail (`Daemon.PressedFits`), so
  27 digits do not (`Daemon.LongKeysDoNotFit`). As byte strings, all lengths from 1 to 55 round-trip,
  and no others: the sender lets 56 through, and the receiver refuses its length byte
  of 57 (`Framing.RoundTripExactly`).
- What a frame copies has room in the tables (`Panel.FrameInBounds`, over a history
  `Panel.Bounded`, over turns `Replies.LegalTurn`). No handler looks at the length of
  its frame. The payload of a touchpad text for an existing partition has 5 to 37
  bytes (`src/concordd/concordd.c:635-640`), that of a zone's data 8 to 24 (`:1027-1028`)
  and of an output's data 9 to 25 (`:936-937`); beyond that the copy has a negative size
  or runs into the next row. At most 32 bus devices are listed between two refreshes
  (`:848`), and the capability of a listed device is below 32 (`:874`).

Only the comparison with the batch parser asks for non-zero bytes: a NUL where a
first digit is expected leaves no trace in the receiver, and the daemon drops NULs as
it reads (`src/concordd/main.c:1174-1176`). Where code and comment differ the model
follows the code: "Tail is always empty" (`src/concordd/ge-rs232.c:280`) is not so in a
full ring. A handler reads its fields from the receive buffer itself, 56 bytes long,
so a short frame of another kind is read together with what the buffer held before;
the buffer is part of a session's state. Three entries of the change signals are never
sent, because no notification flags them (`Replica.NeverAnnounced`): a zone's name and
trip time, and a partition's programming mode, whose flag goes to the subscriber of the
instance instead (`src/concordd/concordd.c:406`).

## Model

| member | source | states |
|---|---|---|
| Framing.ValuesOfHex | src/concordd/ge-rs232.c:183-197 | The hex text of any bytes, read back in pairs of digits, is those bytes. |
| Framing.FeedConcat | src/concordd/ge-rs232.c:62-126 | Receiving a stream in two parts is receiving it in one: state, outcomes and answers. |
| Framing.DeliveredConcat | src/concordd/ge-rs232.c:107-116 | Payloads delivered and answers written by two stretches of outcomes are those of each in turn. |
| Framing.JudgedAtFrameEnd | src/concordd/ge-rs232.c:89-119 | A frame is decided at one character and no other: the length byte if it is outside 2..56, else the last checksum digit. |
| Framing.ReceiverRefinesBatch | src/concordd/ge-rs232.c:62-126 | For every stream without NUL, the incremental receiver reports byte for byte what a batch parser reports that cuts at LF, looks at the length byte and judges each piece once. |
| Framing.RoundTrip | src/concordd/ge-rs232.c:66-119 | From any receiver state, the frame of a payload of 1 to 55 bytes delivers exactly that payload, once, at its last byte, and leaves the receiver idle. |
| Framing.RoundTripExactly | src/concordd/ge-rs232.c:89-99 | A payload of any length gets through if and only if it has 1 to 55 bytes. |
| Framing.Resynchronises | src/concordd/ge-rs232.c:66-71 | After any garbage the next frame is delivered and acknowledged, on top of whatever the garbage gave. |
| Framing.WrongLengthIsSilent | src/concordd/ge-rs232.c:90-99 | A frame whose length is not accepted is neither delivered nor answered. |
| Framing.TruncatedFrameIsSilent | src/concordd/ge-rs232.c:105-119 | A frame cut short anywhere is neither delivered nor answered, from any receiver state. |
| Framing.SumUpdate | src/concordd/ge-rs232.c:118 | Changing one byte changes the sum by exactly the difference. |
| Framing.GarbledFrameIsRefused | src/concordd/ge-rs232.c:107-116 | A frame of which one payload or checksum byte reads differently is answered NAK at its last byte and never delivered. |
| Framing.WireByNumber | src/concordd/ge-rs232.c:151-204 | On the wire a frame is the byte 10 and then, for the length, each payload byte and the sum modulo 256, two characters of 0123456789ABCDEF. |
| Framing.RequestOnWire | src/concordd/ge-rs232.c:151-204 | The request for the equipment list is the byte 10 and the text 020204. |
| Framing.AnswersByNumber | src/concordd/ge-rs232.c:107-116 | From any receiver state a whole frame is answered with the one byte 6, and one with a wrong byte with the one byte 21. |
| Link.HearIsFeed | src/concordd/ge-rs232.c:72-81 | With no answer due, or none in the stream, ACK and NAK bytes have no special part in reading frames. |
| Link.AnswerFallsAnywhere | src/concordd/ge-rs232.c:72-81 | The first ACK or NAK while an answer is due settles it, and the stream around it is read as if that byte were not there. |
| Link.AnswerInsideFrame | src/concordd/ge-rs232.c:72-119 | An answer at any place inside a frame settles the pending message and the frame is still delivered at its last byte. |
| Link.TracksBounds | src/concordd/ge-rs232.c:89-119 | In the middle of a frame a known length is at most 56 and above the count of stored bytes, so the sentinel 255 is never ambiguous. |
| Link.TracksLength | src/concordd/ge-rs232.c:89-101 | The length byte: refused as too big above 56, as too small below 2, else taken, with the sum started from it. |
| Link.TracksStore | src/concordd/ge-rs232.c:102-119 | A byte before the last is stored, and the running sum stays the checksum of length and stored bytes. |
| Link.TracksLast | src/concordd/ge-rs232.c:105-116 | The last byte decides: accepted exactly if it equals the running sum, and what is handed over is what is stored. |
| Link.HandedOver | src/concordd/ge-rs232.c:102-110 | Whatever was received before, a delivered payload lies at the start of the receive buffer; what is behind it is left from earlier frames. |
| Link.SerialLink.constructor | src/concordd/ge-rs232.c:49-54 | A fresh link is idle, with nothing pending and a zeroed buffer. |
| Link.SerialLink.ReceiveDigit | src/concordd/ge-rs232.c:82-119 | The in-place parser's step inside a frame is the judgement on the whole text of the frame, and the buffer changes in the one cell it should. |
| Link.SerialLink.ReceiveByte | src/concordd/ge-rs232.c:62-126 | The link with all its fields behaves as receiver plus pending answer say, for every byte, with the status code returned and the buffer kept. |
| Link.SerialLink.SendMessage | src/concordd/ge-rs232.c:147-206 | For 1 to 29 bytes the wire carries the frame, the message is kept as output, an answer becomes due, and the time is noted if the write succeeded; for none, or more than 56, an error and nothing changed. |
| Link.Stage | src/concordd/ge-rs232.c:148-197 | The loop over the staging array writes exactly the frame of the data. |
| Link.PutByte | src/concordd/ge-rs232.c:185-192 | One byte goes out as two hex digits, high one first, after what was written before. |
| Outbox.MessageQueue.constructor | src/concordd/ge-rs232.c:208-213 | A fresh queue, on zeroed memory, is empty, its link idle and its receive buffer zeroed. |
| Outbox.MessageQueue.GotResponse | src/concordd/ge-rs232.c:215-233 | On ACK, or after three attempts, the head leaves with its callback called with the link's status; the queue's callback is removed either way. |
| Outbox.MessageQueue.TransmitHead | src/concordd/ge-rs232.c:256-263 | The head is counted one attempt, the callback installed, and its frame sent. |
| Outbox.MessageQueue.Update | src/concordd/ge-rs232.c:239-267 | Empty or waiting: nothing. Timed out: the head is settled first. Then whatever is at the head is sent. |
| Outbox.MessageQueue.QueueMessage | src/concordd/ge-rs232.c:269-299 | The message is stored at the tail with no attempts, full ring or not, and the queue is updated; a full ring is reported. |
| Outbox.MessageQueue.ReceiveByte | src/concordd/ge-rs232.c:62-126 | Only an ACK or NAK that is due touches the queue, and then it settles the head. |
| Outbox.RingArithmetic | src/concordd/ge-rs232.c:282-293 | Steps round the ring, and its count of messages, are those of arithmetic modulo 8. |
| Protocol.RingStores | src/concordd/ge-rs232.c:287-293 | Storing appends to the queue as a sequence while it holds at most six; into a full ring it leaves the sequence empty. |
| Protocol.RingPops | src/concordd/ge-rs232.c:227 | Popping drops the first of the sequence; popping an empty ring makes it look full. |
| Protocol.RingTouchesHead | src/concordd/ge-rs232.c:257-258 | Counting an attempt changes the first of the sequence only. |
| Protocol.StoreKeeps | src/concordd/ge-rs232.c:287-293 | Storing a message within the limit keeps ring, link and record consistent. |
| Protocol.TransmitKeeps | src/concordd/ge-rs232.c:256-263 | Sending the head when no answer is due restores consistency, one attempt later. |
| Protocol.TimeoutKeeps | src/concordd/ge-rs232.c:250-254 | A timeout gives the head up after its third attempt and otherwise leaves it for another. |
| Protocol.AnswerKeeps | src/concordd/ge-rs232.c:72-81 | ACK and NAK bytes, due or not, keep the world consistent. |
| Protocol.AdvanceKeeps | src/concordd/ge-rs232.c:239-267 | An update that does not give up the only message keeps the world consistent. |
| Protocol.StepKeeps | src/concordd/ge-rs232.c:215-299 | Every submission, tick and answer byte within the limits keeps the world consistent. |
| Runs.StepKeepsExactly | src/concordd/ge-rs232.c:215-299 | From a consistent world a step leads to a consistent one if and only if it is within the limits. |
| Runs.FullRingLosesSight | src/concordd/ge-rs232.c:282-293 | Submitting into a ring of seven leaves a ring that counts as empty with eight messages unfinished; the world is no longer consistent. |
| Runs.StaleSlotIsSent | src/concordd/ge-rs232.c:250-263 | Giving up the only message goes on to send whatever the slot behind it holds, with an answer due though the ring is empty; an ACK to it leaves a ring that counts seven messages. |
| Runs.BurstFillsRing | src/concordd/ge-rs232.c:269-299 | n submissions in one second, n below eight, stay within the limits and leave n messages queued. |
| Runs.FullRingIsReached | src/concordd/ge-rs232.c:282-293 | A run within the limits fills the ring; an eighth submission then breaks them, and empties it from sight. |
| Runs.GivingUpLastIsReached | src/concordd/ge-rs232.c:250-263 | A run within the limits comes to give up its only message; the tick that does so breaks them, and an empty ring awaits an answer. |
| Runs.RunsAreConsistent | src/concordd/ge-rs232.c:215-299 | Every run within the limits is consistent, its record legitimate (order of submission, at most three transmissions each, OK only on an ACK of the last one, failure only after the third), and submitted = finished + queued. |
| Runs.ReachableStates | src/concordd/ge-rs232.c:215-267 | In every reachable state an answer is due exactly while the queue's callback is installed; then the ring is not empty, the link's output is the head and its attempts are 1 to 3; otherwise the head has at most two; no other message has any. |
| Runs.CompletionsAreEarned | src/concordd/ge-rs232.c:215-233 | Every completion of a run is for the next message in order, with its own callback; OK follows an ACK to its last transmission, NAK and TIMEOUT exactly three transmissions. |
| Runs.LegitEverywhere | src/concordd/ge-rs232.c:215-299 | What holds of a whole record holds at every point of it. |
| Runs.BudgetOfSlots | src/concordd/ge-rs232.c:221-227 | The transmissions still coming to the queued messages are three each, less those the head has had. |
| Runs.SendsOfRecord | src/concordd/ge-rs232.c:256-263 | In a legitimate record there are at most three transmissions for each completion, plus the current message's. |
| Runs.UpdateIsPaid | src/concordd/ge-rs232.c:250-263 | An update lowers the sum over queued messages of 3 - attempts by exactly the number of transmissions it makes. |
| Runs.TransmissionsArePaid | src/concordd/ge-rs232.c:215-299 | Over one step: a tick lowers that sum by what it sends, a submission raises it by 3 less what it sends, an answer sends nothing and does not raise it. |
| Runs.SendsAreBounded | src/concordd/ge-rs232.c:221-263 | A run with n submissions sends at most 3n times whatever the line and the writes do: sends so far and the budget still left stay within 3n. |
| Protocol.StepJobs | src/concordd/ge-rs232.c:215-299 | Only a submission adds a job to the record, and it adds its own. |
| Progress.AdvanceBranch | src/concordd/ge-rs232.c:239-267 | An update does nothing, sends, or gives up and sends: nothing exactly if the queue is empty or waiting, the last exactly after a third transmission without an answer. |
| Progress.DueTick | src/concordd/ge-rs232.c:239-267 | A tick that finds the link ready either transmits the head once more, or finishes it after its third transmission and transmits the next. |
| Progress.StepCosts | src/concordd/ge-rs232.c:215-299 | Four for every unfinished message less the transmissions of the first: only a submission raises this, and every busy tick lowers it. |
| Progress.BusyTicksAreBounded | src/concordd/ge-rs232.c:215-299 | A run with n submissions has at most 4n ticks that find something to do, whatever the line and the writes do. |
| Progress.SilenceFinishesHead | src/concordd/ge-rs232.c:239-267 | With another message behind it, and no answer ever, the head is finished by exactly four ticks less its transmissions, more than a second apart, within the limits. |
| Progress.SilenceFinishes | src/concordd/ge-rs232.c:239-267 | On a silent line, of n messages all but the last are finished: the first so, each other after three more ticks. |
| Timing.StillWaiting | src/concordd/ge-rs232.c:128-140 | Up to a second after an unanswered transmission an update changes nothing at all. |
| Timing.OnlyStored | src/concordd/ge-rs232.c:269-299 | In that second a submission is stored at the end and nothing else happens. |
| Timing.RipenedIsDue | src/concordd/ge-rs232.c:239-256 | An update finds something to do exactly if there is a message, and no answer is due or more than a second has passed. |
| Timing.TickSendsExactly | src/concordd/ge-rs232.c:239-267 | Within the limits an update transmits once in that case and else does nothing; it restarts the second if the write succeeded. |
| Timing.SubmitSendsExactly | src/concordd/ge-rs232.c:269-299 | A submission transmits exactly if no answer is due or more than a second has passed. |
| Timing.SecondRunsOn | src/concordd/ge-rs232.c:128-140 | As long as nothing is transmitted and nothing heard, the second that began with the last transmission runs on. |
| Timing.TransmissionStarts | src/concordd/ge-rs232.c:147-206 | A transmission finds the link free, leaves an answer due, and starts the second if it was written. |
| Timing.TransmissionsAreSpaced | src/concordd/ge-rs232.c:128-140 | In every run within the limits, of two successive transmissions with no answer between them, the second comes more than a second after the first, if the first was written. |
| Channel.DeliveryIsAcknowledged | src/concordd/ge-rs232.c:105-119 | Whatever the line does to a transmission, the far end delivers it and answers ACK, or does neither. |
| Channel.GarblingIsNoticed | src/concordd/ge-rs232.c:105-119 | A garbled transmission, of any length the sender lets through, delivers nothing and is not acknowledged. |
| Channel.ReplayPut | src/concordd/ge-rs232.c:239-267 | One more copy of a message, none of the later ones having arrived, comes at the end of what has arrived. |
| Channel.MoveKeeps | src/concordd/ge-rs232.c:62-299 | Every move of the two endpoints keeps the account of copies. |
| Channel.RunsAreFaithful | src/concordd/ge-rs232.c:62-299 | Every run of the two endpoints is consistent and accounted for. |
| Channel.DeliveryLog | src/concordd/ge-rs232.c:62-299 | In every run what has arrived is the submitted messages in order, each finished one at most three times and at least once if reported OK, the current one at most as often as sent, later ones not at all. |
| Keys.CompileKeys | src/concordd/concordd.c:239-295 | The loop over the message buffer, with its flags and its cut-off at 56 bytes, computes the token-by-token meaning of the text; it ends for every text. |
| Keys.CompileItems | src/concordd/concordd.c:247-294 | Well-formed tokens followed by anything malformed: the message is the codes as far as they fit, and the malformed rest matters only if there is room. |
| Keys.PressKeysGrammar | src/concordd/concordd.c:247-294 | Header plus at most 53 codes, one a token, [FF] adding none; fails exactly if a bad token comes before the cut-off. |
| Keys.BracketsMean | src/concordd/concordd.c:268-288 | Codes printed in two-digit brackets mean those codes. |
| Keys.PrintedCodesRoundTrip | src/concordd/concordd.c:239-295 | Printing up to 53 codes, none FF, as brackets and pressing the text gives the codes back. |
| Keys.KeysByNumber | src/concordd/concordd.c:252-266 | The codes of the keys 0-9, *, #, A-F and a-f: 0 to 9, 0A, 0B, 2C, 30, 2D, 33, 2E, 36. |
| Keys.OnlyKeys | src/concordd/concordd.c:252-266 | Those characters and no others are keys. |
| Keys.KeyTable | src/concordd/concordd.c:247-294 | Each key pressed gives its code; with a flag behind it, at the end or before a bracketed code, the code with bit 6 set, then that code. |
| Keys.NumberRead | src/concordd/concordd.c:268-275 | strtol takes white space, a sign, the prefix 0x and hexadecimal digits of any number, and nothing of what follows. |
| Keys.BracketReads | src/concordd/concordd.c:268-288 | Whatever number so written stands in brackets, its code is the low byte of the number, a negative one included. |
| Keys.EmptyBracket | src/concordd/concordd.c:268-288 | Empty brackets are code 0. |
| Instance.Instance.constructor | src/concordd/concordd.c:167-181 | A fresh instance shows the blank mirror. |
| Instance.Instance.EquipmentRefresh | src/concordd/concordd.c:191-223 | Four loops clear every active flag, and the delays of partitions; the device list restarts, nothing else changes, the refresh is pending and one request queued. |
| Instance.Instance.HandleAlarm | src/concordd/concordd.c:297-475 | The event goes into the next log cell, then into the tables, and is passed on unless it reports an output. |
| Instance.Instance.Tabulate | src/concordd/concordd.c:348-465 | Each class of event changes its one table cell or flag, with its bounds, and tells subscribers accordingly. |
| Instance.Instance.HandleSubcmd | src/concordd/concordd.c:560-765 | Each subcommand changes the row it names and sends the notifications it should, in order. |
| Instance.Instance.HandleSirenSetup | src/concordd/concordd.c:565-602 | The siren's fields are set, and reported if the repeat count is zero. |
| Instance.Instance.HandleTouchpadDisplay | src/concordd/concordd.c:627-656 | The text of the frame replaces the partition's, and is reported if it is another. |
| Instance.Instance.HandleFeatureState | src/concordd/concordd.c:714-733 | The feature byte is taken over, and the bits that differ are reported. |
| Instance.Instance.StoreLights | src/concordd/concordd.c:486-522 | The row's lights become those of the loop, and at most one light is reported. |
| Instance.LoopOverLights | src/concordd/concordd.c:486-522 | The loop flips lights that differ up to the first one it reports. |
| Instance.Instance.HandleSubcmd2 | src/concordd/concordd.c:477-558 | Light states, user lights and key fobs, with the key fob's suppression of repeats. |
| Instance.Instance.HandleZoneStatus | src/concordd/concordd.c:767-810 | The state is taken over; a change is reported only of a zone already active; the zone is then active. |
| Instance.Instance.HandlePartitionData | src/concordd/concordd.c:812-840 | The partition becomes active with the level given, reported if it changed. |
| Instance.Instance.HandleZoneData | src/concordd/concordd.c:1000-1057 | The zone's fields and name are taken over, and what changed is reported of an active zone. |
| Instance.UpdatedZone | src/concordd/concordd.c:1009-1028 | Field by field the mask gathered is exactly what differs, state bit by state bit; a new name alone is not in it. |
| Instance.Instance.HandleUserData | src/concordd/concordd.c:1059-1102 | The user's PIN becomes the four digits sent, empty if they are all zero. |
| Instance.Instance.HandleOutputData | src/concordd/concordd.c:920-953 | The output's state and pulse bits, its id and its name are taken over. |
| Instance.Instance.HandleLightToSensorData | src/concordd/concordd.c:971-998 | The loop gives lights 1 to 9 their zones and leaves light 0. |
| Instance.Instance.HandleDeviceData | src/concordd/concordd.c:842-863 | The next row of the device table takes number and status; the capabilities known of that row stay. |
| Instance.Instance.GetDevice | src/concordd/concordd.c:82-93 | The first active device of that number among those listed. |
| Instance.Instance.HandleCapabilityData | src/concordd/concordd.c:865-918 | The device of that number, if listed, gains the capability, and its count of inputs or outputs. |
| Instance.Instance.HandlePanelType | src/concordd/concordd.c:1104-1118 | Panel type, revisions and serial number are taken over. |
| Instance.Instance.HandleFrame | src/concordd/concordd.c:1120-1170 | Each frame is taken to its handler, and the whole effect on tables, subscribers and queue is the one specified. |
| Lights.OneFrame | src/concordd/concordd.c:486-522 | One frame makes every light up to the reported one agree with the bitmap, leaves the rest, and lowers the number that differ unless it is zero. |
| Lights.WrongAfter | src/concordd/concordd.c:486-522 | After n equal frames at most 10 - n lights differ; none after one frame if nothing is reported. |
| Lights.LightsConverge | src/concordd/concordd.c:486-522 | Ten equal frames always bring every light into line, and one does while a refresh is pending. |
| Lights.LoopFrom | src/concordd/concordd.c:486-522 | The loop over the lights: the first that differs and has changed before is told to a listener, those up to it are brought into line with the time noted, the others stay. |
| Lights.FirstIsReported | src/concordd/concordd.c:486-522 | With a listener and no refresh pending a frame reports a light if and only if that is the first one that differs and has changed before; nothing exactly if there is none. |
| History.StepLearns | src/concordd/concordd.c:560-765 | What one input does to the facts behind the command guards: only the inputs that bear on a fact change it, and as they say. |
| History.UsersLearn | src/concordd/concordd.c:1059-1102 | What one input does to the pending refresh and the PINs. |
| History.ZoneRowsLearn | src/concordd/concordd.c:767-1057 | What one input does to zone states and zone partitions. |
| History.AfterHistory | src/concordd/concordd.c:191-223 | After any history within bounds: a partition is active exactly if one of six kinds of frame named it since the last refresh, programming exactly if its last begin/end event was a begin, siren-on exactly if its last siren setup had repeat 0 (the clock not being at 0); likewise level, entry delay, refresh, PINs and zones. |
| History.ZonesAfter | src/concordd/concordd.c:477-1057 | After any history within bounds a zone is active exactly if, since the last refresh, a status or data frame named it or its key fob was used other than as a repeat within the second. |
| History.DevicesAfter | src/concordd/concordd.c:842-863 | After any history within bounds the device table is the list of devices announced since the last refresh, in order, and no other row is active. |
| Chronicle.InputTells | src/concordd/concordd.c:560-765 | What one input does to touchpad text, features, siren, who armed and the exit delay of a partition. |
| Chronicle.StoryAfter | src/concordd/concordd.c:560-765 | After any history within bounds a partition's touchpad text is byte 5 to the end of the last touchpad frame naming it; features, siren repeat, start and cadence, the user who armed and when, and the exit delay are those of the last frame that says so. |
| Chronicle.InputTellsZone | src/concordd/concordd.c:767-810 | What one input does to group, type, name and the two times of a zone. |
| Chronicle.ZoneStoryAfter | src/concordd/concordd.c:1001-1057 | After any history within bounds group, type and name of a zone are those of its last data frame; it was tripped when flag 0 last came on in a status, and changed when an active zone's status last differed or its key fob was last used anew. |
| Chronicle.InputTellsOutput | src/concordd/concordd.c:419-465 | What one input does to an output. |
| Chronicle.OutputsAfter | src/concordd/concordd.c:921-954 | After any history within bounds an output's state is that of the last data frame or on/off event for it; pulse, id and name are the last data frame's; partition, source and time those of the last event that changed the state; it is active if named since the last refresh. |
| Chronicle.PanelAfter | src/concordd/concordd.c:1105-1119 | After any history within bounds the panel's model, the partition a siren go is about, and the time of the last mains failure or return are those of the last frame that says so. |
| Chronicle.FindListed | src/concordd/concordd.c:83-94 | Looking a bus device up finds the first of the announced list with its number. |
| Chronicle.CapabilitiesAfter | src/concordd/concordd.c:866-919 | After any history within bounds a device slot has exactly the capabilities reported for the device listed there at the time, and the last counts of inputs and outputs. |
| Lamps.BitmapTells | src/concordd/concordd.c:486-522 | One LIGHTS_STATE frame, in terms of what the history says of the lights. |
| Lamps.LampsAfter | src/concordd/concordd.c:477-557 | After any history within bounds each light is as the last frame said that reached it: one for it alone, or one for all lights if no earlier light stopped the loop; the time is that of the last change. |
| Lamps.LightsAfter | src/concordd/concordd.c:972-999 | The same with the zone of each light from the last light-to-sensor frame; light 0 has none. |
| Commands.ArmKeys | src/concordd/concordd.c:1315-1324 | The arm texts compile to 20, 28 and 27. |
| Commands.LightKeys | src/concordd/concordd.c:1203-1207 | The light texts compile to 10 or 11 and the light's digit. |
| Commands.NibblesCompile | src/concordd/concordd.c:239-295 | Digits written for nibbles compile to the nibbles if all are at most nine; otherwise nothing is pressed. |
| Commands.BypassKeys | src/concordd/concordd.c:1253-1255 | The bypass text compiles to 0B, the four PIN nibbles and the two digits of the zone, or to nothing if a nibble is above nine. |
| Commands.PinTextEmpty | src/concordd/concordd.c:1071-1085 | A PIN is kept as empty exactly if all its nibbles are zero. |
| Commands.ArmAfter | src/concordd/concordd.c:1286-1328 | After any history within bounds an arm request queues a message if and only if the partition is named and not programming, the level known, only OFF while the siren is on, and something to change; and the message is exact. |
| Commands.LightAfter | src/concordd/concordd.c:1185-1208 | After any history within bounds a light request queues a message if and only if no refresh is due and the partition is named and not programming; and the message is exact. |
| Commands.BypassAfter | src/concordd/concordd.c:1210-1256 | After any history within bounds a bypass request queues a message if and only if no refresh is due, the zone is active, its partition named and not programming, the flag differs, and the PIN last sent is decimal and not all zero; and the message is 40, p, 0, 0B, the PIN's nibbles, zone/10, zone%10. |
| Commands.CommandsReachTheWire | src/concordd/concordd.c:1185-1328 | Whatever the three commands queue after any history within bounds, its frame delivers exactly that message to a receiver in any state. |
| EventLog.LogStep | src/concordd/concordd.c:324-345 | Adding an event keeps the ring readable backwards from its last cell. |
| EventLog.EventUpdatesTables | src/concordd/concordd.c:348-465 | An event keeps every table cell the latest event of its kind. |
| EventLog.AcFlag | src/concordd/concordd.c:350-360 | The AC flag agrees with the status of the AC-failure cell. |
| EventLog.EventsAfter | src/concordd/concordd.c:324-475 | After any history within bounds the log read backwards is the last 256 events in order, every alarm and trouble cell is the most recent matching event, and the AC flag agrees with its cell. |
| EventLog.EventsArePassedOn | src/concordd/concordd.c:419-472 | Over any history within bounds the events passed on are the events received less output reports, in order. |
| Reports.EventIsIn | src/concordd/concordd.c:297-343 | The event of a report, byte by byte: the long source number for a bus device, its low 16 bits for any other source; ongoing for types 1, 4, 6, 15, restored for 3, 5, 7, 16, cancelled for 2. |
| Reports.ReportsAreEvents | src/concordd/concordd.c:679-689 | The events of a history are its frames 22 02, read so, in order. |
| Reports.LogAfter | src/concordd/concordd.c:345-347 | After any history within bounds the log, k cells back from the last one written, holds the k-th last report, and nothing if there was none. |
| Reports.TablesAfter | src/concordd/concordd.c:349-381 | After any history within bounds each cell of the tables is the last report with the cell's number, of types 15 and 16, 1 to 3, or 4 to 7, and the cell's partition; mains has failed exactly if the last report 5 was of type 15. |
| Reports.ReportsArePassedOn | src/concordd/concordd.c:419-472 | Over any history within bounds the reports passed on are all but those of type 18 with number 5 or 6, in order. |
| News.SubcommandTells | src/concordd/concordd.c:560-765 | What subscribers are told of a subcommand frame, with the numbers of the flags, from the history before it. |
| News.EventTells | src/concordd/concordd.c:348-472 | What they are told of a report. |
| News.LightsTell | src/concordd/concordd.c:486-522 | What a listener is told of a frame with all lights: the first light that stops the loop. |
| News.KeyTells | src/concordd/concordd.c:539-557 | What they are told of a key fob. |
| News.DataTellsNews | src/concordd/concordd.c:1001-1057 | What they are told of a zone's data: the fields that differ from what was last said, if the zone was named since the last refresh. |
| News.InputTellsNews | src/concordd/concordd.c:1121-1169 | What is told of any input. |
| News.NotesAreNews | src/concordd/concordd.c:59-80 | Over any history within bounds subscribers are told exactly the news of each frame, in order. |
| Signals.AppendEntry | src/concordd/concordd-dbus-server.c:21-48 | One entry is added exactly if its flag is set, and the rest of the dictionary stays. |
| Signals.BuildZoneSignal | src/concordd/concordd-dbus-server.c:1641-1742 | The zone's dictionary, put together entry by entry, holds exactly the fields that the mask announces, each with the zone's value. |
| Signals.ZoneSignalSays | src/concordd/concordd-dbus-server.c:1641-1742 | The twelve entries one by one: flag number, value, and that there are no others. |
| Signals.AppendZoneFields | src/concordd/concordd-dbus-server.c:1645-1694 | Its first six entries, each exactly where announced. |
| Signals.AppendZoneFlags | src/concordd/concordd-dbus-server.c:1696-1742 | Its last six. |
| Signals.BuildPartitionSignal | src/concordd/concordd-dbus-server.c:1453-1572 | The partition's dictionary likewise, thirteen fields. |
| Signals.PartitionSignalSays | src/concordd/concordd-dbus-server.c:1453-1572 | The thirteen entries one by one: flag number, value, and that there are no others. |
| Signals.DifferingByNumber | src/concordd/concordd.c:714-731 | Bit n of a mask of changed flags is set exactly if bit n - 8 of the bytes differs. |
| Signals.AppendPartitionFields | src/concordd/concordd-dbus-server.c:1457-1519 | Its first seven entries, each exactly where announced. |
| Signals.AppendFeatures | src/concordd/concordd-dbus-server.c:1521-1572 | The six feature bits. |
| Signals.WriteCadence | src/concordd/concordd-dbus-server.c:1486-1492 | The loop writes the 32 bits of the cadence, the most significant first. |
| Replica.SignalFollowed | src/concordd/concordd-dbus-server.c:1416-1752 | What a subscriber keeps of a signal is the announced part of a true copy. |
| Replica.NeverAnnounced | src/concordd/concordd.c:59-80 | No notification flags a zone's name or trip time, nor a partition's programming mode. |
| Replica.CoveredChangeIsCopied | src/concordd/concordd-dbus-server.c:1605-1752 | If the mask covers a change, overwriting the announced fields turns a true copy of the old into one of the new. |
| Replica.BytesDiffer | src/concordd/concordd.c:714-731 | Different state bytes have a bit that the mask announces. |
| Replica.PartitionFollows | src/concordd/concordd.c:657-731 | Whatever comes in, a true copy of a partition is true afterwards. |
| Replica.PartitionCopiesStayTrue | src/concordd/concordd.c:560-840 | Over any history within bounds, refreshes included, copies of arm level and user, touchpad text and six feature bits stay true. |
| Replica.ZoneFollowsExactly | src/concordd/concordd.c:767-810 | A true copy of a zone is true afterwards if and only if the input is not a change to a zone not yet active. |
| Replica.ZoneCopiesStayTrue | src/concordd/concordd.c:1000-1057 | Once a zone is active, copies of its partition, group, type and five flags stay true over any history within bounds and without a refresh. |
| Replica.RefreshMakesCopiesStale | src/concordd/concordd.c:191-223 | With a refresh they do not: a change of flag right after one is kept silent and the copy is false. |
| Subscriber.FollowGoesOn | src/concordd/concordd.c:1121-1169 | Following notifications from some time on, the tables are those of the whole history. |
| Subscriber.PartitionIsTold | src/concordd/concordd-dbus-server.c:1416-1572 | A partition's copy that has once been true has, after any further history within bounds, the last arm level, user, touchpad text and the six bits of the last feature byte. |
| Subscriber.ZoneIsTold | src/concordd/concordd-dbus-server.c:1605-1742 | A copy of a zone named since the last refresh has, until the next one, the partition, group, type and five flags last sent. |
| Keys.CompileIsShort | src/concordd/concordd.c:250-293 | Every character of a key text adds at most one byte to the message. |
| Replies.CommandsFit | src/concordd/concordd.c:1185-1328 | Arm, light and bypass requests never make a message too long for the staging array, whatever the tables hold. |
| Replies.ServeIsServeDesk | src/concordd/concordd-dbus-server.c:262-301 | Serving a call in the recorded world is what the handlers do to queue and desk. |
| Replies.CallbacksInOrder | src/concordd/ge-rs232.c:221-228 | Callbacks are made for the first messages submitted, in order, each once. |
| Replies.StepPays | src/concordd/ge-rs232.c:215-299 | Callbacks made in a step, then calls still queued, are the calls queued before, then the one added. |
| Replies.AccountRefuses | src/concordd/concordd-dbus-server.c:293-298 | A refusal keeps the account of calls, replies and helpers. |
| Replies.AccountEnrols | src/concordd/concordd-dbus-server.c:216-226 | So does queueing a call. |
| Replies.AccountPays | src/concordd/concordd-dbus-server.c:237-260 | So do callbacks for the first queued calls. |
| Replies.WorkBalances | src/concordd/concordd-dbus-server.c:237-260 | Working the queue within the limits keeps the account. |
| Replies.ServeKeeps | src/concordd/concordd-dbus-server.c:262-346 | Serving any of the five calls within the limits keeps the account. |
| Replies.TakeKeeps | src/concordd/concordd-dbus-server.c:211-301 | Every turn of the daemon within the limits keeps the account. |
| Replies.TakeKeepsExactly | src/concordd/ge-rs232.c:282-285 | A turn keeps the account and the queue's consistency if and only if it is within the limits. |
| Replies.DaysAreSane | src/concordd/concordd-dbus-server.c:211-301 | Every run within the limits keeps the account. |
| Replies.ExactlyOneReply | src/concordd/concordd-dbus-server.c:211-301 | In every run each call received has exactly one reply if it was refused or its message left the queue, none while it is queued, and its helper is in use exactly then. |
| Refusals.OneStatus | src/concordd/concordd-dbus-server.c:211-235 | In every run a call is told one status and no other. |
| Refusals.ToldOnce | src/concordd/concordd-dbus-server.c:262-301 | In every run a call not queued is told what it is shown, and a queued one OK, NAK or timeout if anything. |
| Refusals.ArmIsTold | src/concordd/concordd-dbus-server.c:262-301 | In every run an arm request not passed on is told -12 exactly if the siren is on and the level is not 1, 0 exactly if the partition is at that level already, -1 exactly in programming, -10 for an unknown partition or level; one passed on 0, -3 or -4 at most. |
| Refusals.LightIsTold | src/concordd/concordd-dbus-server.c:303-346 | In every run a light request not passed on is told -2 exactly if a refresh is due, -1 exactly in programming, -10 for an unknown partition or light. |
| Refusals.BypassIsTold | src/concordd/concordd-dbus-server.c:1284-1330 | In every run a bypass request not passed on is told -2 exactly if a refresh is due, 0 exactly if the zone is in that state already, -10 for an unknown zone, partition or user, -1 in programming or for a PIN that is zero or not decimal. |
| Refusals.KeysAreTold | src/concordd/concordd-dbus-server.c:392-428 | In every run a key text is told -1 exactly if it does not compile, and else 0, -3 or -4 at most. |
| Refusals.RefreshIsTold | src/concordd/concordd-dbus-server.c:430-452 | In every run a refresh is never refused. |
| Replies.FullQueueKeepsTheCallback | src/concordd/concordd-dbus-server.c:293-298 | A call that meets a full ring is answered with an error and its helper freed while its callback stays in the ring. |
| Session.TurnTellsMirror | src/concordd/concordd.c:1120-1170 | Of all turns only frames and refreshes touch the tables, and they as the history of module History says. |
| Session.MirrorIsHistory | src/concordd/concordd.c:1120-1170 | In every run of frames, calls and ticks the tables are what History makes of its frames and refreshes; the history is within bounds. |
| Session.ReadingGoesOn | src/concordd/main.c:1170-1178 | Several bytes read at once are the session going on with each of them. |
| Session.ReadingSaysMore | src/concordd/main.c:1170-1178 | What is written back and told over one read is added to what was before. |
| Session.NextDelivers | src/concordd/ge-rs232.c:62-126 | What one byte hands to the handlers, and writes back, is what the receiver delivers and answers, answers that are due and NULs set aside; the buffer holds it. |
| Session.NextTells | src/concordd/concordd.c:1120-1170 | What subscribers are told in a session grows as the history's notifications do. |
| Session.ToldIsHistory | src/concordd/concordd.c:1120-1170 | Over a session subscribers are told what the history of its frames and refreshes says. |
| Session.SessionIsDay | src/concordd/main.c:1170-1178 | Every session, byte by byte, is a run of turns, each within its limits. |
| Session.ReceiverReads | src/concordd/ge-rs232.c:62-126 | Over a session the payloads handled and the answers written, in order, are those of the receiver on the bytes read. |
| Session.SessionTheorem | src/concordd/main.c:1170-1178 | After any session the tables are the history's; the payloads of its frames, and the ACK and NAK bytes written, are those of the batch parser on all bytes read that were not answers; subscribers are told the history's notifications, and so every event but output reports. |
| Session.TickWaits | src/concordd/concordd.c:182-189 | In the middle of a frame time passes without effect; between frames it is a tick of the queue. |
| Requests.InputAsks | src/concordd/concordd.c:1132-1139 | A cleared image and a refresh queue the message 02, the end of a list the message 20, and no other frame queues anything. |
| Requests.UncalledIsAsked | src/concordd/concordd.c:191-237 | In every run the messages queued that no client called for are exactly those, in order. |
| Requests.SessionTellsNews | src/concordd/concordd.c:59-80 | In every session subscribers are told exactly the news of the frames received. |
| Delivery.RepliesAreFounded | src/concordd/ge-rs232.c:221-228 | Every reply made by a callback carries the status of a finished job of that call. |
| Delivery.FinishedStays | src/concordd/ge-rs232.c:215-299 | A finished job stays finished, with its status. |
| Delivery.WorkVouches | src/concordd/ge-rs232.c:215-299 | Working the queue keeps: a queued job of a call has that call's message, and a reply to a queued call is that of its job. |
| Delivery.TakeVouches | src/concordd/concordd-dbus-server.c:211-301 | So does every turn of the daemon. |
| Delivery.AnsweredIsDelivered | src/concordd/concordd-dbus-server.c:237-260 | Of a run of the daemon and a run of the two endpoints with one sending side: a call whose message was queued and that is answered OK has exactly its message in the far end's inbox. |
| Network.TurnIsStimulus | src/concordd/concordd-dbus-server.c:262-301 | What a turn does to the queue is one submission, tick or answer, or nothing. |
| Network.RunProjects | src/concordd/ge-rs232.c:62-299 | Every run of daemon and far end on one line is a run of each, with one sending side. |
| Network.OkMeansDelivered | src/concordd/concordd-dbus-server.c:237-260 | In every such run a call whose message was queued and that is answered OK has exactly its message in the far end's inbox, whatever the line loses or garbles. |
| Network.BypassReachesPanel | src/concordd/concordd.c:1210-1256 | In every such run a bypass that the history lets pass and that is answered OK has delivered 40, p, 0, 0B, the PIN's nibbles and the zone's digits at the far end. |
| Refusals.OkCall | src/concordd/concordd-dbus-server.c:237-260 | In every such run a call answered OK has had its message delivered, or was refused with that status. |
| Refusals.ArmOk | src/concordd/concordd.c:1286-1328 | In every such run an arm request answered OK has delivered 40, p, 0 and 20, 28 or 27, or the partition was already at that level. |
| Refusals.LightOk | src/concordd/concordd.c:1185-1208 | In every such run a light request answered OK has delivered 40, p, 0, 10 or 11, and the light. |
| Refusals.BypassOk | src/concordd/concordd.c:1210-1256 | In every such run a bypass request answered OK has delivered the PIN and the zone, or the zone was already in that state. |
| Refusals.KeysOk | src/concordd/concordd.c:239-295 | In every such run keys answered OK have been delivered, as far as 53 codes fit. |
| Refusals.RefreshOk | src/concordd/concordd.c:191-237 | In every such run a refresh answered OK has delivered the request 02. |
| Network.OneCallIsAnswered | src/concordd/concordd-dbus-server.c:430-452 | There is such a run: a client's refresh is acknowledged, answered OK, and all that has arrived. |
| Daemon.PressedFits | src/concordd/concordd.c:239-295 | A key text makes a message that fits the staging array if and only if it has at most 26 codes, or fails on a malformed token. |
| Daemon.LongKeysDoNotFit | src/concordd/ge-rs232.c:151 | Twenty-seven digits do not fit. |
| Daemon.NextByte | src/concordd/ge-rs232.c:62-126 | What a byte does to a session, part by part: receiver, buffer, tables, queue, replies. |
| Daemon.NextRefresh | src/concordd/main.c:1042 | What the refresh at start-up does to a session. |
| Daemon.FirstRefresh | src/concordd/main.c:1042 | A session may always start with it. |
| Daemon.PowerOn | src/concordd/main.c:1027-1042 | Objects newly built, after their first refresh, are where a session with nothing else in it is. |
| Daemon.Daemon.constructor | src/concordd/concordd.c:167-181 | A new daemon has blank tables, an empty queue, an idle receiver and a zeroed buffer, all its own. |
| Daemon.DbusServer.constructor | src/concordd/concordd-dbus-server.c:2104-2150 | A new desk owes nothing, and leaves the daemon as it is. |
| Daemon.NextCall | src/concordd/concordd-dbus-server.c:262-301 | What a call does to a session is what the handlers do. |
| Daemon.Daemon.PressKeys | src/concordd/concordd.c:239-295 | Text that compiles is queued; otherwise an error and nothing queued. |
| Daemon.Daemon.SetArmLevel | src/concordd/concordd.c:1286-1328 | The verdict on an arm request is carried out on the queue: a status, or the exact message; tables and receiver stay. |
| Daemon.Daemon.SetLight | src/concordd/concordd.c:1185-1208 | The same for lights. |
| Daemon.Daemon.SetZoneBypass | src/concordd/concordd.c:1210-1256 | The same for bypasses. |
| Daemon.Daemon.Refresh | src/concordd/concordd.c:191-237 | The tables are cleared and one equipment request is queued with the caller's callback. |
| Daemon.Daemon.HandleFrame | src/concordd/concordd.c:1120-1170 | A frame changes the tables as specified and queues at most one message, without a callback. |
| Daemon.Daemon.ReceiveByte | src/concordd/ge-rs232.c:62-126 | Of the bytes from the line exactly an accepted frame's last one is acknowledged and reaches the frame handlers, which see the buffer as it then is; a due ACK or NAK settles the queue's head; all else leaves tables and queue alone. |
| Daemon.Daemon.Process | src/concordd/concordd.c:182-189 | The queue is updated unless a frame is being read. |
| Daemon.DbusServer.HearByte | src/concordd/main.c:1170-1178 | Reading one byte takes receiver, buffer, tables, queue and replies where the session goes, and writes back and tells what the session does; NUL is dropped. |
| Daemon.DbusServer.ReadBytes | src/concordd/main.c:1170-1178 | The loop over the bytes of one read takes the objects where the session goes, byte by byte, with all it writes back and tells. |
| Daemon.DbusServer.Process | src/concordd/concordd.c:182-189 | A tick likewise; while a frame is being read it does nothing. |
| Daemon.DbusServer.HandleCall | src/concordd/concordd-dbus-server.c:1932-2048 | Any of the five calls takes receiver, buffer, tables, queue and replies where the session goes. |
| Daemon.DbusServer.StartUp | src/concordd/main.c:1042 | So does the refresh at start-up. |
| Daemon.DbusServer.HelperNew | src/concordd/concordd-dbus-server.c:216-226 | A new helper is in use for the call. |
| Daemon.DbusServer.CallbackHelper | src/concordd/concordd-dbus-server.c:237-260 | One reply is sent and the helper freed. |
| Daemon.DbusServer.RunCallbacks | src/concordd/ge-rs232.c:221-228 | The queue's callbacks reply to the calls they carry, in order. |
| Daemon.DbusServer.Conclude | src/concordd/concordd-dbus-server.c:293-300 | A call that failed at once is replied to at once, "already" shown as success except for key presses. |
| Daemon.DbusServer.HandleSetArmLevel | src/concordd/concordd-dbus-server.c:262-301 | The handler does to queue and helpers what the reply machine says, full ring or not; receiver, buffer and tables stay. |
| Daemon.DbusServer.HandleLightSetValue | src/concordd/concordd-dbus-server.c:303-346 | The same. |
| Daemon.DbusServer.HandleZoneSetBypassed | src/concordd/concordd-dbus-server.c:1284-1330 | The same. |
| Daemon.DbusServer.HandlePressKeys | src/concordd/concordd-dbus-server.c:392-428 | The same. |
| Daemon.DbusServer.HandleRefresh | src/concordd/concordd-dbus-server.c:430-452 | The same, with the tables cleared. |
| Daemon.ConcludeIsServe | src/concordd/concordd-dbus-server.c:262-301 | Opening a helper, carrying the verdict out and concluding is serving the call. |
| ConfigArgs.GetNextArg | src/common/config-file.c:49-99 | In place: the token found is the tokenizer's and ends in NUL inside what was read, the text from the rest on is untouched, and so is all before the token. |
| ConfigArgs.SkipSpaces | src/common/config-file.c:56 | The scan stops at the first character that is not white space, or at the end. |
| ConfigArgs.CopyChar | src/common/config-file.c:88-90 | A character, or the one a backslash escapes, is copied back, and nothing else changes. |
| ConfigArgs.CopyToken | src/common/config-file.c:64-93 | The write cursor never passes the read cursor, so compacting in place loses nothing of the text still to be read. |
| ConfigArgs.ScanAtIsScan | src/common/config-file.c:69-91 | Reading by index in a buffer is reading the text left. |
| ConfigArgs.ParseLine | src/common/config-file.c:121-123 | Two calls on one line give the first two tokens; the key still stands when the value has been read. |
| ConfigArgs.SplitLine | src/concordctl/concordctl.c:233-238 | Calls repeated to the end give every non-empty token of the line, each intact at the end, and they end. |
| ConfigArgs.ScanEscapedChar | src/common/config-file.c:69-91 | A character that needs a backslash where it stands, and has one, is read as itself. |
| ConfigArgs.ScanEscaped | src/common/config-file.c:69-91 | In double quotes, single quotes or none, an escaped text is read as the text. |
| ConfigArgs.WordReadsBack | src/common/config-file.c:49-99 | Any text without NUL, in quotes of either kind or escaped without them, white space before it, reads back as itself, and the next call starts behind it. |
| ConfigArgs.LineReadsBack | src/common/config-file.c:49-99 | Any list of such texts, each written in its own way, and perhaps a comment behind them, reads back as that list. |
| TokenText.TextToAsciiOneLine | src/concordd/ge-rs232.c:526-586 | The loop, with its blinking state and its buffer, gives the line in which each maximal blinking run is wrapped once. |
| TokenText.TrimEnd | src/concordd/ge-rs232.c:582-584 | White space at the end is removed, and no more. |
| TokenText.FlowRun | src/concordd/ge-rs232.c:532-572 | Within a run tokens are appended one after another and no bracket is written. |
| TokenText.FlowIsRuns | src/concordd/ge-rs232.c:532-581 | Token by token with a blinking state, or run by run, the text is the same. |
| TokenText.BracketsOfRuns | src/concordd/ge-rs232.c:532-581 | The brackets of the text before trimming are one pair for each maximal blinking run. |
| TokenText.BracketsAlternate | src/concordd/ge-rs232.c:526-586 | The brackets of the line are one pair for each maximal blinking run: they alternate and never nest. |
| TokenText.LineSpellsTokens | src/concordd/ge-rs232.c:526-586 | Brackets and white space aside, the line is the texts of all tokens in order, '?' for one without text, and a bar for a line break that is not the last token. |
| TokenText.PlainLine | src/concordd/ge-rs232.c:526-586 | Where nothing blinks and no line breaks, it is the texts and nothing else, trimmed. |
| TokenText.BreakLine | src/concordd/ge-rs232.c:548-565 | A line break between two texts becomes a bar with one space on either side. |
| TokenText.BlinkLine | src/concordd/ge-rs232.c:532-572 | A blinking text before a steady one stands in angle brackets, one space at its end moved behind them. |

## Left out

- `src/concordctl`, apart from the loop that splits a line: option parsing, D-Bus client calls and terminal drawing are not part of this model.
- `src/concordd/main.c`, apart from the loop over the bytes read: select, hooks, privileges and signals.
- `socket-utils.c`, `time-utils.c`, `crash-trace.c`: calls to the operating system.
- What is written to the log, and the rendering of names and texts for it.
- D-Bus messages and paths, the reading of arguments, the failure of `malloc` for a helper, and the handlers that only read.
- The sixth command, `concordd_set_output` and its handler: outputs above 9 are given to a two-digit field that the code does not bound.
- Tables from codes to names, zone groups; temperature and schedule frames, which change nothing.
- `ge_rs232_resend_last_message` (not used, it would go past the queue) and `ge_text_to_ascii` (the multi-line rendering).
- Subscribers other than the one for lights are taken to be installed.
- Bit shifts and masks are written with division and remainder, and sets of bit numbers.
- The siren entries of a subscriber's copy: a setup with a repeat count is not announced before the siren goes, so they are not followed; `News.NotesAreNews` says what is told and when.
- The names of users and the rendering of texts in signals: the entries carry the number and the tokens.
- Instance.Instance.HandleSubcmd: does not model a touchpad text without room, because it is copied over the next partition.
- Instance.Instance.HandleTouchpadDisplay: the same.
- Instance.Instance.HandleZoneData: does not model a zone name without room, because it is copied over the next zone.
- Instance.UpdatedZone: does not model a frame of less than eight bytes, because the copy has a negative size.
- Instance.Instance.HandleOutputData: does not model an output name without room, because it is copied over the next output.
- Instance.Instance.HandleDeviceData: does not model a thirty-third device, because it is written behind the table.
- Instance.Instance.HandleCapabilityData: does not model capabilities of 32 and more, because the shift is then undefined.
- Instance.Instance.StoreLights: does not model the stores one by one inside the loop, because a partition's lights are part of its row; no subscriber is called before the last of them.
- Instance.Instance.HandleFrame: does not model the frames just named, and does not call subscribers in the middle of a handler but returns the calls in order, because a D-Bus subscriber reads the tables only and each call is made when the fields it flags have their final values.
- Daemon.DbusServer.RunCallbacks: replies after the queue has finished its update and not from inside it, because the helper touches neither queue nor tables.
- ConfigArgs.SplitLine: does not model the 100 cells of the argument vector, because the source does not look at its size.
- TokenText.TextToAsciiOneLine: does not model backspace tokens, a marker at the very end, a line break as very first token of several, or 256 and more characters, because the code then looks before its buffer, or wraps its length byte.
- TokenText.BracketsAlternate: texts of the table without angle brackets, as the program's are; with them the brackets counted would not all be markers.
- Link.SerialLink.SendMessage: does not model messages of 30 to 56 bytes, because the frame does not fit the staging array.
- Link.Stage: does not model data of 30 to 56 bytes, for the same reason.
- Outbox.MessageQueue.TransmitHead: does not model messages of 30 to 56 bytes, for the same reason.
- Outbox.MessageQueue.Update: does not model rings that hold such a message, for the same reason.
- Outbox.MessageQueue.QueueMessage: does not model such messages, for the same reason.
- Daemon.Daemon.PressKeys: does not model key texts that make such a message, for the same reason; `Daemon.PressedFits` says which they are.
- Daemon.DbusServer.HandlePressKeys: does not model such key texts, for the same reason.
- Daemon.Daemon.HandleFrame: does not model frames that are out of bounds, for the same reason.
- Daemon.Daemon.ReceiveByte: does not model a frame that is out of bounds, because the handler then writes past a table.
- Runs.RunsAreConsistent: says nothing of runs beyond the limits after the step that breaks them; that step itself is described by `Runs.FullRingLosesSight` and `Runs.StaleSlotIsSent`.
