# Verified model of the anima agent's protocols and state machines

A Dafny model of the parts of the repository whose guarantees range over every input, every split of a
stream and every run, with proofs of those guarantees. `dafny verify dfyconfig.toml` checks the project.

| file | what it models |
|---|---|
| `Priorities.dfy`, `Events.dfy`, `OperatorEvents.dfy`, `InputScanner.dfy`, `LineFraming.dfy` | the operator wire protocol: the hand-written JSON printer, the hand-written field scanner, the incremental line splitter |
| `Json.dfy`, `Utf8.dfy`, `Text.dfy` | the independent side of that protocol: an RFC 8259 printer and reader, UTF-8, decimal numerals, splitting and joining |
| `Correlation.dfy`, `AuditTailer.dfy`, `Translation.dfy` | which operator message an audit entry concerns, the file follower that drives it, and what each entry's JSON does and shows |
| `Framing.dfy` | length-prefixed frames: the timeout-tolerant reader, the blocking reader, the receive loop |
| `AgentLoop.dfy`, `AgentPlans.dfy`, `AgentNotes.dfy`, `PlanReading.dfy` | the plan/act/observe/revise loop against an arbitrary peer, an independent account of what it must say next, and what the peer's JSON means to it |
| `Addresses.dfy`, `Egress.dfy` | numeric host spellings, private address ranges, URL authority parsing and the egress policy |
| `Alerts.dfy` | many alert rules interleaved in one tracker list, and the rule registry |
| `IdentityMemory.dfy`, `IdentityRuns.dfy` | values on dotted paths through dictionaries that may be shared, and whole runs from a loaded file |
| `Gateway.dfy` | polling, ingestion and routing of channel messages |
| `Soak.dfy` | checkpoint and resume of the live soak across crashes |
| `Statistics.dfy`, `Analytics.dfy` | percentiles, the token report and the latency report |
| `Retry.dfy` | bounded retry with backoff |

Code that changes state is modelled by classes and methods with loops, each proved equal to a function
of the old state; the theorems are about those functions. Code made of expressions is modelled by
functions. Input from outside (reads, clocks, boots, peers, policies) is a parameter over which every
theorem quantifies.

Where the code does not do what its documentation suggests, the model follows the code:

- The scanner finds a key by its first occurrence as quoted text, so a value that equals a later key,
  or ends in a quote followed by it, hides that field (`UrgencyLost`). `InputRoundTrip` gives the
  exact condition; the text itself always arrives.
- `to_ndjson` prints a non-finite number as a bare word, which no JSON reader accepts.
  `NdjsonRoundTrip` holds of an event if and only if its numbers are finite.
- The correlation map drops its lowest task id whenever a link finds it full, even a link that renews
  a task already there (`RenewalForgets`), so 256 unsettled links are safe only with increasing ids;
  `NeverForgetsIff` is the exact condition without that.
- Removing a firing alert rule drops its tracker without a Resolved event, so the alternation of a
  rule's events can break (`RemovalRepeatsFired`); `AlternatesIff` says exactly when.
- The identity store shares dictionaries by reference. Its laws hold for trees and can fail
  outside them (`SelfReferenceLosesWrite`, `SharingInterferes`); `SetThenGet`, `ReadsInAnyHeap` and
  `PlainWriteSeenIff` say exactly what happens in any heap.
- The incremental frame reader reports a clean close whatever is left in its buffer, where the blocking
  one raises on a truncated frame (`CutFrameLooksClosed`), and their caps are 16 MiB and 64 MiB
  (`CapsDiffer`); `ReadersAgreeIff` says on exactly which streams they agree. The receive loop therefore
  reports output that is cut off inside a frame as completed (`CutOutputCompletes`);
  `CompletedUnclosedIff` says that this is the only such case.
- One complete line of the audit file that is not UTF-8 stops the tailer there for as long as the file
  only grows (`BadLineStops`); `OffsetIsBoundary` says that nothing else keeps it from the last newline.
- The retry module speaks of 5xx responses; of those only 500, 502, 503 and 504 are retried (`RetriedIff`).

## Model

| member | source | states |
|---|---|---|
| `Priorities.PriorityRoundTrip` | crates/console-proto/src/lib.rs:78-96 | reading any upper- or lower-case spelling of a priority's wire name, with any whitespace around it, gives that priority back |
| `Priorities.ParsedPriorityIff` | crates/console-proto/src/lib.rs:78-96 | a text is read as a priority if and only if it is its name in any case and margins; what names none is `Normal` |
| `Utf8.DecodesIff` | crates/console-proto/src/lib.rs:673-693 | bytes are read as a text if and only if they are exactly its UTF-8 encoding |
| `OperatorEvents.ToNdjson` | crates/console-proto/src/lib.rs:335-520 | for every event of the nine variants, the text built piece by piece is the printed JSON object of its type tag and members, in order |
| `OperatorEvents.MembersValid` | crates/console-proto/src/lib.rs:335-520 | when its numbers are finite, every member of the object is a well-formed JSON value |
| `OperatorEvents.NonFiniteUnreadable` | crates/console-proto/src/lib.rs:335-520 | an event with a non-finite number is printed as something the JSON reader rejects |
| `OperatorEvents.NdjsonRoundTrip` | crates/console-proto/src/lib.rs:335-520 | an independent tagged JSON reader gives back exactly the event from its line, with or without the serial prefix and with any whitespace around it, if its numbers are finite, and nothing otherwise |
| `Json.WriteJsonStr` | crates/console-proto/src/lib.rs:524-540 | appends exactly the quoted, escaped string and nothing else |
| `Json.EscapeHasNoControls` | crates/console-proto/src/lib.rs:524-540 | no escaped string contains a control character, so no newline |
| `Json.ParsePrintDocument` | crates/console-proto/src/lib.rs:173-178 | the RFC 8259 reader inverts the printer on every well-formed value: any strings, nesting, numbers as tokens |
| `Json.ObjectWithNonFinite` | crates/console-proto/src/lib.rs:335-520 | an object whose first bad member is a non-finite number is not JSON, whatever follows it |
| `InputScanner.AfterFirstIsLeftmost` | crates/console-proto/src/lib.rs:578-590 | the substring search continues after the leftmost occurrence of the quoted key |
| `InputScanner.ExtractJsonString` | crates/console-proto/src/lib.rs:578-620 | the character walk returns the unescaped value after the first quoted key, and nothing when the key is missing, is not followed by a string, or the string is broken |
| `InputScanner.ParseInputLine` | crates/console-proto/src/lib.rs:552-571 | the five fields are extracted independently; text is required, an unreadable or missing priority is the default |
| `InputScanner.UnescapeSpelled` | crates/console-proto/src/lib.rs:596-620 | for every mixture of raw characters, escapes of any letter, four-digit escapes (a lone surrogate stands for U+FFFD) and ones with a plus sign, the walk recovers the value spelled and stops at the closing quote |
| `InputScanner.DecodesIff` | crates/console-proto/src/lib.rs:596-620 | a text decodes to a value if and only if it opens with a spelling of that value and a closing quote |
| `InputScanner.ExtractFromFields` | crates/console-proto/src/lib.rs:578-620 | on every flat object of strings, numbers, booleans and nulls, with any whitespace before every key and around every colon and comma, extraction of a key gives the string of the first field so named before any value that hides it, and nothing otherwise: never another string |
| `InputScanner.HidesByValue` | crates/console-proto/src/lib.rs:584-590 | a value whose spelling hides a key equals that key or ends in a quote followed by it |
| `InputScanner.ParsedPrintedInput` | crates/console-proto/src/lib.rs:552-620 | whatever escapes and whitespace the printer chooses, and whether absent fields are null or left out, a printed input is parsed to itself but for the fields hidden by earlier values; the text is always exact |
| `InputScanner.InputRoundTrip` | crates/console-proto/src/lib.rs:552-620 | printed with the protocol's own escapes and any whitespace, an input comes back unchanged if and only if no field is hidden by an earlier value |
| `InputScanner.UrgencyLost` | crates/console-proto/src/lib.rs:578-590 | a critical message whose text is the word `priority` arrives with normal priority |
| `LineFraming.LineBuffer.DrainLines` | crates/console-proto/src/lib.rs:673-693 | returns the non-empty valid lines of the buffer and leaves what follows the last newline |
| `LineFraming.LinesAppend` | crates/console-proto/src/lib.rs:673-693 | draining part of a stream and then the rest gives the lines and remainder of draining it at once |
| `LineFraming.ChunkingIsInvisible` | crates/console-proto/src/lib.rs:673-693 | for every split of a stream into chunks, lines and remainder are those of the whole stream, and the remainder holds no newline |
| `LineFraming.ReadAll` | crates/console-proto/src/lib.rs:673-693 | the loop that appends a chunk and drains yields the lines of the concatenation |
| `LineFraming.StreamLines` | crates/console-proto/src/lib.rs:524-540 | every stream of newline-terminated printed events, numbers finite or not, drains to exactly those lines, with nothing left |
| `LineFraming.RunsDrain` | crates/console-proto/src/lib.rs:673-693 | a stream of terminated runs drains to exactly its texts, whatever carriage returns end them; empty lines and runs that are not UTF-8 yield nothing |
| `LineFraming.EventsArrive` | crates/console-proto/src/lib.rs:335-693 | end to end: for every list of events and every split of their bytes, each event with finite numbers is read at its place, and one without is unreadable there and disturbs no other |
| `Correlation.CorrelationTracker.Link` | crates/console/src/audit.rs:276-287 | remembers the link; a full map first drops its lowest task id |
| `Correlation.CorrelationTracker.Show` | crates/console/src/audit.rs:289-339 | stamps start, reply, failure and gate events with the message of their task, and forgets the task on reply, failure or blocked gate |
| `Correlation.CorrelationTracker.Translate` | crates/console/src/audit.rs:272-339 | the links and the event after a value are those that `Translated` gives for the links before it |
| `Correlation.GateNamesTask` | crates/console/src/audit.rs:316-325 | a gate decision for `sensory-` and a decimal number names exactly that task |
| `Correlation.LinkStands` | crates/console/src/audit.rs:272-339 | in the history, a link holds until the next link or settling entry of its task |
| `Correlation.SettledStays` | crates/console/src/audit.rs:289-339 | after a settling entry a task has no message until it is linked again |
| `Correlation.TrackedIsCurrent` | crates/console/src/audit.rs:272-339 | after every history, whatever the map holds for a task is the task's most recent unsettled link |
| `Correlation.StampIsSound` | crates/console/src/audit.rs:272-339 | over every history, a message id put on an event is that of the task's most recent link with nothing settling it since |
| `Correlation.TrackedIsBounded` | crates/console/src/audit.rs:231-287 | the map never exceeds 256 entries in any run |
| `Correlation.NeverForgetsIff` | crates/console/src/audit.rs:276-287 | no unsettled link is ever forgotten if and only if every link finds fewer than 256 unsettled ones, or renews the lowest of them |
| `Correlation.RenewalForgets` | crates/console/src/audit.rs:276-287 | with 256 tasks linked, renewing one that is not the lowest drops the lowest, though it is unsettled |
| `Correlation.FreshNeverForgetsIff` | crates/console/src/audit.rs:231-287 | with fresh increasing task ids, nothing is forgotten if and only if at most 256 linked tasks are unsettled at every point |
| `Correlation.StampIsExact` | crates/console/src/audit.rs:272-339 | when nothing is forgotten, every start, gate and settling event carries exactly the current message of its task, and none after settlement |
| `Correlation.CurrentIsLinked` | crates/console/src/audit.rs:272-339 | a message is current for a task only if an entry linked it and no later entry links or settles the task |
| `Translation.EntryIff` | crates/console/src/audit.rs:272-274 | the entry of a value is the one under its first key, without fields unless they are an object |
| `Translation.LinkTranslated` | crates/console/src/audit.rs:276-287 | a link entry puts its message under its task, in place of the lowest task when 256 are held, and shows nothing |
| `Translation.BadLinkTranslated` | crates/console/src/audit.rs:277-278 | a link entry without a task number or a message string does nothing |
| `Translation.StartTranslated` | crates/console/src/audit.rs:63-307 | a start entry shows its task, prompt and the task's message, and keeps the links |
| `Translation.CompletionTranslated` | crates/console/src/audit.rs:68-315 | a completion shows task, text, the token count modulo 2^32 and the task's message, and releases the link; missing fields read as 0 and the empty string |
| `Translation.FailureTranslated` | crates/console/src/audit.rs:77-339 | a failure that names its task shows it with the task's message and releases the link |
| `Translation.NamelessFailureTranslated` | crates/console/src/audit.rs:77-339 | a failure without a task number shows task 0, carries no message and keeps the links |
| `Translation.GateTranslated` | crates/console/src/audit.rs:82-332 | a gate decision shows its fields with the message of the task its event id names, and releases that link exactly when it is blocked |
| `Translation.VitalsTranslated` | crates/console/src/audit.rs:91-99 | a snapshot shows its seven numbers, a missing one as zero, and keeps the links |
| `Translation.OtherTranslated` | crates/console/src/audit.rs:199-207 | any other entry is a notice that keeps the links, and what is no entry does nothing |
| `Translation.SettlingIff` | crates/console/src/audit.rs:289-339 | the entries that settle a task are its completion, its failure and its blocked gate decision, and no others |
| `AuditTailer.Tailer.TranslateLine` | crates/console/src/audit.rs:266-269 | a line that is not JSON is skipped without touching the links |
| `AuditTailer.Tailer.ConsumeLine` | crates/console/src/audit.rs:435-466 | consuming a line moves the offset by its length, updates the links and publishes its event unless it is throttled vitals |
| `AuditTailer.Tailer.Emit` | crates/console/src/audit.rs:450-464 | vitals within the interval are dropped and do not restart it |
| `AuditTailer.Tailer.DrainFrom` | crates/console/src/audit.rs:422-470 | processes exactly the complete lines after the offset, in order, leaving a partial last line for later |
| `AuditTailer.Tailer.Look` | crates/console/src/audit.rs:391-417 | one poll: nothing when the file has not grown, a fresh start when it is shorter than the offset, a drain otherwise |
| `AuditTailer.Resume` | crates/console/src/audit.rs:422-470 | cutting a file into lines, stopping anywhere and resuming at the last boundary gives the same lines as one cut |
| `AuditTailer.TailerIsOnePass` | crates/console/src/audit.rs:391-470 | for every growing file seen at arbitrary lengths, mid-line included, the state after all polls is that of one pass over the last file seen, up to a point no earlier than its reported length |
| `AuditTailer.OffsetIsBoundary` | crates/console/src/audit.rs:422-470 | the offset ends a line, the lines consumed are exactly the bytes before it, and no newline follows it if and only if every newline-terminated line of the file is UTF-8 |
| `AuditTailer.BadLineStops` | crates/console/src/audit.rs:391-470 | however a file goes on after a complete line that is not UTF-8, and however it is polled, the state stays that of the pass over what comes before that line |
| `AuditTailer.ShorterFileStartsOver` | crates/console/src/audit.rs:391-417 | a file found shorter than the offset is read as a new one from its start, with fresh links, and its events follow those already published |
| `AuditTailer.PassIsOrdered` | crates/console/src/audit.rs:422-470 | published events carry strictly increasing end offsets |
| `AuditTailer.TimingOnlyAffectsVitals` | crates/console/src/audit.rs:422-470 | under any two clocks, everything but the vitals is published alike |
| `AuditTailer.LinksAreTracked` | crates/console/src/audit.rs:391-470 | the links of the tailer are those of the history its lines spell |
| `AuditTailer.PublishedComesFromHistory` | crates/console/src/audit.rs:391-470 | every published event is the translation of one consumed line, under the links of the history before that line |
| `AuditTailer.PublishedExactly` | crates/console/src/audit.rs:422-470 | apart from vitals, what is published is exactly the list of end offset and event of the lines that show one |
| `AuditTailer.VitalsAreThrottled` | crates/console/src/audit.rs:450-464 | whatever the clock, any two published vitals are at least the interval apart |
| `AuditTailer.FollowedFileIsStamped` | crates/console/src/audit.rs:272-470 | for every growing file followed at any points by the real translator, a message id on a published event is the current one of its task in the history before its line, and exactly that when no link had to be dropped |
| `AuditTailer.FollowedFileIsPublished` | crates/console/src/audit.rs:391-470 | for every such file, exactly the non-vitals events of its complete lines are published, and vitals at least the interval apart |
| `Translation.PrintedLineHolds` | crates/console/src/audit.rs:266-269 | a printed object followed by whitespace is the value on its line |
| `Translation.FollowedFileIsTranslated` | crates/console/src/audit.rs:272-470 | every event published from a followed file is what the value on its line shows under links that are the last words of the lines before it: the latest link of each task that no line since links again or settles |
| `Translation.SettledIsSilent` | crates/console/src/audit.rs:289-339 | after a line that settles a task no link of it is held until a line links it again |
| `Framing.FrameReader.TakeFrame` | llm-backends/src/hf_transformers.rs:86-105 | takes a complete front frame out of the buffer; an incomplete or oversized one leaves it as it was |
| `Framing.FrameReader.ReadFrame` | llm-backends/src/hf_transformers.rs:107-127 | refines reading one frame from the buffer and the script of reads, retrying interruptions |
| `Framing.FrontIsStable` | llm-backends/src/hf_transformers.rs:86-105 | once the front of the stream is decided, more bytes do not change it |
| `Framing.NothingIsLost` | llm-backends/src/hf_transformers.rs:86-127 | after every read, buffer and unread bytes together are the undecoded suffix of the stream; a timeout consumes nothing |
| `Framing.ReadAllIsDecode` | llm-backends/src/hf_transformers.rs:76-127 | for every split of the stream, with timeouts and interruptions anywhere, the values and the ending are those of decoding the whole stream |
| `Framing.DecodeWire` | llm-backends/src/hf_transformers.rs:129-136 | decoding concatenated frames gives exactly their values in order |
| `Framing.DecodeStops` | llm-backends/src/hf_transformers.rs:86-105 | a body that does not parse, or a frame over the cap, ends decoding with a failure; the values before it are kept and nothing after it is read |
| `Framing.FramesArrive` | llm-backends/src/hf_transformers.rs:76-136 | every list of JSON values within the size cap, framed and split in any way, is read back exactly |
| `Framing.WriteFrame` | llm-backends/src/hf_transformers.rs:129-136 | appends the four length bytes, high byte first, and the printed body |
| `Framing.BlockingSocket.RecvExactly` | cortex/ipc.py:57-78 | returns exactly the next n bytes however the socket splits them, and tells a clean end at a boundary from a truncated frame |
| `Framing.BlockingSocket.RecvMessage` | cortex/ipc.py:83-100 | reads one message and leaves the stream after it |
| `Framing.ReadersAgreeIff` | cortex/ipc.py:57-100 | for every stream, the blocking reader and the incremental one yield the same values, and see a clean close alike, if and only if no decoded boundary is followed by a frame cut off within 16 MiB or by a complete one between the caps that parses |
| `Framing.CutFrameLooksClosed` | cortex/ipc.py:57-78 | every frame within 16 MiB, cut off anywhere, is a clean close to the incremental reader and a truncated frame to the blocking one |
| `Framing.CapsDiffer` | cortex/ipc.py:93-98 | every frame between 16 MiB and 64 MiB that parses fails the incremental reader and is a message, followed by a clean close, to the blocking one |
| `Framing.ClosedOrCutShort` | llm-backends/src/hf_transformers.rs:107-127 | the incremental reader takes a stream to be cleanly closed, where the blocking reader does not, if and only if it is cut off inside a frame within 16 MiB |
| `Framing.ReceiveCompletions` | llm-backends/src/hf_transformers.rs:329-380 | cancelled if and only if cancellation is seen on one of the turns the loop needs; otherwise the result is a fold over the decoded conversation, whatever the timing of reads |
| `Framing.TokensArrive` | llm-backends/src/hf_transformers.rs:329-380 | a worker that frames any tokens and then done is understood exactly under every split, with whatever follows ignored |
| `Framing.WorkerIsUnderstood` | llm-backends/src/hf_transformers.rs:329-380 | whatever members the frames carry and however their bytes are split: the token texts up to the first done are completed, an error ends in its message or the default one, and frames without a type, of another type or without a text change nothing |
| `Framing.CutOutputCompletes` | llm-backends/src/hf_transformers.rs:329-380 | after any tokens, output cut off inside any frame gives the same completed result as a proper end, while the blocking reader raises |
| `Framing.CompletedUnclosedIff` | llm-backends/src/hf_transformers.rs:329-380 | output without done or error is reported as completed though the blocking reader sees no orderly close, if and only if it is cut off inside a frame |
| `AgentLoop.CountsMatch` | cortex/agent_loop.py:124-164 | in every trace the protocol accepts there are at most 10 tool calls, at most one more LLM request than tool calls, and a terminal message only at the end, exactly one when finished |
| `AgentLoop.CallsAreAvailable` | cortex/agent_loop.py:377-404 | every tool call in such a trace names an available tool |
| `AgentLoop.AnsweredBeforeNext` | cortex/agent_loop.py:377-453 | between two consecutive requests there is a message that answers the first |
| `AgentLoop.AnsweredSince` | cortex/agent_loop.py:408-453 | when the loop is not waiting, its last request has been answered |
| `AgentLoop.WaitingSince` | cortex/agent_loop.py:408-453 | when it is waiting, it is for the answer to its last request, and everything since was received |
| `AgentLoop.ParsedPlanAvailable` | cortex/agent_loop.py:255-322 | every plan accepted from any reply is non-empty and uses available tools only |
| `AgentLoop.NormalisedArgsAreJson` | cortex/agent_loop.py:355-375 | arguments that survive normalisation are always a JSON text |
| `AgentLoop.MockStepsAvailable` | cortex/agent_loop.py:179-214 | the mock plan has at most two steps, all of available tools, and some step when there are named tools |
| `AgentLoop.Loop.Send` | cortex/ipc.py:103-107 | adds the message to the conversation |
| `AgentLoop.Loop.Receive` | cortex/agent_loop.py:431-447 | takes the next message of the peer, or meets the deadline when there is none |
| `AgentLoop.Loop.RecvUntil` | cortex/agent_loop.py:408-453 | consumes the peer's messages up to the first that answers or stops the wait, adds exactly those to the conversation, and returns that answer or an error |
| `AgentLoop.Loop.ParseLlmPlan` | cortex/agent_loop.py:255-322 | returns the plan of the reply or its error, and adds one observation for each unknown tool before the first malformed entry |
| `AgentLoop.Loop.LlmPlan` | cortex/agent_loop.py:218-253 | one request; the plan is that of the reply awaited, and fails exactly when the wait or that reply does |
| `AgentLoop.Loop.MockPlan` | cortex/agent_loop.py:179-214 | the rule-based plan, or an error when a tool has no name |
| `AgentLoop.Loop.Act` | cortex/agent_loop.py:377-404 | exactly one tool call, counted; its reply is observed, or the wait failed |
| `AgentLoop.Loop.Amend` | cortex/agent_loop.py:518-529 | a reply without a plan changes nothing, an unusable one is noted, and a usable one replaces the plan, cut to the remaining budget |
| `AgentLoop.Loop.ReviseLeftover` | cortex/agent_loop.py:461-529 | without leftover plan or budget nothing is sent; otherwise one request whose reply amends the plan |
| `AgentLoop.Loop.Drive` | cortex/agent_loop.py:124-157 | the loop terminates though every turn may lengthen the plan, in the state the peer's messages determine |
| `AgentLoop.Loop.Run` | cortex/agent_loop.py:124-164 | the whole run is the episode that the peer's messages determine; it ends within the protocol, and completes if and only if the plan was not rejected and nothing stopped it |
| `AgentLoop.EpisodeIsAllowed` | cortex/agent_loop.py:124-164 | for every peer, the conversation is one the protocol allows and ends with exactly one InvokeComplete carrying the number of calls, or one CortexError |
| `AgentLoop.EpisodeHearsThePeer` | cortex/agent_loop.py:408-453 | for every peer, what was received, followed by what is left unread, is what the peer sent, in order; only a failed run that read everything adds silence |
| `AgentLoop.CompletesIff` | cortex/agent_loop.py:124-164 | a run completes if and only if its plan was accepted, which takes named tools and a usable reply, and no receive failed or brought a stopping message; a bad revision never fails it |
| `AgentLoop.CallsWereOffered` | cortex/agent_loop.py:124-164 | every tool call is one of the mock plan, or of a plan accepted from one of the peer's messages |
| `AgentLoop.MockCallsItsPlan` | cortex/agent_loop.py:179-214 | a completed mock run makes exactly the calls of the mock plan, in order |
| `AgentLoop.TurnsUseUp` | cortex/agent_loop.py:142-146 | a loop that ends well has used up its plan or its budget |
| `AgentPlans.EpisodeIsDictated` | cortex/agent_loop.py:124-529 | every event of every episode is the one that an account of the conversation so far calls for: the plan request, the due call with its id, the revision request after each call while calls are due, the closing frame, or a receipt while something is awaited |
| `AgentPlans.EpisodeIsDetermined` | cortex/agent_loop.py:124-529 | for every peer there is exactly one closed conversation that this account allows, and it is the loop's |
| `AgentPlans.PlanIsFollowed` | cortex/agent_loop.py:124-164 | after a usable plan or revision the calls are its steps in order, within the calls left, until the next usable one; in a run that completes first, all of them |
| `AgentNotes.AnswersAreNoted` | cortex/agent_loop.py:377-459 | the observations of calls are exactly the answers to the calls, in order, with the tool, the result or the error |
| `PlanReading.AnswersCallIff` | cortex/agent_loop.py:391-395 | a message answers a call if and only if it is a tool response that echoes its id |
| `PlanReading.AnswersRequestIff` | cortex/agent_loop.py:240-246 | a message answers a request if and only if it is an LLM response that echoes its id or gives none |
| `PlanReading.StopsIff` | cortex/agent_loop.py:431-453 | a message ends a run early if and only if it is a shutdown, a cancellation, an error or no object |
| `PlanReading.StepIff` | cortex/agent_loop.py:283-312 | an entry gives a step if and only if it names a tool on offer and its arguments are absent, null, a JSON string or any other value, which is printed |
| `PlanReading.PlanAcceptedIff` | cortex/agent_loop.py:255-322 | a plan is accepted if and only if a list is offered whose entries each ask for a step or an unknown tool, with at least one step: the steps are those asked for, in order |
| `PlanReading.PlanUnreadableIff` | cortex/agent_loop.py:281-282 | reading a plan fails other than by a bad plan if and only if a list is offered and a tool on offer has no name |
| `PlanReading.JsonInIff` | cortex/agent_loop.py:325-353 | the JSON in a content is the whole of it without its margins, or else the part from the first opening to the last closing bracket |
| `PlanReading.MockPlanIs` | cortex/agent_loop.py:179-214 | the mock plan is the clock, then an echo whose arguments parse to the first eighty characters of the description, as far as they are on offer, and otherwise the first tool |
| `Addresses.ParsePartIff` | crates/actuators/src/egress.rs:401-422 | a part parses to a number if and only if it spells it in decimal, octal or hex within 64 bits |
| `Addresses.AssembleIff` | crates/actuators/src/egress.rs:366-396 | one to four numbers assemble to an address if and only if they are its parts, the last filling the remaining bytes |
| `Addresses.ParseIpv4Any` | crates/actuators/src/egress.rs:347-396 | the loop returns the address the dotted parts spell, and none for every other host |
| `Addresses.FastPathIsRedundant` | crates/actuators/src/egress.rs:347-351 | the strict dotted-quad shortcut never disagrees with the general reading |
| `Addresses.DottedIff` | crates/actuators/src/egress.rs:347-422 | a host parses to an address if and only if its dotted parts spell that address |
| `Addresses.EverySpelling` | crates/actuators/src/egress.rs:347-422 | every spelling of every 32-bit address, in every radix and part count, parses to it |
| `Addresses.PrivateIffInBlock` | crates/actuators/src/egress.rs:427-441 | the octet tests hold exactly of the addresses in a table of prefix blocks |
| `Addresses.Denied6IffInBlock` | crates/actuators/src/egress.rs:319-465 | the IPv6 tests deny exactly the 128-bit values in ::/128, ::1/128, fe80::/10 and fc00::/7, and the mapped and compatible forms of private IPv4 addresses |
| `Addresses.EmbeddedJudgedAlike` | crates/actuators/src/egress.rs:319-465 | the mapped and compatible IPv6 forms of every IPv4 address are denied exactly when it is, `::` and `::1` included |
| `Addresses.SpellingsJudgedAlike` | crates/actuators/src/egress.rs:273-441 | every spelling of an address is denied exactly when the address is private |
| `Addresses.ColonFreeDeniedIff` | crates/actuators/src/egress.rs:273-315 | every host without a colon is denied if and only if it is localhost, ends in .localhost, or spells a private address |
| `Addresses.ColonDeniedIff` | crates/actuators/src/egress.rs:273-303 | every host with a colon is denied if and only if it ends in `.localhost` or reads as an IPv6 address in a private block or as an embedded form of an IPv4 one |
| `Addresses.LiteralsJudgedAlike` | crates/actuators/src/egress.rs:273-341 | so is every IPv6 literal, bare or bracketed, that denotes its mapped or compatible form |
| `Egress.AuthorityIsEarliestCut` | crates/actuators/src/egress.rs:216-218 | the three successive splits cut at the earliest of slash, question mark and hash |
| `Egress.SchemeHostRecovers` | crates/actuators/src/egress.rs:210-253 | every assembled URL gives back its lower-cased scheme and its host whatever its userinfo, port and tail, and nothing when its host is empty |
| `Egress.NoSeparator` | crates/actuators/src/egress.rs:210-253 | a text without `://` is no URL |
| `Egress.HostMatchesIffLabels` | crates/actuators/src/egress.rs:468-475 | a host matches a pattern if and only if the pattern's labels are its last labels, without regard to case and outer dots |
| `Egress.CheckUrl` | crates/actuators/src/egress.rs:156-201 | allows exactly when all four conditions hold, and otherwise denies for the first one that fails |
| `Egress.PrivateNeverPermitted` | crates/actuators/src/egress.rs:156-441 | no URL whose host spells a private address is permitted, whatever the lists and the rest of the URL |
| `Egress.PrivateLiteralNeverPermitted` | crates/actuators/src/egress.rs:156-341 | nor one with a bracketed literal that reads as an address of a private IPv6 block or as an embedded form of a private IPv4 address |
| `Egress.PublicLiteralIsLeftToTheLists` | crates/actuators/src/egress.rs:156-341 | a literal that reads as any other address is permitted exactly when the scheme and the lists allow it |
| `Egress.LocalhostIffLabel` | crates/actuators/src/egress.rs:276-282 | the names denied as this host are those whose last label is localhost |
| `Alerts.TrackerList.Advance` | crates/alerts/src/state.rs:71-90 | one tracker moves between its two states and reports the transition; the others are untouched |
| `Alerts.TrackerList.Evaluate` | crates/alerts/src/evaluator.rs:69-122 | a pass leaves the trackers and publishes the events of its checks taken one by one |
| `Alerts.Registry.Add` | crates/alerts/src/registry.rs:98-104 | adds a rule under its id, or reports that the id is taken and changes nothing |
| `Alerts.Registry.Remove` | crates/alerts/src/registry.rs:107-117 | removes the rule and every tracker of it, keeping the other trackers in order, or changes nothing |
| `Alerts.Registry.SetEnabled` | crates/alerts/src/registry.rs:120-128 | changes that one flag of that one rule |
| `Alerts.Registry.List` | crates/alerts/src/registry.rs:147-151 | every registered rule once, in the order of the ids |
| `Alerts.PassExtendsRun` | crates/alerts/src/evaluator.rs:69-122 | a pass extends the history by its checks, and its events are exactly what the history gains for each rule |
| `Alerts.RunPass` | crates/alerts/src/registry.rs:131-151 | a pass over the registry keeps its trackers those of the whole history, publishes what the history gains, and shows each registered and enabled rule its condition exactly once |
| `Alerts.RuleRunsAlone` | crates/alerts/src/evaluator.rs:69-122 | over every run of passes, enablings and removals, each rule's tracker and events are those of a tracker run alone on its own signal |
| `Alerts.AloneIsEdgeDetector` | crates/alerts/src/state.rs:71-90 | for every signal, a tracker fires exactly while it is true, counts the rises and the current run, and its events alternate Fired, Resolved from Fired on |
| `Alerts.RuleBehaviour` | crates/alerts/src/evaluator.rs:69-122 | in every run, a rule's events since its last removal alternate, its fires count the Fired events and its consecutive count is the length of its current run |
| `Alerts.AlternatesIff` | crates/alerts/src/registry.rs:107-117 | over a whole run, removals included, a rule's events alternate if and only if it never fired again after being removed while its tracker was firing |
| `Alerts.RemovalRepeatsFired` | crates/alerts/src/registry.rs:107-117 | a firing rule that is removed and fires again publishes Fired twice in a row |
| `Alerts.IdsStayDistinct` | crates/alerts/src/evaluator.rs:84-90 | tracker ids stay distinct in every run |
| `IdentityMemory.Store.Get` | cortex/identity_memory.py:110-120 | the loop returns what the path leads to, giving the default as soon as it meets it or cannot go on |
| `IdentityMemory.GetIsWalk` | cortex/identity_memory.py:110-120 | with a plain default, that is the value at the end of the path if there is one, else the default |
| `IdentityMemory.Store.SetDefault` | cortex/identity_memory.py:126-127 | returns the entry, creating a new dictionary for a missing one |
| `IdentityMemory.Store.Set` | cortex/identity_memory.py:122-128 | writes through the shared heap; a value in the way is an error that changes nothing |
| `IdentityMemory.WriteIsOneEntry` | cortex/identity_memory.py:122-128 | every successful write changes one entry of one existing dictionary, all else being new dictionaries |
| `IdentityMemory.FailsIff` | cortex/identity_memory.py:122-128 | a write fails if and only if some value strictly on the way is not a dictionary |
| `IdentityMemory.SetThenGet` | cortex/identity_memory.py:110-128 | whatever is shared, the value is read back unless the path runs through the entry it writes; a plain value if and only if |
| `IdentityMemory.ReadsInAnyHeap` | cortex/identity_memory.py:110-128 | every read after a write, whatever is shared: unchanged unless its path meets the changed entry, and from where it first meets it as from the new value |
| `IdentityMemory.PlainWriteSeenIff` | cortex/identity_memory.py:110-128 | a plain value written to an existing way is seen on another path if and only if that path meets the entry and did not already hold what it holds now |
| `IdentityMemory.TreeReadsBack` | cortex/identity_memory.py:110-128 | in a tree whatever is set is got |
| `IdentityMemory.ReadsAfterWrite` | cortex/identity_memory.py:110-128 | in a tree, every read after a write: the new value on the path and below it, dictionaries on its prefixes, and no change on any other path |
| `IdentityMemory.SecondWriteWins` | cortex/identity_memory.py:122-128 | in any heap, a second write to a path that does not revisit the entry written leaves the heap as if it alone had been made; after a plain value exactly then, since along a revisiting path the second write fails |
| `IdentityMemory.TreeSecondWriteWins` | cortex/identity_memory.py:122-128 | so in a tree it always does |
| `IdentityMemory.WriteBack` | cortex/identity_memory.py:110-128 | writing back what a path holds leaves the whole heap as it was, whatever is shared |
| `IdentityMemory.TreeStaysTree` | cortex/identity_memory.py:122-128 | a write of a value that shares nothing with the store keeps the store a tree |
| `IdentityRuns.InstallBuilds` | cortex/identity_memory.py:56-66 | a JSON value becomes a tree of new dictionaries that holds exactly its members on exactly their paths |
| `IdentityRuns.StoreIsPathMap` | cortex/identity_memory.py:110-128 | for every loaded file and every run of writes of any JSON values, objects included and failed writes too, the store stays a tree and each path holds what the file and the writes alone determine |
| `IdentityMemory.SelfReferenceLosesWrite` | cortex/identity_memory.py:122-128 | a dictionary under its own key: the value written through it is not read back |
| `IdentityMemory.SharingInterferes` | cortex/identity_memory.py:122-128 | a dictionary stored on two paths: a write on one is read on the other |
| `Gateway.ChannelGateway.Receive` | crates/comms/src/adapters.rs:129-138 | takes the oldest waiting message of one adapter and no other |
| `Gateway.ChannelGateway.Ingest` | crates/comms/src/lib.rs:291-347 | one packet enters the bridge, or none with the reason |
| `Gateway.ChannelGateway.IngestRouted` | crates/comms/src/lib.rs:441-479 | ingests the message itself, its caption or its transcript, or nothing, as the routing decision says |
| `Gateway.ChannelGateway.RunOnce` | crates/comms/src/lib.rs:273-289 | takes the first 50 messages or all of every adapter in order, with one outcome each |
| `Gateway.ChannelGateway.RunOnceRouted` | crates/comms/src/lib.rs:419-439 | the same with routed ingestion |
| `Gateway.LimitsRespected` | crates/comms/src/lib.rs:291-347 | every packet a poll of any number of adapters puts into the bridge is within the gateway's limits and accepted by the policy |
| `Gateway.OutcomesTellTheBridge` | crates/comms/src/lib.rs:273-347 | over a whole poll, the bridge grows by exactly as many packets as there are outcomes that say enqueued |
| `Gateway.PollIsTold` | crates/comms/src/lib.rs:273-347 | one outcome per message, in order, naming channel, sender and modality, enqueued if and only if the message is admissible at the priority of its modality, and otherwise with the first reason that applies: the gateway's limit with both sizes, or the policy's own verdict |
| `Gateway.RoutedWithoutVoice` | crates/comms/src/routing.rs:336-383 | so is every packet of a routed poll, and none of them is voice |
| `Gateway.RoutedPollIsAudited` | crates/comms/src/routing.rs:416-442 | each message is audited as received if and only if ingestion was attempted, under the modality and sender ingested; one not served leaves no sender |
| `Gateway.ServedAsSent` | crates/comms/src/routing.rs:336-383 | routed text, and images a model can see, are ingested as they are |
| `Gateway.ServedByCaption` | crates/comms/src/routing.rs:336-383 | an image that cannot be seen is ingested as its caption, or refused when it has none or an empty one |
| `Gateway.ServedByTranscript` | crates/comms/src/routing.rs:336-383 | voice is ingested as its transcript, or refused when it cannot be transcribed |
| `Gateway.NoMessageIsLost` | crates/comms/src/lib.rs:273-289 | for every interleaving of arrivals and polls, the messages handled, followed by those waiting, are those that arrived, in order |
| `Gateway.HandledIsReported` | crates/comms/src/lib.rs:273-289 | the outcomes of an adapter's own polls are one for each message it handled, in order |
| `Gateway.RunReportsWhatIsHandled` | crates/comms/src/lib.rs:273-347 | for every run and every adapter whose id no other has, the outcomes returned that name its channel are exactly those of the messages it handled, in order, whatever the other adapters did in between |
| `Gateway.OneOutcomeEach` | crates/comms/src/lib.rs:273-289 | over every run of arrivals and polls there are as many outcomes as messages handled, over all adapters |
| `Gateway.Serve` | crates/comms/src/lib.rs:273-289 | a gateway serving a run holds the queues and returns the outcomes that the run determines |
| `Gateway.PollsEmptyQueue` | crates/comms/src/lib.rs:276-286 | a queue of n messages is empty after k polls if and only if k is at least n / 50 rounded up |
| `Soak.OutputDirectory.SaveManifest` | xtask/src/soak.rs:265-308 | dying before the rename leaves the old manifest, before the append leaves the log one record short |
| `Soak.AddRecord` | xtask/src/soak.rs:461-488 | the counters, sample and records after an iteration are those the records determine |
| `Soak.OutputDirectory.Resume` | xtask/src/soak.rs:321-349 | goes on from the manifest on disk with its target raised, or from an empty one |
| `Soak.OutputDirectory.RunSoak` | xtask/src/soak.rs:422-510 | wherever the process dies and however many boots can be run, the disk holds exactly the iterations reached, and success is reported if and only if all finished and none failed |
| `Soak.StartKeepsGood` | xtask/src/soak.rs:265-308 | one start only adds records and log lines, numbered on, and the log misses at most the last record saved |
| `Soak.SoakIsConsistent` | xtask/src/soak.rs:265-510 | after any crashes and resumes, iterations are numbered 1 to completed without gap, within the total; the log never repeats or contradicts one and misses exactly one for each death between a rename and its append |
| `Soak.EveryIterationCounted` | xtask/src/soak.rs:461-474 | every record is in exactly one counter, each counter counts what its name says, and the sample holds exactly the latencies of the successful ones |
| `Soak.ManifestAddsUp` | xtask/src/soak.rs:422-510 | after any crashes and resumes, completed is successes plus timeouts plus unscheduled exits and at most total |
| `Soak.RecordsOnlyGrow` | xtask/src/soak.rs:265-510 | nothing recorded is rewritten or forgotten by a later start |
| `Soak.LastStartCompletes` | xtask/src/soak.rs:422-510 | a start that lives long enough and can run its boots reaches the total, whatever happened before |
| `Soak.TargetIsRaised` | xtask/src/soak.rs:321-349 | a start that changes the manifest leaves its target at the larger of the one found and its own |
| `Soak.SoakP95IsPercentile` | xtask/src/soak.rs:249-259 | the 95th percentile of a soak is one, and the same as a report's on those samples |
| `Statistics.SortSorts` | crates/analytics/src/token.rs:42 | the sorted copy is ascending and a permutation of the samples |
| `Statistics.RankCounts` | crates/analytics/src/latency.rs:38-46 | the sample of rank k has more than k samples at or below it and at most k below it |
| `Statistics.StatsMeaning` | crates/analytics/src/token.rs:38-61 | min, p50, p95, p99 and max are samples in that order, with more than 50, 95 and 99 percent of the samples at or below, and no more than that below, each percentile |
| `Analytics.TiersByTask` | crates/analytics/src/token.rs:108-120 | the first pass finds the tier of each task's last start and counts the failures |
| `Analytics.LastTierIff` | crates/analytics/src/token.rs:108-120 | the tier of a task is that of a start entry that no later one replaces |
| `Analytics.Aggregate` | crates/analytics/src/token.rs:123-142 | the second pass collects the tokens and, for every tier, the tally of its matched completions |
| `Analytics.Rows` | crates/analytics/src/token.rs:149-162 | whatever order the map gives up its entries, the rows are one per tier, strictly ascending |
| `Analytics.ComputeTokenReport` | crates/analytics/src/token.rs:105-171 | totals, counts and statistics are those of the completions, and the tier table has a row for exactly the tiers with a matched completion, each the filter and sum over the log |
| `Analytics.TierTotalsConserve` | crates/analytics/src/token.rs:105-171 | for every log, the tier rows and the unmatched completions add up, in tasks and tokens, to the totals |
| `Analytics.TableIsUnique` | crates/analytics/src/token.rs:149-162 | the tier table is determined by the log |
| `Analytics.ComputeLatencyReport` | crates/analytics/src/latency.rs:89-136 | samples, counts and rates are those of the log's entries |
| `Retry.WithRetry` | llm-backends/src/retry.rs:64-81 | for every outcome sequence, calls up to the first call after which the loop may not go on, and returns that call's outcome |
| `Retry.OneCallDecides` | llm-backends/src/retry.rs:64-81 | that call is unique, comes within max(1, max_attempts), and is the last one allowed if it could itself be retried |
| `Retry.RetriedIff` | llm-backends/src/retry.rs:38-81 | a call is followed by another if and only if it failed without a status or with 429, 500, 502, 503 or 504 and calls are left |
| `Retry.BackoffRange` | llm-backends/src/retry.rs:50-60 | every backoff lies between half the capped delay and the capped delay |
| `Retry.CappedGrows` | llm-backends/src/retry.rs:50-53 | the delay before jitter never shrinks from one attempt to the next |
| `Retry.CappedDoubles` | llm-backends/src/retry.rs:50-53 | before jitter the delay doubles with each of the first seven retries, up to the cap, and then stays |
| `Retry.WaitIsBounded` | llm-backends/src/retry.rs:50-81 | all the waiting takes at most (max(1, max_attempts) - 1) * max(1, max_delay_ms) |

## Left out

- Number formatting: a float is the text it is printed as, or one of the three non-finite words, and its 32-bit rounding is not modelled.
- JSON readers: the recursion limit of the Rust reader and the Python dialect (`NaN`, ASCII-only output, `repr` of descriptions) are not modelled.
- InputScanner.ParsedPrintedInput: a printer that writes surrogate pairs is not covered, because the scanner turns each half into U+FFFD.
- Correlation.EventOf: the renderings of entries other than task, gate and vitals entries are one opaque notice, since they carry no message id.
- AuditTailer.TailerIsOnePass: a file that is truncated and has grown past the old offset by the next poll is read from that offset; only growing files are covered. Time is a function of the file offset.
- Framing.ReceiveCompletions: the texts of I/O and decoding errors are left blank; the worker process and its socket are not modelled.
- AgentLoop.Loop.Run: a send that fails is not modelled; the texts of outputs, summaries and errors are left out.
- Addresses.LiteralsJudgedAlike: the standard library's IPv6 text parser is a parameter, so the literals covered are those it maps to the two embedded forms.
- Egress.PrivateLiteralNeverPermitted: rests on the same parameter for the IPv6 text parser.
- Egress.HostMatchesIffLabels: lower-cases ASCII letters only, where the source lower-cases hosts and patterns by Unicode.
- Egress.SchemeHostRecovers: lower-cases ASCII letters only, where the source lower-cases schemes by Unicode.
- Alerts: conditions are booleans, an event stands for its rule's other fields, 32-bit and 64-bit counters do not overflow, and the registry's file is left out.
- Gateway: reasons are values, not sentences; the bridge's own policy is a parameter; `plan_outbound` and `outbound_audit` would only add easy members; no claim is made about sizes before transcription.
- Soak: a log line torn by a crash, the Windows rename sequence and the dry-run loop are left out; the two statistics are represented by the sample they are computed from.
- Analytics: sums do not overflow 64 bits, and rates are exact fractions instead of floats; health grades and gate counters are left out.
- IdentityRuns: saving to disk, `as_dict` and a file whose top value is no object are left out; a dictionary that the caller keeps and changes behind the store is covered by the heap theorems only.
- HTTP clients, backend and tier selection, configuration checks, consent and scoring, browser and search tools, the dashboard and training scripts are not modelled.
