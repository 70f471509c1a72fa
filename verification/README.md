# Realtime voice dashboard: telemetry core

A Dafny model of the telemetry core of a browser dashboard that runs a realtime
voice conversation with a remote model. The core is the message handler of the
dashboard page (`handleMessage` in `src/pages/Index.tsx`) and the state it
updates, together with the lifecycle actions that reset parts of that state.

For each message arriving on the session's data channel the handler
1. puts an entry at the front of an event log that keeps at most 50 entries
   (the model logs the classified event, not the whole message);
2. feeds the message to a turn segmenter: one optional turn in progress, opened
   by `speech_started` (user) or the first `response.audio.delta` (assistant),
   closed into an appended timeline segment by `speech_stopped` / `response.audio.done`;
3. on `response.done` with a usage report, derives the per-response token delta
   (fresh input = input minus its cached part), replaces the "current" figures
   with it and its costs, and adds it field by field into the session total;
4. while a session is active, appends a throughput sample with the response's
   input/output totals and the running totals since the session started.

The model keeps the whole page state in one immutable `Telemetry.State` and the
handler is the pure function `Telemetry.Step(state, message, price)`. The clock
reading is part of each message (`now`, integer milliseconds), and so is the rate
table in force. The cost calculator is the function parameter `price`, because
its definition is not part of this model. `Run` folds `Step` over a stream of
messages. `Drive` folds over a history that mixes messages with the lifecycle
actions: start succeeded, start failed, stop, clear log, reset totals.

Modules: `Events` (the message variants and the usage report), `Ledger`
(token counts, costs, stats, extraction, field-wise sum), `EventLog`,
`Segmenter`, `Throughput`, `Telemetry` (state, handler, lifecycle, folds) and
`TelemetryProperties` (properties over streams and worked scenarios).

Points where the code behaves differently from what a reader might expect,
all modelled as the code does them:
- A close requires the pending turn's start to be truthy (`currentSegment?.start &&`).
  A turn that started at instant 0 therefore never closes: "speech_started at 0,
  speech_stopped at 1200" gives no segment (`UserTurnAtInstantZero`), while any
  non-zero start gives the expected one (`UserTurnScenario`). For the same
  reason a session start time of 0 counts as "no session" when samples are
  recorded (`Telemetry.Active`).
- One might expect a user barge-in to leave the assistant's turn open, to be
  closed later by its own `response.audio.done`. The code keeps a single pending
  turn and `speech_started` overwrites it, so the assistant turn is dropped
  (`BargeInDropsAssistantTurn`).
- `resetSessionTotals` itself does not check whether a session is connected. The
  page passes `resetDisabled={isConnected}` and `onReset` to the stats display
  (`src/pages/Index.tsx:310-311`), but the `StatsDisplay` component in
  `src/components/StatsDisplay.tsx:4-9` declares neither property and renders no
  reset control, so nothing in the code shown disables the reset.
  `ResetSessionTotals` is modelled without a guard.
- Token counts are signed. The fresh-input subtraction is not clamped, so it goes
  negative whenever the cached part exceeds the reported count
  (`Ledger.ExtractCanGoNegative`).

## Model

| member | source | states |
|---|---|---|
| Events.Classify | src/pages/Index.tsx:71-107 | a raw tag is read into the event whose wire tag it is; exactly `response.done` keeps the usage; exactly the tags outside the five interpreted ones become the opaque case |
| Events.ClassifyTag | src/pages/Index.tsx:71-107 | reading back an event's own tag (and usage) gives the same event, so the opaque case never hides an interpreted tag |
| EventLog.Push | src/pages/Index.tsx:59-65 | the new entry is first, the log keeps the first min(n, 49) old entries behind it, length min(n + 1, 50); equivalently the capped prepend |
| Ledger.Extract | src/pages/Index.tsx:114-128 | fresh audio/text input plus the cached breakdown (zeros when missing) gives back the reported input; a missing cached count becomes 0; output counts are copied |
| Ledger.ExtractWithoutBreakdown | src/pages/Index.tsx:116 | without a cached breakdown the fresh input equals the reported input |
| Ledger.ExtractCanGoNegative | src/pages/Index.tsx:123-124 | for every report, a cached audio (text) count above the reported audio (text) count yields a negative fresh audio (text) delta: no clamping |
| Ledger.Merge | src/pages/Index.tsx:133 | the merged record gives back exactly the token counts and exactly the costs it was built from |
| Ledger.SumAppend | src/pages/Index.tsx:136-146 | the field-wise sum of a concatenation is the sum of the two parts' sums |
| Segmenter.Next | src/pages/Index.tsx:70-105 | speech_started always opens a user turn at now; the first delta opens an assistant turn, later ones keep its start; a matching truthy-start stop appends exactly one segment (that speaker, end = now, duration = end - start) and clears the turn; anything else leaves the timeline and turn unchanged; segments only grow |
| Segmenter.NextFollowsTable | src/pages/Index.tsx:70-105 | with no turn started at instant 0, the handler agrees with the Idle / UserSpeaking / AssistantSpeaking transition table on the next phase and on which segment, if any, is emitted |
| Segmenter.NextKeepsSerialized | src/pages/Index.tsx:76-104 | with a clock that does not run backwards, segments stay well formed (end >= start, duration = end - start), pairwise non-overlapping and ordered, and a turn in progress starts after the last segment ends |
| Throughput.Record | src/pages/Index.tsx:153-175 | one sample is appended and earlier samples are unchanged; its input/output are the audio+text sums of the delta; its cumulative fields are the old running totals plus those, and the running totals become them |
| Throughput.RecordKeepsConsistent | src/pages/Index.tsx:157-174 | recording keeps the running totals equal to the sums of all samples and each sample's cumulative fields equal to the sums up to it |
| Telemetry.DeltaOf | src/pages/Index.tsx:107-133 | a message has a delta exactly when it is response.done with usage; its counts are the extracted delta and its costs the calculator's result for that delta |
| Telemetry.Step | src/pages/Index.tsx:67-177 | the message is logged; the timeline follows the segmenter; without usage current, session and series are unchanged; with usage current is replaced by the delta, session grows by it, and a sample is recorded exactly when a session is active |
| Telemetry.RunAppend | src/pages/Index.tsx:67-68 | handling a stream in two batches is handling it whole |
| Telemetry.Consume | src/pages/Index.tsx:197 | draining an inbox one message at a time in arrival order gives the fold of the handler over it |
| Telemetry.StartSucceeded | src/pages/Index.tsx:200-203 | the session starts now, the series is emptied, the running totals are zeroed, nothing else changes |
| Telemetry.StopSession | src/pages/Index.tsx:245-247 | current is zeroed, the session start and the turn in progress are cleared; session totals, timeline, series and log are kept |
| Telemetry.ClearEvents | src/pages/Index.tsx:250-252 | the log is emptied and nothing else changes |
| Telemetry.ResetSessionTotals | src/pages/Index.tsx:254-258 | session totals zeroed, timeline and series emptied, running totals zeroed; current, turn in progress and log kept |
| TelemetryProperties.LogIsNewestFirst | src/pages/Index.tsx:59-65 | after a stream the log is the stream's entries newest first ahead of the old log, cut to 50 |
| TelemetryProperties.LogKeepsNewest | src/pages/Index.tsx:64 | from an empty log, after n messages the log holds exactly the last min(n, 50) entries, newest first |
| TelemetryProperties.LogStaysBounded | src/pages/Index.tsx:64 | no history of messages and actions takes the log beyond 50 entries |
| TelemetryProperties.SegmentsOnlyGrow | src/pages/Index.tsx:79-84 | messages never modify or remove a segment; they only append |
| TelemetryProperties.TimelineStaysSerialized | src/pages/Index.tsx:70-105 | over a chronological stream the timeline stays well formed and non-overlapping |
| TelemetryProperties.NextCountsMatchedStop | src/pages/Index.tsx:76-104 | one message adds a segment of a speaker exactly when it is that speaker's stop signal and finds a closable turn of theirs |
| TelemetryProperties.SegmentsCountMatchedStops | src/pages/Index.tsx:76-104 | over any stream, the segments emitted per speaker equal that speaker's stop signals that found a closable turn, replaying the turn in progress |
| TelemetryProperties.BargeInDropsAssistantTurn | src/pages/Index.tsx:71-75 | speech_started over an assistant turn drops it: the following audio.done closes nothing |
| TelemetryProperties.SessionIsSum | src/pages/Index.tsx:136-150 | after a stream the session total is the old total plus the sum of every delta in it |
| TelemetryProperties.SessionIgnoresBatching | src/pages/Index.tsx:136-150 | splitting a stream into two batches gives the same session total, the sum of both batches' deltas |
| TelemetryProperties.SessionSinceReset | src/pages/Index.tsx:136-150 | with no reset in a history, starts, stops and log clears leave the session total alone: it grows by exactly the delivered deltas |
| TelemetryProperties.SessionAfterReset | src/pages/Index.tsx:254-255 | after a reset the session total is initialStats plus the deltas delivered since |
| TelemetryProperties.CurrentIsLatest | src/pages/Index.tsx:135 | current is the last response's delta, or unchanged when no message carried usage |
| TelemetryProperties.OneSamplePerUsage | src/pages/Index.tsx:153-175 | while a session is active each usage report adds one sample and earlier samples are kept |
| TelemetryProperties.InactiveSeriesFrozen | src/pages/Index.tsx:153 | without an active session the series and running totals never change |
| TelemetryProperties.StoppedSessionRecordsNoSamples | src/pages/Index.tsx:246 | after stopSession no message adds a sample |
| TelemetryProperties.ApplyKeepsTrackConsistent | src/pages/Index.tsx:200-203 | every message and lifecycle action keeps the running totals and cumulative fields equal to the sums of the samples |
| TelemetryProperties.TrackStaysConsistent | src/pages/Index.tsx:157-174 | the same over any history of messages and actions |
| TelemetryProperties.ReachableInvariants | src/pages/Index.tsx:53-57 | from the initial state every history keeps the series consistent and the log within 50 entries |
| TelemetryProperties.ResetIsIdempotent | src/pages/Index.tsx:254-258 | resetting twice is resetting once |
| TelemetryProperties.StopIsIdempotent | src/pages/Index.tsx:225-248 | stopping twice is stopping once |
| TelemetryProperties.UserTurnScenario | src/pages/Index.tsx:71-86 | speech_started at t0 != 0 then speech_stopped at t1 give one user segment (t0, t1, t1 - t0) |
| TelemetryProperties.UserTurnAtInstantZero | src/pages/Index.tsx:77 | a user turn started at instant 0 is not closed by speech_stopped |
| TelemetryProperties.AssistantTurnScenario | src/pages/Index.tsx:87-104 | delta at t0 != 0, delta at t1, done at t2 give one assistant segment (t0, t2, t2 - t0) |
| TelemetryProperties.UsageScenario | src/pages/Index.tsx:122-128 | the worked usage report (input 100/20, cached 10 of audio, output 50/5) gives the delta 90/20/10/50/5 |
| TelemetryProperties.ResponseWithoutUsage | src/pages/Index.tsx:107 | response.done without usage leaves current, session and series alone but is logged |

## Left out

- Connection and audio I/O: microphone capture, the level visualizer, establishing
  the realtime connection and closing it (`src/pages/Index.tsx:184-198`,
  `src/pages/Index.tsx:226-239`). These are browser and foreign calls. A start
  attempt is an input whose outcome is given: success is `StartOk`, failure is
  `StartFailed`, which runs the stop handling as the catch branch does.
- The cost calculator's formula: its file (`src/utils/webrtcAudio`) is not part of
  this model. Its results are only stored in `current` and summed into `session`.
  No cost property (total = input + output, linearity) is therefore stated.
- Floating point: costs are `real`, and the elapsed time of a sample is kept in
  integer milliseconds (`elapsedMs`) instead of `(now - start) / 1000` seconds.
  Token counts are unbounded integers instead of JavaScript doubles.
- EventLog.Entry: the logged data is the classified `Event`, that is the tag and,
  for `response.done`, the modelled usage counts. The code logs the whole parsed
  message (`data: eventData`, `src/pages/Index.tsx:60-63`), including the audio
  chunk of a delta, the event id, the remaining `response` and `usage` fields and
  the whole body of an uninterpreted message. Two different messages with the same
  tag and usage handled at the same instant give equal entries in the model but
  different ones in the code. The log's contents are only ever displayed, and no
  other part of the state reads them. The log's order, capacity and which
  messages it keeps are modelled exactly.
- The log entry's timestamp is the handling instant as an integer, not its ISO text.
- React state semantics: the handler is captured once when the connection is
  created, so in the running page it reads the render-time turn, session start,
  running totals and rate table, and updates apply in batches. The model follows
  the written sequential intent, with each message seeing the state left by the
  one before and carrying the rate table in force.
- Connection flags and status text (`isConnected`, `isAudioActive`, status
  message and type), console logging and toast notifications: display-only
  side effects.
- Saving, listing, loading and deleting session snapshots
  (`src/components/SessionManager.tsx`), and with it the snapshot round trip:
  remote persistence.
- Pricing editing (`src/components/PricingSettings.tsx`), the timeline chart
  (`src/components/ConversationTimeline.tsx`) and the other display components.
- Ledger.Extract: `input_token_details`, `output_token_details` and their audio
  and text counts are taken as present in every usage report; only
  `cached_tokens` and `cached_tokens_details` may be missing. In the code a
  missing details object throws at `src/pages/Index.tsx:116` or `:126-127`, after
  the log entry and the segmenter update; a missing count makes the delta `NaN`
  or `undefined` (`:123-127`), which then turns the session totals, and the
  running totals of an active session, into `NaN` until a reset (`:138-145`,
  `:157-158`). Those paths are not modelled.
