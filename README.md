# Voice support-intake session logic, modelled in Dafny

This project models the session logic of the `App` component of a browser voice assistant for
municipal support. The component opens a live audio session with a hosted conversational model. It
streams microphone blocks to the model and plays back the audio chunks the model returns. It also
turns the model's `saveSupportTicket` tool calls into a support ticket shown on screen.

The component keeps its state in refs and React state. The model keeps the same state in the fields
of one class, `AppSession.App`:

- the connection state and the error message;
- the speaking indicator and the ticket;
- the microphone stream and the two audio contexts, as optional handles;
- the playback cursor `nextStartTime` and the set of active buffer sources.

Each event handler of the component is a method of that class: `Connect`, `OnOpen`, `OnMessage`
(split into `HandleToolCalls`, `PlayChunk` and `Interrupt`), `OnSourceEnded`, `OnClose`, `OnError`,
`OnAudioProcess` and `Disconnect`. Calls on browser objects go to an `effects` log: stopping a track,
closing a context, starting or stopping a source, wiring capture. Sends to the session are appended
to `sentAudio` and `sentResponses`. New audio contexts and buffer sources get fresh handles from a
counter.

The handlers are proved against pure specification functions in four modules:

- `Scheduling`: where each decoded chunk starts (`max(cursor, now)`) and how the cursor moves.
- `ToolCalls`: which invocations are acknowledged and which arguments end up as the ticket.
- `Connection`: the state and error message after each lifecycle event.
- `TicketSchema`: the tool declaration, and a typed view of the raw arguments.

Lemmas about those functions state what the design promises:

- played chunks never overlap and never start before their arrival;
- the cursor never decreases between interruptions;
- there is one acknowledgement per `saveSupportTicket` invocation, and the ticket is the last one's
  arguments;
- every state change is unconditional;
- an error state always comes with its message.

`Scenarios` holds four client methods that use only the handlers' contracts: capture order, calling
end-call twice, two chunks played back to back, and barge-in.

Some behaviour of the code differs from what a careful design would promise. The model follows the
code:

- The tool-call arguments are stored unchecked, because the source casts them without validation.
  `ToolCalls.ArgumentsNotValidated` shows an invocation with no arguments becoming the ticket and
  being acknowledged.
- `OnClose` and `OnError` release nothing. After a close the speaking indicator is off while sources
  may still be active. So the class invariant keeps only `isSpeaking ==> sources != {}`. The full
  `isSpeaking <==> sources != {}` (`SpeakingMatches`) is restored by a decoded chunk in `PlayChunk`,
  by `Interrupt` and by `Disconnect`. `OnSourceEnded` preserves it. A chunk that fails to decode
  leaves it as it was.
- `Connect` overwrites earlier audio contexts without closing them. A failed connect leaves the
  contexts it created, and the stream if one was granted, in place.

## Model

| member | source | states |
|---|---|---|
| TicketSchema.DeclarationMatchesTicket | App.tsx:15-30 | the declared tool is `saveSupportTicket`; its parameter names and its required list both equal the six ticket fields, pairwise distinct; every parameter is a string |
| TicketSchema.ParameterNames | App.tsx:20-27 | the names list has one entry per declared parameter, in declaration order |
| TicketSchema.ArgsOf | types.ts:1-8 | a typed ticket as arguments has exactly the six declared keys |
| TicketSchema.AsTicket | types.ts:1-8 | the typed reading of the `SupportTicket` interface over raw arguments: it succeeds exactly when no declared field is missing, and the ticket read agrees with the arguments on every declared field |
| TicketSchema.TicketRoundTrip | types.ts:1-8 | writing a ticket as arguments and reading it back gives the same ticket |
| TicketSchema.ArgsRoundTrip | types.ts:1-8 | raw arguments carrying exactly the six fields of the `SupportTicket` interface survive a round trip through its typed reading |
| ToolCalls.SaveCalls | App.tsx:137-138 | the selected invocations are exactly the calls named `saveSupportTicket` |
| ToolCalls.AcknowledgementsCorrespond | App.tsx:137-151 | exactly one response per `saveSupportTicket` invocation, in order, with that invocation's id, the tool's name and the fixed success text |
| ToolCalls.AcknowledgementsAppend | App.tsx:137-153 | invocations are handled independently: the responses to a concatenation are the responses to each part, in order |
| ToolCalls.SaveCallsAppend | App.tsx:137-138 | selecting invocations distributes over concatenation |
| ToolCalls.OtherCallsIgnored | App.tsx:138 | calls with other names send nothing and leave the ticket unchanged |
| ToolCalls.FinalTicketIsLastSave | App.tsx:137-140 | the final ticket is the arguments of the last `saveSupportTicket` invocation |
| ToolCalls.ArgumentsNotValidated | App.tsx:139-140 | an invocation with no arguments still becomes the ticket and is acknowledged, though it is not a complete ticket |
| Scheduling.StartTime | App.tsx:162 | a chunk's start is at or after both the cursor and the clock, and equals one of them |
| Scheduling.SlotsWithinCursor | App.tsx:162-179 | every played chunk of a run starts at or after the initial cursor and its own arrival time, and ends by the final cursor |
| Scheduling.FinalCursorGrows | App.tsx:162-179 | between interruptions the cursor never decreases and advances by at least the total played duration |
| Scheduling.NoOverlap | App.tsx:162-179 | any two played chunks of a run do not overlap: the later one starts at or after the earlier one ends |
| Scheduling.ConsecutiveStarts | App.tsx:162-179 | a played chunk following a played chunk starts at the later of the previous end and its own arrival, so early chunks queue with no gap |
| Scheduling.ScheduleSnoc | App.tsx:162-179 | handling one more chunk extends the run's slots by the slot computed from the cursor the run left behind |
| Scheduling.ResetStartsNow | App.tsx:200 | after the cursor is reset to zero the next chunk starts exactly at the clock time |
| Connection.RunKeepsConsistent | App.tsx:207-220 | along any sequence of lifecycle events an error state always has a message |
| Connection.StateSetByLastEvent | App.tsx:203-219 | transitions are unconditional: after any non-empty sequence of events the state is the one set by the last event |
| Connection.MessageKeptUntilConnect | App.tsx:87 | only a new connect attempt clears the error message |
| Connection.FailureMessagesDistinct | App.tsx:207-220 | the server-error and acquisition-failure paths both end in the error state, with different messages |
| Connection.ButtonsExclusive | App.tsx:304-331 | connect and end-call are never both offered, and neither is offered exactly while connecting |
| AppSession.TrackStops | App.tsx:59-60 | the teardown stops every track of the stream, one effect per track, in track order |
| AppSession.App.constructor | App.tsx:33-44 | initially disconnected, silent, with no ticket, message, stream, context or source, and the cursor at 0 |
| AppSession.App.StopSources | App.tsx:75-78 | every source active before is stopped once, nothing else is logged, and the set is empty |
| AppSession.App.Interrupt | App.tsx:195-201 | after an interruption every previously active source is stopped, the set is empty, the indicator is off and the cursor is 0 |
| AppSession.App.PlayChunk | App.tsx:156-193 | the cursor becomes the scheduled cursor; a decoded chunk starts a fresh source at `max(cursor, now)`, adds exactly that source, sets the indicator and advances the cursor by its duration; a failed decode leaves sources, indicator and log unchanged with the cursor raised to `max(cursor, now)`; the session state is untouched |
| AppSession.App.OnSourceEnded | App.tsx:184-189 | the ended source is removed (a no-op if already gone); the indicator is cleared only when no source is left; the speaking invariant is preserved |
| AppSession.App.HandleToolCalls | App.tsx:136-154 | the ticket becomes the final ticket of the call list and the responses sent are its acknowledgements, appended after the earlier ones |
| AppSession.App.HandleContent | App.tsx:134-193 | the tool-call part, then the audio part when the message carries a non-empty first-part payload and an output context exists |
| AppSession.App.OnMessage | App.tsx:134-202 | tool calls, then audio, then interruption. Without the flag: the started source is added, its start effect appended and the cursor advanced; a started source turns the indicator on and restores the speaking invariant, otherwise the indicator is unchanged and the invariant kept. With the flag: the earlier log is kept, followed by the start effect and then by exactly one stop for every earlier source and the new one; the set is empty, the indicator off and the cursor 0 |
| AppSession.App.OnOpen | App.tsx:114-133 | connected; capture is wired only when the input context and the stream both exist |
| AppSession.App.OnAudioProcess | App.tsx:123-129 | each captured block is sent after the earlier ones |
| AppSession.App.OnClose | App.tsx:203-206 | disconnected and silent; nothing else changes |
| AppSession.App.OnError | App.tsx:207-211 | error state with the server-error message; nothing else changes |
| AppSession.App.Connect | App.tsx:84-222 | offered only at rest; connecting with message and ticket reset and two fresh contexts; a refused microphone or a throwing service call ends in the error state with the acquisition message |
| AppSession.App.ReleaseStream | App.tsx:58-62 | every track is stopped in order, then the stream is dropped |
| AppSession.App.CloseContexts | App.tsx:64-72 | each existing context is closed, then both are dropped |
| AppSession.App.Disconnect | App.tsx:52-82 | afterwards there is no stream and no context, every track and every active source has been stopped, the set is empty, the state is disconnected and the indicator off; cursor, ticket and message are unchanged; a second call logs nothing and changes nothing |

## Left out

- Audio framing and decoding are not modelled: `createPcmBlob`, `decodeAudioData` and `base64ToUint8Array` come from a `utils/audioUtils` module that is not part of this model. A captured block is an opaque `PcmBlock`. Decoding is a parameter of the message handler that gives a duration or fails.
- The remote model SDK is not modelled: `ai.live.connect`, `sendRealtimeInput` and `sendToolResponse` are foreign calls. Sends are appended to `sentAudio` and `sentResponses` when the handler runs, so the `sessionPromise.then` deferral and its ordering are not modelled.
- AudioContext, ScriptProcessor, gain nodes and `getUserMedia` are browser I/O. They appear only as handles, a source set and logged effects.
- The clock (`currentTime`) is a parameter of the message handler. Times are `real`, so floating-point rounding is not modelled.
- Each message is handled atomically. Handlers that interleave at the `await` on decoding are not modelled.
- The order of set iteration is not modelled: stopping sources logs one stop per source in an unspecified order, where the browser uses insertion order.
- The capture callback keeps firing for as long as the script processor lives. `OnAudioProcess` has no precondition tying it to that lifetime.
- AppSession.App.Connect: the connect outcome is a parameter. The modelled failures are a refused microphone, and a synchronous throw from the service call after the microphone was granted. A throwing AudioContext constructor and a later rejection of the session promise are not modelled.
- AppSession.App.Connect: `requires CanConnect(...)` reflects that the start button is offered only in the disconnected and error states. `Disconnect` has no such precondition, because the callback itself has no guard. With a guard, its idempotence could not be stated.
- AppSession.App.HandleContent: a tool-call section without a function-call list would throw in the source and abort the rest of the handler. It is not modelled. Argument values other than strings are not modelled either.
- The rendering, the ticket card's random number, the visualizer and the system prompt text are presentation only.
