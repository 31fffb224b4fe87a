/** The session logic of the `App` component: its refs and state as fields of one object, and one
    method per handler (App.tsx). Browser and SDK objects are handles; their side effects are logged. */
module AppSession {
  import opened SessionTypes
  import opened TicketSchema
  import opened ToolCalls
  import opened Scheduling
  import opened Connection

  /** Identities of audio contexts and buffer sources (fresh handles) and of microphone tracks. */
  type Handle = nat
  type TrackId = nat

  datatype MediaStream = MediaStream(tracks: seq<TrackId>)

  /** One framed block of microphone samples, as handed to the transport. */
  type PcmBlock = seq<int>

  /** Calls made on browser objects, in the order they are made. */
  datatype Effect =
    | TrackStopped(track: TrackId)
    | ContextClosed(context: Handle)
    | CaptureStarted(context: Handle, stream: MediaStream)
    | SourceStarted(source: Handle, at: real, duration: Seconds)
    | SourceStopped(source: Handle)

  /** An inbound server message: the tool-call section, the inline audio of the first model-turn
      part, and the interruption flag. */
  datatype Message = Message(functionCalls: Option<seq<FunctionCall>>, audio: Option<string>, interrupted: bool)

  /** How a connect attempt ends: the microphone is refused, the service call throws after the
      microphone was granted, or the session is being opened. */
  datatype ConnectOutcome = MicrophoneDenied | ServiceFailed(stream: MediaStream) | Opening(stream: MediaStream)

  /** The message carries audio to play: a non-empty payload (an empty string is falsy). */
  predicate HasAudio(msg: Message) {
    msg.audio.Some? && msg.audio.value != ""
  }

  /** The audio branch runs: the message carries audio and an output context exists. */
  predicate Plays(msg: Message, outputContext: Option<Handle>) {
    HasAudio(msg) && outputContext.Some?
  }

  /** The source a message starts: the next fresh handle, when its chunk plays and decodes. */
  function Started(msg: Message, outputContext: Option<Handle>, decoded: Option<Seconds>, next: Handle): set<Handle> {
    if Plays(msg, outputContext) && decoded.Some? then {next} else {}
  }

  /** The start effect of the source a message starts, if any. */
  function StartEffects(msg: Message, outputContext: Option<Handle>, decoded: Option<Seconds>, next: Handle,
                        cursor: real, now: Seconds): (log: seq<Effect>)
    ensures forall i :: 0 <= i < |log| ==> !log[i].SourceStopped?
  {
    if Plays(msg, outputContext) && decoded.Some? then [SourceStarted(next, StartTime(cursor, now), decoded.value)] else []
  }

  /** The effects of stopping every track, in track order. */
  function TrackStops(tracks: seq<TrackId>): (log: seq<Effect>)
    ensures |log| == |tracks|
    ensures forall i :: 0 <= i < |tracks| ==> log[i] == TrackStopped(tracks[i])
  {
    if tracks == [] then [] else TrackStops(tracks[..|tracks| - 1]) + [TrackStopped(tracks[|tracks| - 1])]
  }

  function ContextCloses(context: Option<Handle>): seq<Effect> {
    match context
    case None => []
    case Some(c) => [ContextClosed(c)]
  }

  /** The sources named by the stop effects of `log`. */
  function StoppedSources(log: seq<Effect>): set<Handle> {
    if log == [] then {}
    else
      var last := log[|log| - 1];
      StoppedSources(log[..|log| - 1]) + (if last.SourceStopped? then {last.source} else {})
  }

  /** `log` stops every source of `ids` once and does nothing else. */
  predicate StopsExactly(log: seq<Effect>, ids: set<Handle>) {
    |log| == |ids| && (forall i :: 0 <= i < |log| ==> log[i].SourceStopped?) && StoppedSources(log) == ids
  }

  lemma {:induction false} StoppedSourcesAppend(a: seq<Effect>, b: seq<Effect>)
    requires forall i :: 0 <= i < |a| ==> !a[i].SourceStopped?
    ensures StoppedSources(a + b) == StoppedSources(b)
    decreases |b|
  {
    if b == [] {
      assert a + b == a;
      NoStops(a);
    } else {
      assert (a + b)[..|a + b| - 1] == a + b[..|b| - 1];
      StoppedSourcesAppend(a, b[..|b| - 1]);
    }
  }

  lemma {:induction false} NoStops(a: seq<Effect>)
    requires forall i :: 0 <= i < |a| ==> !a[i].SourceStopped?
    ensures StoppedSources(a) == {}
    decreases |a|
  {
    if a != [] {
      NoStops(a[..|a| - 1]);
    }
  }

  class App {
    var connectionState: ConnectionState
    var isSpeaking: bool
    var ticket: Option<Args>
    var errorMsg: Option<string>
    var inputContext: Option<Handle>
    var outputContext: Option<Handle>
    var stream: Option<MediaStream>
    var nextStartTime: real
    var sources: set<Handle>
    /** The next fresh object handle. */
    var nextHandle: nat
    var effects: seq<Effect>
    /** Payloads passed to `sendRealtimeInput`, in order. */
    var sentAudio: seq<PcmBlock>
    /** Responses passed to `sendToolResponse`, in order. */
    var sentResponses: seq<FunctionResponse>

    ghost predicate Valid()
      reads this
    {
      0.0 <= nextStartTime &&
      (isSpeaking ==> sources != {}) &&
      (forall s :: s in sources ==> s < nextHandle) &&
      (inputContext.Some? ==> inputContext.value < nextHandle) &&
      (outputContext.Some? ==> outputContext.value < nextHandle) &&
      Consistent(Status(connectionState, errorMsg))
    }

    /** The speaking indicator is on exactly while some source is active. */
    ghost predicate SpeakingMatches()
      reads this
    {
      isSpeaking <==> sources != {}
    }

    /** No microphone, no audio context, no active source, disconnected and silent. */
    ghost predicate TornDown()
      reads this
    {
      stream.None? && inputContext.None? && outputContext.None? && sources == {} &&
      connectionState == Disconnected && !isSpeaking
    }

    function CurrentStatus(): Status
      reads this
    {
      Status(connectionState, errorMsg)
    }

    constructor ()
      ensures Valid() && TornDown() && SpeakingMatches()
      ensures ticket.None? && errorMsg.None? && nextStartTime == 0.0 && nextHandle == 0
      ensures effects == [] && sentAudio == [] && sentResponses == []
    {
      connectionState := Disconnected;
      isSpeaking := false;
      ticket := None;
      errorMsg := None;
      inputContext := None;
      outputContext := None;
      stream := None;
      nextStartTime := 0.0;
      sources := {};
      nextHandle := 0;
      effects := [];
      sentAudio := [];
      sentResponses := [];
    }

    /** Stops every active source, then clears the set; the callers clear the indicator. */
    method StopSources()
      modifies this
      ensures sources == {}
      ensures |old(effects)| <= |effects| && effects[..|old(effects)|] == old(effects)
      ensures StopsExactly(effects[|old(effects)|..], old(sources))
      ensures isSpeaking == old(isSpeaking)
      ensures connectionState == old(connectionState) && errorMsg == old(errorMsg)
      ensures ticket == old(ticket) && stream == old(stream)
      ensures inputContext == old(inputContext) && outputContext == old(outputContext)
      ensures nextStartTime == old(nextStartTime) && nextHandle == old(nextHandle)
      ensures sentAudio == old(sentAudio) && sentResponses == old(sentResponses)
    {
      var remaining := sources;
      var stops: seq<Effect> := [];
      while remaining != {}
        invariant remaining <= sources
        invariant |stops| + |remaining| == |sources|
        invariant forall i :: 0 <= i < |stops| ==> stops[i].SourceStopped?
        invariant StoppedSources(stops) == sources - remaining
        decreases |remaining|
      {
        var s :| s in remaining;
        assert (stops + [SourceStopped(s)])[..|stops|] == stops;
        stops := stops + [SourceStopped(s)];
        remaining := remaining - {s};
      }
      effects := effects + stops;
      assert effects[|old(effects)|..] == stops;
      sources := {};
    }

    /** The interruption branch of the message handler: stop every source, clear the set, clear the
        indicator and reset the cursor. */
    method Interrupt()
      requires Valid()
      modifies this
      ensures Valid() && SpeakingMatches()
      ensures sources == {} && !isSpeaking && nextStartTime == 0.0
      ensures |old(effects)| <= |effects| && effects[..|old(effects)|] == old(effects)
      ensures StopsExactly(effects[|old(effects)|..], old(sources))
      ensures CurrentStatus() == old(CurrentStatus()) && ticket == old(ticket) && stream == old(stream)
      ensures inputContext == old(inputContext) && outputContext == old(outputContext)
      ensures nextHandle == old(nextHandle)
      ensures sentAudio == old(sentAudio) && sentResponses == old(sentResponses)
    {
      StopSources();
      isSpeaking := false;
      nextStartTime := 0.0;
    }

    /** The audio branch of the message handler: raise the cursor to the clock, then, if the chunk
        decoded, start a fresh source at the cursor, advance the cursor by its duration and record it
        as active. A chunk that fails to decode is dropped with the cursor already raised. */
    method PlayChunk(now: Seconds, decoded: Option<Seconds>)
      requires Valid()
      modifies this
      ensures Valid()
      ensures nextStartTime == CursorAfter(old(nextStartTime), Arrival(now, decoded))
      ensures old(nextStartTime) <= nextStartTime && now <= nextStartTime
      ensures decoded.None? ==>
                sources == old(sources) && isSpeaking == old(isSpeaking) &&
                effects == old(effects) && nextHandle == old(nextHandle)
      ensures decoded.Some? ==>
                old(nextHandle) !in old(sources) && sources == old(sources) + {old(nextHandle)} &&
                isSpeaking && SpeakingMatches() && nextHandle == old(nextHandle) + 1 &&
                effects == old(effects) + [SourceStarted(old(nextHandle), StartTime(old(nextStartTime), now), decoded.value)]
      ensures CurrentStatus() == old(CurrentStatus()) && ticket == old(ticket) && stream == old(stream)
      ensures inputContext == old(inputContext) && outputContext == old(outputContext)
      ensures sentAudio == old(sentAudio) && sentResponses == old(sentResponses)
    {
      nextStartTime := StartTime(nextStartTime, now);
      match decoded {
        case None =>
        case Some(duration) =>
          var source := nextHandle;
          nextHandle := nextHandle + 1;
          effects := effects + [SourceStarted(source, nextStartTime, duration)];
          nextStartTime := nextStartTime + duration;
          sources := sources + {source};
          isSpeaking := true;
      }
    }

    /** A source's ended callback: forget it; turn the indicator off only when no source is left. */
    method OnSourceEnded(source: Handle)
      requires Valid()
      modifies this
      ensures Valid()
      ensures sources == old(sources) - {source}
      ensures isSpeaking == (old(isSpeaking) && sources != {})
      ensures old(SpeakingMatches()) ==> SpeakingMatches()
      ensures CurrentStatus() == old(CurrentStatus()) && ticket == old(ticket) && stream == old(stream)
      ensures inputContext == old(inputContext) && outputContext == old(outputContext)
      ensures nextStartTime == old(nextStartTime) && nextHandle == old(nextHandle) && effects == old(effects)
      ensures sentAudio == old(sentAudio) && sentResponses == old(sentResponses)
    {
      sources := sources - {source};
      if |sources| == 0 {
        isSpeaking := false;
      }
    }

    /** The tool-call branch of the message handler: every `saveSupportTicket` invocation overwrites
        the ticket with its (unchecked) arguments and sends one acknowledgement. */
    method HandleToolCalls(calls: seq<FunctionCall>)
      requires Valid()
      modifies this
      ensures Valid()
      ensures ticket == FinalTicket(old(ticket), calls)
      ensures sentResponses == old(sentResponses) + Acknowledgements(calls)
      ensures CurrentStatus() == old(CurrentStatus()) && stream == old(stream) && isSpeaking == old(isSpeaking)
      ensures inputContext == old(inputContext) && outputContext == old(outputContext)
      ensures nextStartTime == old(nextStartTime) && nextHandle == old(nextHandle) && sources == old(sources)
      ensures effects == old(effects) && sentAudio == old(sentAudio)
    {
      var current := ticket;
      var sent := sentResponses;
      for i := 0 to |calls|
        invariant current == FinalTicket(ticket, calls[..i])
        invariant sent == sentResponses + Acknowledgements(calls[..i])
      {
        var fc := calls[i];
        assert calls[..i + 1][..i] == calls[..i];
        if fc.name == SaveTicketName {
          current := Some(fc.args);
          sent := sent + [FunctionResponse(fc.id, fc.name, AckResult)];
        }
      }
      assert calls[..|calls|] == calls;
      ticket := current;
      sentResponses := sent;
    }

    /** The first two branches of the message handler: the tool calls, then the audio chunk (only
        while an output context exists). */
    method HandleContent(msg: Message, now: Seconds, decoded: Option<Seconds>)
      requires Valid()
      modifies this
      ensures Valid()
      ensures ticket == (if msg.functionCalls.Some? then FinalTicket(old(ticket), msg.functionCalls.value) else old(ticket))
      ensures sentResponses == old(sentResponses) +
                (if msg.functionCalls.Some? then Acknowledgements(msg.functionCalls.value) else [])
      ensures sources == old(sources) + Started(msg, old(outputContext), decoded, old(nextHandle))
      ensures nextHandle == old(nextHandle) + |Started(msg, old(outputContext), decoded, old(nextHandle))|
      ensures nextStartTime ==
                if Plays(msg, old(outputContext)) then CursorAfter(old(nextStartTime), Arrival(now, decoded))
                else old(nextStartTime)
      ensures effects == old(effects) + StartEffects(msg, old(outputContext), decoded, old(nextHandle), old(nextStartTime), now)
      ensures Started(msg, old(outputContext), decoded, old(nextHandle)) != {} ==> isSpeaking && SpeakingMatches()
      ensures Started(msg, old(outputContext), decoded, old(nextHandle)) == {} ==> isSpeaking == old(isSpeaking)
      ensures CurrentStatus() == old(CurrentStatus()) && stream == old(stream)
      ensures inputContext == old(inputContext) && outputContext == old(outputContext)
      ensures sentAudio == old(sentAudio)
    {
      if msg.functionCalls.Some? {
        HandleToolCalls(msg.functionCalls.value);
      }
      if Plays(msg, outputContext) {
        PlayChunk(now, decoded);
      }
    }

    /** The message handler: tool calls and audio first, then the interruption flag, so a chunk
        arriving with the flag is flushed too. */
    method OnMessage(msg: Message, now: Seconds, decoded: Option<Seconds>)
      requires Valid()
      modifies this
      ensures Valid()
      ensures ticket == (if msg.functionCalls.Some? then FinalTicket(old(ticket), msg.functionCalls.value) else old(ticket))
      ensures sentResponses == old(sentResponses) +
                (if msg.functionCalls.Some? then Acknowledgements(msg.functionCalls.value) else [])
      ensures nextHandle == old(nextHandle) + |Started(msg, old(outputContext), decoded, old(nextHandle))|
      ensures !msg.interrupted ==>
                sources == old(sources) + Started(msg, old(outputContext), decoded, old(nextHandle)) &&
                effects == old(effects) + StartEffects(msg, old(outputContext), decoded, old(nextHandle), old(nextStartTime), now) &&
                nextStartTime ==
                  if Plays(msg, old(outputContext)) then CursorAfter(old(nextStartTime), Arrival(now, decoded))
                  else old(nextStartTime)
      ensures !msg.interrupted && Started(msg, old(outputContext), decoded, old(nextHandle)) != {} ==>
                isSpeaking && SpeakingMatches()
      ensures !msg.interrupted && Started(msg, old(outputContext), decoded, old(nextHandle)) == {} ==>
                isSpeaking == old(isSpeaking)
      ensures !msg.interrupted ==> (old(SpeakingMatches()) ==> SpeakingMatches())
      ensures msg.interrupted ==> sources == {} && !isSpeaking && nextStartTime == 0.0 && SpeakingMatches()
      ensures msg.interrupted ==>
                |old(effects) + StartEffects(msg, old(outputContext), decoded, old(nextHandle), old(nextStartTime), now)| <= |effects| &&
                effects[..|old(effects) + StartEffects(msg, old(outputContext), decoded, old(nextHandle), old(nextStartTime), now)|] ==
                  old(effects) + StartEffects(msg, old(outputContext), decoded, old(nextHandle), old(nextStartTime), now)
      ensures msg.interrupted ==>
                StopsExactly(effects[|old(effects) + StartEffects(msg, old(outputContext), decoded, old(nextHandle), old(nextStartTime), now)|..],
                             old(sources) + Started(msg, old(outputContext), decoded, old(nextHandle)))
      ensures msg.interrupted ==>
                |old(effects)| <= |effects| &&
                StoppedSources(effects[|old(effects)|..]) == old(sources) + Started(msg, old(outputContext), decoded, old(nextHandle))
      ensures CurrentStatus() == old(CurrentStatus()) && stream == old(stream)
      ensures inputContext == old(inputContext) && outputContext == old(outputContext)
      ensures sentAudio == old(sentAudio)
    {
      HandleContent(msg, now, decoded);
      if msg.interrupted {
        ghost var startLog := StartEffects(msg, old(outputContext), decoded, old(nextHandle), old(nextStartTime), now);
        ghost var played := effects;
        Interrupt();
        ghost var stops := effects[|played|..];
        assert effects == old(effects) + startLog + stops;
        StoppedSourcesAppend(startLog, stops);
        assert effects[|old(effects)|..] == startLog + stops;
      }
    }

    /** The session's open callback: connected; capture is wired only if the input context and the
        microphone stream both still exist. */
    method OnOpen()
      requires Valid()
      modifies this
      ensures Valid()
      ensures CurrentStatus() == Apply(old(CurrentStatus()), SessionOpen)
      ensures effects == old(effects) +
                (if old(inputContext).Some? && old(stream).Some?
                 then [CaptureStarted(old(inputContext).value, old(stream).value)] else [])
      ensures ticket == old(ticket) && stream == old(stream) && isSpeaking == old(isSpeaking)
      ensures inputContext == old(inputContext) && outputContext == old(outputContext)
      ensures nextStartTime == old(nextStartTime) && nextHandle == old(nextHandle) && sources == old(sources)
      ensures sentAudio == old(sentAudio) && sentResponses == old(sentResponses)
    {
      connectionState := Connected;
      if inputContext.Some? && stream.Some? {
        effects := effects + [CaptureStarted(inputContext.value, stream.value)];
      }
    }

    /** One capture callback: the framed block is sent on the session. */
    method OnAudioProcess(block: PcmBlock)
      requires Valid()
      modifies this
      ensures Valid()
      ensures sentAudio == old(sentAudio) + [block]
      ensures CurrentStatus() == old(CurrentStatus()) && ticket == old(ticket) && stream == old(stream)
      ensures isSpeaking == old(isSpeaking) && sources == old(sources) && effects == old(effects)
      ensures inputContext == old(inputContext) && outputContext == old(outputContext)
      ensures nextStartTime == old(nextStartTime) && nextHandle == old(nextHandle)
      ensures sentResponses == old(sentResponses)
    {
      sentAudio := sentAudio + [block];
    }

    /** The session's close callback: disconnected and silent; nothing is released and active sources
        keep playing. */
    method OnClose()
      requires Valid()
      modifies this
      ensures Valid()
      ensures CurrentStatus() == Apply(old(CurrentStatus()), SessionClose) && !isSpeaking
      ensures ticket == old(ticket) && stream == old(stream) && sources == old(sources) && effects == old(effects)
      ensures inputContext == old(inputContext) && outputContext == old(outputContext)
      ensures nextStartTime == old(nextStartTime) && nextHandle == old(nextHandle)
      ensures sentAudio == old(sentAudio) && sentResponses == old(sentResponses)
    {
      connectionState := Disconnected;
      isSpeaking := false;
    }

    /** The session's error callback: error state with the server-error message; nothing is released. */
    method OnError()
      requires Valid()
      modifies this
      ensures Valid()
      ensures CurrentStatus() == Apply(old(CurrentStatus()), SessionError)
      ensures ticket == old(ticket) && stream == old(stream) && isSpeaking == old(isSpeaking)
      ensures sources == old(sources) && effects == old(effects)
      ensures inputContext == old(inputContext) && outputContext == old(outputContext)
      ensures nextStartTime == old(nextStartTime) && nextHandle == old(nextHandle)
      ensures sentAudio == old(sentAudio) && sentResponses == old(sentResponses)
    {
      connectionState := Error;
      errorMsg := Some(ServerErrorMessage);
    }

    /** The start button: connecting, message and ticket reset, two fresh audio contexts (any earlier
        ones are overwritten, not closed), then the microphone; a failure ends in the error state with
        the acquisition message and leaves what was created in place. */
    method Connect(outcome: ConnectOutcome)
      requires Valid()
      requires CanConnect(connectionState)
      modifies this
      ensures Valid()
      ensures CurrentStatus() ==
                if outcome.Opening? then Apply(old(CurrentStatus()), UserConnect)
                else Apply(Apply(old(CurrentStatus()), UserConnect), AcquisitionFailure)
      ensures ticket.None?
      ensures inputContext == Some(old(nextHandle)) && outputContext == Some(old(nextHandle) + 1)
      ensures nextHandle == old(nextHandle) + 2
      ensures stream == if outcome.MicrophoneDenied? then old(stream) else Some(outcome.stream)
      ensures isSpeaking == old(isSpeaking) && sources == old(sources) && effects == old(effects)
      ensures nextStartTime == old(nextStartTime)
      ensures sentAudio == old(sentAudio) && sentResponses == old(sentResponses)
    {
      connectionState := Connecting;
      errorMsg := None;
      ticket := None;
      inputContext := Some(nextHandle);
      outputContext := Some(nextHandle + 1);
      nextHandle := nextHandle + 2;
      match outcome {
        case MicrophoneDenied =>
          connectionState := Error;
          errorMsg := Some(AcquisitionErrorMessage);
        case ServiceFailed(granted) =>
          stream := Some(granted);
          connectionState := Error;
          errorMsg := Some(AcquisitionErrorMessage);
        case Opening(granted) =>
          stream := Some(granted);
      }
    }

    /** Step 2 of teardown: stop every microphone track, then drop the stream. */
    method ReleaseStream()
      modifies this
      ensures stream.None?
      ensures effects == old(effects) + TrackStops(if old(stream).Some? then old(stream).value.tracks else [])
      ensures CurrentStatus() == old(CurrentStatus()) && ticket == old(ticket) && isSpeaking == old(isSpeaking)
      ensures inputContext == old(inputContext) && outputContext == old(outputContext)
      ensures nextStartTime == old(nextStartTime) && nextHandle == old(nextHandle) && sources == old(sources)
      ensures sentAudio == old(sentAudio) && sentResponses == old(sentResponses)
    {
      if stream.Some? {
        var tracks := stream.value.tracks;
        var stops: seq<Effect> := [];
        for i := 0 to |tracks|
          invariant stops == TrackStops(tracks[..i])
        {
          assert tracks[..i + 1][..i] == tracks[..i];
          stops := stops + [TrackStopped(tracks[i])];
        }
        assert tracks[..|tracks|] == tracks;
        effects := effects + stops;
        stream := None;
      }
    }

    /** Step 3 of teardown: close and drop each audio context that exists. */
    method CloseContexts()
      modifies this
      ensures inputContext.None? && outputContext.None?
      ensures effects == old(effects) + ContextCloses(old(inputContext)) + ContextCloses(old(outputContext))
      ensures CurrentStatus() == old(CurrentStatus()) && ticket == old(ticket) && isSpeaking == old(isSpeaking)
      ensures stream == old(stream) && sources == old(sources)
      ensures nextStartTime == old(nextStartTime) && nextHandle == old(nextHandle)
      ensures sentAudio == old(sentAudio) && sentResponses == old(sentResponses)
    {
      if inputContext.Some? {
        effects := effects + [ContextClosed(inputContext.value)];
        inputContext := None;
      }
      if outputContext.Some? {
        effects := effects + [ContextClosed(outputContext.value)];
        outputContext := None;
      }
    }

    /** The end-call callback: stop every track and drop the stream, close and drop both contexts,
        stop and clear every source, then disconnected and silent. Calling it again changes nothing. */
    method Disconnect()
      requires Valid()
      modifies this
      ensures Valid() && TornDown() && SpeakingMatches()
      ensures CurrentStatus() == Apply(old(CurrentStatus()), UserDisconnect)
      ensures var teardown := old(effects) +
                TrackStops(if old(stream).Some? then old(stream).value.tracks else []) +
                ContextCloses(old(inputContext)) + ContextCloses(old(outputContext));
              |teardown| <= |effects| && effects[..|teardown|] == teardown &&
              StopsExactly(effects[|teardown|..], old(sources))
      ensures ticket == old(ticket) && nextStartTime == old(nextStartTime) && nextHandle == old(nextHandle)
      ensures sentAudio == old(sentAudio) && sentResponses == old(sentResponses)
      ensures old(TornDown()) ==> effects == old(effects)  // with the clauses above: a second call changes nothing
    {
      ReleaseStream();
      CloseContexts();
      ghost var teardown := effects;
      StopSources();
      assert effects[..|teardown|] == teardown;
      if old(TornDown()) {
        assert |effects| == |teardown|;
        assert effects == effects[..|teardown|];
      }
      connectionState := Disconnected;
      isSpeaking := false;
    }
  }
}
