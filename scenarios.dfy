/** Clients of the session object: what a caller can conclude from the handlers' contracts alone. */
module Scenarios {
  import opened SessionTypes
  import opened Connection
  import opened AppSession

  /** Connect, open and capture: the blocks are sent in capture order. */
  method Capture(tracks: seq<TrackId>, b1: PcmBlock, b2: PcmBlock, b3: PcmBlock)
  {
    var app := new App();
    app.Connect(Opening(MediaStream(tracks)));
    app.OnOpen();
    assert app.connectionState == Connected;
    app.OnAudioProcess(b1);
    app.OnAudioProcess(b2);
    app.OnAudioProcess(b3);
    assert app.sentAudio == [b1, b2, b3];
  }

  /** Ending a call from any state leaves no track, context or source behind; ending it again
      changes nothing. */
  method EndCallTwice(app: App)
    requires app.Valid()
    modifies app
  {
    app.Disconnect();
    assert app.stream.None? && app.inputContext.None? && app.outputContext.None?;
    assert app.connectionState == Disconnected && !app.isSpeaking && app.sources == {};
    ghost var log := app.effects;
    app.Disconnect();
    assert app.effects == log;
  }

  /** Two chunks arriving with no interruption play back to back: the indicator is on and the
      second chunk starts no earlier than the first one ends. */
  method TwoChunks(app: App, now1: Seconds, d1: Seconds, now2: Seconds, d2: Seconds)
    requires app.Valid() && app.outputContext.Some?
    modifies app
  {
    ghost var log := app.effects;
    var chunk := Message(None, Some("AAAA"), false);
    assert Plays(chunk, app.outputContext);
    app.OnMessage(chunk, now1, Some(d1));
    app.OnMessage(chunk, now2, Some(d2));
    assert app.isSpeaking && app.SpeakingMatches();
    assert |app.effects| == |log| + 2;
    assert app.effects[|log|].at + d1 <= app.effects[|log| + 1].at;
  }

  /** A chunk that arrives with the interruption flag is flushed with the ones already playing, and
      the cursor is back at zero. */
  method BargeIn(app: App, now: Seconds, d: Seconds)
    requires app.Valid() && app.outputContext.Some?
    modifies app
  {
    ghost var playing := app.sources;
    ghost var next := app.nextHandle;
    ghost var log := app.effects;
    var flagged := Message(None, Some("AAAA"), true);
    assert Plays(flagged, app.outputContext);
    app.OnMessage(flagged, now, Some(d));
    assert app.sources == {} && !app.isSpeaking && app.nextStartTime == 0.0;
    assert StoppedSources(app.effects[|log|..]) == playing + {next};
  }
}
