/**
 * The non-UI state of the `App` component (App.tsx): connection state, the
 * committed transcript and the two pending transcription buffers, the
 * playback cursor and the set of playing sources, and the microphone gate.
 * React refs and state setters become fields that the methods reassign.
 */
module Session {
  import opened Text
  import opened Transcript
  import opened Playback

  /** types.ts:23-28 */
  datatype ConnectionState = Disconnected | Connecting | Connected | Error

  /**
   * The fields of a `LiveServerMessage` the handler reads. A missing field and
   * an empty string are both falsy in the source, so both are `""` here.
   */
  datatype ServerMessage = ServerMessage(
    audio: string,        // serverContent.modelTurn.parts[0].inlineData.data (base64)
    interrupted: bool,    // serverContent.interrupted
    outputText: string,   // serverContent.outputTranscription.text
    inputText: string,    // serverContent.inputTranscription.text
    turnComplete: bool)   // serverContent.turnComplete

  /** What `base64ToUint8Array` followed by `decodeAudioData` yields: a buffer's duration, or a throw. */
  datatype Decoding = Decoded(duration: Seconds) | DecodeError

  /** One microphone block handed to `onaudioprocess` (channel 0 samples). */
  type Frame = seq<real>

  /**
   * An `AudioBufferSourceNode` started on output context number `context` at
   * `start`, lasting `duration`. A source is known by its index in the log of
   * started sources.
   */
  datatype Play = Play(context: nat, start: Seconds, duration: Seconds)

  type SourceId = nat

  function End(p: Play): real {
    p.start + p.duration
  }

  class SessionCore {
    var state: ConnectionState
    var muted: bool                   // the `isMuted` UI state
    var transcript: seq<TranscriptItem>
    var userText: string              // currentInputTranscription
    var modelText: string             // currentOutputTranscription

    var outputContexts: nat           // output AudioContexts created so far; the ref holds the last one
    var hasOutputNode: bool           // outputNodeRef.current is set
    var cursor: Seconds               // nextStartTimeRef
    var active: set<SourceId>         // audioSourcesRef
    var plays: seq<Play>              // every source ever started, in order
    var stopped: set<SourceId>        // sources on which stop() has been called

    var capturing: bool               // the script processor is connected and its handler installed
    var gateMuted: bool               // the `isMuted` value that handler captured
    var sent: seq<Frame>              // frames handed to sendRealtimeInput

    /**
     * Object invariant: every active source was started; every playing source
     * of the current output context ends by the cursor, and no two of them
     * overlap; every committed item is non-empty and trimmed.
     */
    ghost predicate Valid()
      reads this
    {
      && (forall k :: 0 <= k < |plays| ==> plays[k].context <= outputContexts)
      && (forall k :: k in active ==> k < |plays| && (plays[k].context == outputContexts ==> End(plays[k]) <= cursor))
      && (forall i, j :: i in active && j in active && i < j ==>
            j < |plays| && (plays[i].context == outputContexts && plays[j].context == outputContexts ==>
              End(plays[i]) <= plays[j].start))
      && (forall i :: 0 <= i < |transcript| ==> Committed(transcript[i]))
    }

    /** The component's first render (App.tsx:23-46). */
    constructor ()
      ensures Valid()
      ensures state == Disconnected && !muted && transcript == [] && userText == [] && modelText == []
      ensures outputContexts == 0 && !hasOutputNode && cursor == 0.0 && active == {} && plays == [] && stopped == {}
      ensures !capturing && !gateMuted && sent == []
    {
      state := Disconnected;
      muted := false;
      transcript := [];
      userText, modelText := [], [];
      outputContexts, hasOutputNode := 0, false;
      cursor := 0.0;
      active, plays, stopped := {}, [], {};
      capturing, gateMuted, sent := false, false, [];
    }

    /**
     * `startSession` (App.tsx:83-243): CONNECTING, a fresh transcript and empty
     * buffers; new audio contexts; then, if the microphone is granted, the
     * output node, the cursor at the new output clock, and the capture handler
     * with the mute flag as it is now; if it is refused, ERROR.
     */
    method StartSession(micGranted: bool, now: Seconds)
      requires Valid()
      modifies this`state, this`transcript, this`userText, this`modelText, this`outputContexts
      modifies this`hasOutputNode, this`cursor, this`capturing, this`gateMuted
      ensures Valid()
      ensures transcript == [] && userText == [] && modelText == []
      ensures outputContexts == old(outputContexts) + 1
      ensures micGranted ==> state == Connecting && hasOutputNode && cursor == now && capturing && gateMuted == muted
      ensures !micGranted ==> state == Error && hasOutputNode == old(hasOutputNode) && cursor == old(cursor)
      ensures !micGranted ==> capturing == old(capturing) && gateMuted == old(gateMuted)
    {
      state := Connecting;
      transcript := [];
      userText := [];
      modelText := [];
      outputContexts := outputContexts + 1;
      if !micGranted {
        state := Error;
        return;
      }
      hasOutputNode := true;
      cursor := now;
      capturing := true;
      gateMuted := muted;
    }

    /** `onopen` (App.tsx:133-136). */
    method OnOpen()
      modifies this`state
      ensures state == Connected
    {
      state := Connected;
    }

    /** `onclose` (App.tsx:214-217). */
    method OnClose()
      modifies this`state
      ensures state == Disconnected
    {
      state := Disconnected;
    }

    /** `onerror` (App.tsx:218-221). */
    method OnError()
      modifies this`state
      ensures state == Error
    {
      state := Error;
    }

    /** `toggleMute` (App.tsx:245-247) flips the UI flag; the installed capture handler keeps the value it captured. */
    method ToggleMute()
      modifies this`muted
      ensures muted == !old(muted)
    {
      muted := !muted;
    }

    /** `onaudioprocess` (App.tsx:227-236): a frame is sent exactly when the handler runs and was installed unmuted. */
    method OnAudioProcess(frame: Frame)
      modifies this`sent
      ensures sent == if capturing && !gateMuted then old(sent) + [frame] else old(sent)
    {
      if capturing {
        if gateMuted {
          return;
        }
        sent := sent + [frame];
      }
    }

    /**
     * Schedule one decoded chunk (App.tsx:147-157): it starts at the later of
     * the cursor and the clock, the cursor moves to its end, and the new
     * source joins the active set.
     */
    method ScheduleChunk(duration: Seconds, now: Seconds)
      requires Valid()
      modifies this`cursor, this`plays, this`active
      ensures Valid()
      ensures plays == old(plays) + [Play(outputContexts, StartAt(old(cursor), now), duration)]
      ensures old(cursor) <= plays[|plays| - 1].start && now <= plays[|plays| - 1].start
      ensures cursor == End(plays[|plays| - 1])
      ensures active == old(active) + {|old(plays)|}
    {
      var start := StartAt(cursor, now);
      plays := plays + [Play(outputContexts, start, duration)];
      cursor := start + duration;
      active := active + {|plays| - 1};
    }

    /** `source.onended` (App.tsx:157): that source, and only it, leaves the active set. */
    method OnSourceEnded(source: SourceId)
      requires Valid()
      modifies this`active
      ensures Valid()
      ensures active == old(active) - {source}
    {
      active := active - {source};
    }

    /** The loop that calls `stop()` on every active source, then clears the set (App.tsx:60-63, 167-170). */
    method StopActiveSources()
      requires Valid()
      modifies this`stopped, this`active
      ensures Valid()
      ensures stopped == old(stopped) + old(active) && active == {}
    {
      var halted := stopped;
      var pending := active;
      while pending != {}
        invariant pending <= active
        invariant halted == stopped + (active - pending)
        decreases pending
      {
        var source :| source in pending;
        halted := halted + {source};
        pending := pending - {source};
      }
      stopped := halted;
      active := {};
    }

    /**
     * Interruption (App.tsx:164-172): every active source is stopped, the set
     * is emptied and the cursor goes back to the output clock, or to 0 when
     * there is no output context.
     */
    method Interrupt(now: Seconds)
      requires Valid()
      modifies this`stopped, this`active, this`cursor
      ensures Valid()
      ensures stopped == old(stopped) + old(active) && active == {}
      ensures cursor == if outputContexts > 0 then now else 0.0
    {
      StopActiveSources();
      cursor := if outputContexts > 0 then now else 0.0;
    }

    /** Partial model text (App.tsx:176-179): appended to the model buffer; the user buffer is untouched. */
    method AppendModelText(text: string)
      modifies this`modelText
      ensures modelText == old(modelText) + text
    {
      if text != [] {
        modelText := modelText + text;
      }
    }

    /** Partial user text (App.tsx:182-185): appended to the user buffer; the model buffer is untouched. */
    method AppendUserText(text: string)
      modifies this`userText
      ensures userText == old(userText) + text
    {
      if text != [] {
        userText := userText + text;
      }
    }

    /**
     * Turn-complete (App.tsx:188-211): the items `CommitTurn` describes are
     * appended to the transcript, which keeps its old items as a prefix, and
     * the buffers become what `CommitTurn` leaves.
     */
    method OnTurnComplete(millis: int)
      requires Valid()
      modifies this`transcript, this`userText, this`modelText
      ensures Valid()
      ensures var c := CommitTurn(old(userText), old(modelText), millis);
        transcript == old(transcript) + c.items && userText == c.user && modelText == c.model
    {
      ghost var c := CommitTurn(userText, modelText, millis);
      CommitTurnItems(userText, modelText, millis);
      var newItems: seq<TranscriptItem> := [];
      if Trim(userText) != [] {
        newItems := newItems + [ItemFor(User, userText, millis)];
        userText := [];
      }
      if Trim(modelText) != [] {
        newItems := newItems + [ItemFor(Model, modelText, millis)];
        modelText := [];
      }
      assert newItems == c.items;
      if |newItems| > 0 {
        transcript := transcript + newItems;
      }
    }

    /** Whether the handler takes the audio branch: a payload, an output context and an output node (App.tsx:140). */
    predicate AcceptsAudio(msg: ServerMessage)
      reads this
    {
      msg.audio != [] && outputContexts > 0 && hasOutputNode
    }

    /**
     * The playback half of `onmessage` (App.tsx:139-172): the audio chunk,
     * unless it fails to decode, then the interruption. A chunk that arrives
     * with an interruption is scheduled and then stopped at once.
     */
    method HandlePlayback(msg: ServerMessage, decoding: Decoding, now: Seconds)
      requires Valid()
      modifies this`cursor, this`plays, this`active, this`stopped
      ensures Valid()
      ensures var scheduled := AcceptsAudio(msg) && decoding.Decoded?;
        && plays == old(plays) + (if scheduled then [Play(outputContexts, StartAt(old(cursor), now), decoding.duration)] else [])
        && (msg.interrupted ==>
              && stopped == old(stopped) + old(active) + (if scheduled then {|old(plays)|} else {})
              && active == {}
              && cursor == (if outputContexts > 0 then now else 0.0))
        && (!msg.interrupted ==>
              && stopped == old(stopped)
              && active == old(active) + (if scheduled then {|old(plays)|} else {})
              && cursor == (if scheduled then End(plays[|plays| - 1]) else old(cursor)))
    {
      if AcceptsAudio(msg) {
        match decoding
        case Decoded(duration) => ScheduleChunk(duration, now);
        case DecodeError =>
      }
      if msg.interrupted {
        Interrupt(now);
      }
    }

    /**
     * The transcript half of `onmessage` (App.tsx:174-212): model text, then
     * user text, then the turn-complete commit on the buffers as they now are.
     */
    method HandleTranscription(msg: ServerMessage, millis: int)
      requires Valid()
      modifies this`userText, this`modelText, this`transcript
      ensures Valid()
      ensures var user := old(userText) + msg.inputText;
        var model := old(modelText) + msg.outputText;
        if msg.turnComplete then
          var c := CommitTurn(user, model, millis);
          transcript == old(transcript) + c.items && userText == c.user && modelText == c.model
        else
          transcript == old(transcript) && userText == user && modelText == model
    {
      AppendModelText(msg.outputText);
      AppendUserText(msg.inputText);
      if msg.turnComplete {
        OnTurnComplete(millis);
      }
    }

    /**
     * `onmessage` (App.tsx:137-213), one message, its fields in a fixed order:
     * audio, interruption, model text, user text, turn-complete. The playback
     * fields and the transcript fields touch disjoint state, so the message's
     * effect is the playback half's followed by the transcript half's.
     */
    method HandleMessage(msg: ServerMessage, decoding: Decoding, now: Seconds, millis: int)
      requires Valid()
      modifies this`cursor, this`plays, this`active, this`stopped, this`userText, this`modelText, this`transcript
      ensures Valid()
      ensures var scheduled := AcceptsAudio(msg) && decoding.Decoded?;
        && plays == old(plays) + (if scheduled then [Play(outputContexts, StartAt(old(cursor), now), decoding.duration)] else [])
        && (msg.interrupted ==>
              && stopped == old(stopped) + old(active) + (if scheduled then {|old(plays)|} else {})
              && active == {}
              && cursor == (if outputContexts > 0 then now else 0.0))
        && (!msg.interrupted ==>
              && stopped == old(stopped)
              && active == old(active) + (if scheduled then {|old(plays)|} else {})
              && cursor == (if scheduled then End(plays[|plays| - 1]) else old(cursor)))
      ensures var user := old(userText) + msg.inputText;
        var model := old(modelText) + msg.outputText;
        if msg.turnComplete then
          var c := CommitTurn(user, model, millis);
          transcript == old(transcript) + c.items && userText == c.user && modelText == c.model
        else
          transcript == old(transcript) && userText == user && modelText == model
    {
      HandlePlayback(msg, decoding, now);
      HandleTranscription(msg, millis);
    }

    /**
     * `stopSession` (App.tsx:49-81): capture is disconnected, every active
     * source is stopped and the set cleared, and the state is DISCONNECTED.
     * The transport is left as it is.
     */
    method StopSession()
      requires Valid()
      modifies this`capturing, this`stopped, this`active, this`state
      ensures Valid()
      ensures !capturing && active == {} && stopped == old(stopped) + old(active) && state == Disconnected
    {
      capturing := false;
      StopActiveSources();
      state := Disconnected;
    }

    /** Stopping twice leaves exactly the state that stopping once leaves. */
    method StopSessionTwice()
      requires Valid()
      modifies this`capturing, this`stopped, this`active, this`state
      ensures Valid()
      ensures !capturing && active == {} && stopped == old(stopped) + old(active) && state == Disconnected
    {
      StopSession();
      ghost var once := stopped;
      StopSession();
      assert stopped == once;
    }
  }
}
