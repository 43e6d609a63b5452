/** The browser voice client served from `public/`: it records compressed
    chunks with a `MediaRecorder`, sends the whole recording when the recorder
    stops, and decodes received audio deltas without adding a header. */
module VoiceAgentPublic {
  import opened Wrappers
  import opened VoiceCommon
  import opened WebSocket

  /** The bytes of `new Blob(chunks)`: the chunks one after another. */
  function Concat(chunks: seq<seq<byte>>): seq<byte> {
    if chunks == [] then [] else Concat(chunks[..|chunks| - 1]) + chunks[|chunks| - 1]
  }

  /** `arrayBufferToBase64`: one char per byte, then `btoa`. */
  method ArrayBufferToBase64(buffer: seq<byte>, btoa: string -> string) returns (encoded: string)
    ensures encoded == btoa(BinaryString(buffer))
  {
    var binary := "";
    for i := 0 to |buffer|
      invariant binary == BinaryString(buffer[..i])
    {
      assert buffer[..i + 1] == buffer[..i] + [buffer[i]];
      binary := binary + [buffer[i] as char];
    }
    assert buffer[..|buffer|] == buffer;
    encoded := btoa(binary);
  }

  /** What the relay gets back when it decodes what `arrayBufferToBase64`
      sent, provided `atob` inverts `btoa` on binary strings: the bytes. */
  lemma {:induction false} ArrayBufferToBase64RoundTrip(buffer: seq<byte>, btoa: string -> string,
                                                        atob: string -> Option<string>)
    requires forall s :: IsBinary(s) ==> atob(btoa(s)) == Some(s)
    ensures atob(btoa(BinaryString(buffer))).Some?
    ensures CharCodes(atob(btoa(BinaryString(buffer))).value) == buffer
  {
    var s := BinaryString(buffer);
    assert IsBinary(s);
    CharCodesOfBinaryString(buffer);
  }

  /** The duration `decodeAudioData` yields for a received base64 delta: the
      bytes of `atob` are decoded as they are, with no header added. */
  function PlayedDuration(base64: string, atob: string -> Option<string>,
                          decode: seq<byte> -> Option<Duration>): Option<Duration>
  {
    match atob(base64)
    case None => None
    case Some(binary) => decode(CharCodes(binary))
  }

  /** `XAIVoiceAgent`: the socket, the panel, the armed reconnect timers, the
      microphone, the recorder and its chunks, the playback cursor and the
      status indicator. */
  class XAIVoiceAgent {
    var isConnected: bool
    var hasSocket: bool             // this.ws !== null
    var socketState: ReadyState     // this.ws.readyState
    var sent: seq<ClientFrame>      // frames passed to this.ws.send, oldest first
    var panelVisible: bool          // the panel carries the 'visible' class
    var pendingReconnects: nat      // armed 3000 ms reconnect timers not yet fired
    var isRecording: bool
    var hasStream: bool             // this.stream !== null
    var micLive: bool               // the stream's tracks have not been stopped
    var hasRecorder: bool           // this.mediaRecorder !== null
    var audioChunks: seq<seq<byte>> // this.audioChunks
    var pendingStops: nat           // recorder stops whose onstop has not run
    var nextStartTime: real         // this.audioPlayer.nextStartTime
    var isPlaying: bool             // this.audioPlayer.isPlaying
    var scheduled: seq<Segment>     // buffer sources started, oldest first
    ghost var clock: real           // the latest audioContext.currentTime observed
    var statusText: string
    var dotColor: string
    var pulsing: bool

    /** The playback schedule never overlaps and, once idle, the cursor is
        not ahead of the clock; a recording always has a recorder. */
    ghost predicate Valid()
      reads this
    {
      && clock >= 0.0
      && ScheduleInvariant(scheduled, nextStartTime, clock)
      && (!isPlaying ==> nextStartTime <= clock)
      && (isRecording ==> hasRecorder && micLive)
    }

    constructor ()
      ensures Valid()
      ensures !isConnected && !hasSocket && sent == [] && !panelVisible && pendingReconnects == 0
      ensures !isRecording && !hasStream && !hasRecorder && audioChunks == [] && pendingStops == 0
      ensures nextStartTime == 0.0 && !isPlaying && scheduled == []
    {
      isConnected, hasSocket, socketState, sent := false, false, Closed, [];
      panelVisible, pendingReconnects := false, 0;
      isRecording, hasStream, micLive, hasRecorder := false, false, false, false;
      audioChunks, pendingStops := [], 0;
      nextStartTime, isPlaying, scheduled, clock := 0.0, false, [], 0.0;
      statusText, dotColor, pulsing := "Ready", "", false;
    }

    /** `updateStatus(status, state)`. */
    method UpdateStatus(status: string, state: string)
      modifies this`statusText, this`dotColor, this`pulsing
      ensures statusText == status && dotColor == DotColor(state) && pulsing == Pulses(state)
    {
      statusText := status;
      dotColor := if state in Colors then Colors[state] else Colors["disconnected"];
      pulsing := state == "listening" || state == "speaking";
    }

    /** `connect()`: nothing while connected; otherwise a new socket in the
        CONNECTING state, or the failure status when the constructor throws. */
    method Connect(constructOk: bool)
      modifies this`hasSocket, this`socketState, this`statusText, this`dotColor, this`pulsing
      ensures old(isConnected) ==> hasSocket == old(hasSocket) && socketState == old(socketState)
                                   && statusText == old(statusText) && dotColor == old(dotColor)
      ensures !old(isConnected) && constructOk ==>
                hasSocket && socketState == Connecting
                && statusText == "Connecting..." && dotColor == DotColor("connecting")
      ensures !old(isConnected) && !constructOk ==>
                hasSocket == old(hasSocket) && socketState == old(socketState)
                && statusText == "Connection Failed" && dotColor == DotColor("error")
    {
      if isConnected {
        return;
      }
      UpdateStatus("Connecting...", "connecting");
      if constructOk {
        hasSocket, socketState := true, Connecting;
      } else {
        UpdateStatus("Connection Failed", "error");
      }
    }

    /** `ws.onopen`. */
    method OnSocketOpen()
      requires hasSocket && socketState == Connecting
      modifies this`isConnected, this`socketState, this`statusText, this`dotColor, this`pulsing
      ensures isConnected && socketState == Open
      ensures statusText == "Ready" && dotColor == DotColor("ready")
    {
      socketState := Open;
      isConnected := true;
      UpdateStatus("Ready", "ready");
    }

    /** `ws.onclose`: disconnected, and exactly one more reconnect timer armed. */
    method OnSocketClose()
      requires hasSocket
      modifies this`isConnected, this`socketState, this`pendingReconnects,
               this`statusText, this`dotColor, this`pulsing
      ensures !isConnected && socketState == Closed
      ensures pendingReconnects == old(pendingReconnects) + 1
      ensures statusText == "Disconnected" && dotColor == DotColor("disconnected")
    {
      socketState := Closed;
      isConnected := false;
      UpdateStatus("Disconnected", "disconnected");
      pendingReconnects := pendingReconnects + 1;
    }

    /** `ws.onerror`: only the status changes; no timer is armed. */
    method OnSocketError()
      modifies this`statusText, this`dotColor, this`pulsing
      ensures statusText == "Connection Error" && dotColor == DotColor("error")
      ensures pendingReconnects == old(pendingReconnects) && isConnected == old(isConnected)
    {
      UpdateStatus("Connection Error", "error");
    }

    /** One armed 3000 ms timer fires: it reconnects only if the panel is visible. */
    method OnReconnectTimer(constructOk: bool)
      requires pendingReconnects > 0
      modifies this`pendingReconnects, this`hasSocket, this`socketState,
               this`statusText, this`dotColor, this`pulsing
      ensures pendingReconnects == old(pendingReconnects) - 1
      ensures !panelVisible ==> hasSocket == old(hasSocket) && socketState == old(socketState)
                                && statusText == old(statusText)
      ensures panelVisible && !isConnected && constructOk ==> hasSocket && socketState == Connecting
    {
      pendingReconnects := pendingReconnects - 1;
      if panelVisible {
        Connect(constructOk);
      }
    }

    /** `togglePanel()`: opening the panel connects. */
    method TogglePanel(constructOk: bool)
      modifies this`panelVisible, this`hasSocket, this`socketState,
               this`statusText, this`dotColor, this`pulsing
      ensures panelVisible == !old(panelVisible)
      ensures panelVisible && !isConnected && constructOk ==> hasSocket && socketState == Connecting
      ensures !panelVisible ==> hasSocket == old(hasSocket) && socketState == old(socketState)
    {
      panelVisible := !panelVisible;
      if panelVisible {
        Connect(constructOk);
      }
    }

    /** `closePanel()`: hides the panel, which stops later reconnects. */
    method ClosePanel()
      modifies this`panelVisible
      ensures !panelVisible
    {
      panelVisible := false;
    }

    /** `queueAudio(audioBuffer)` with the buffer's duration and the current
        `audioContext.currentTime`: start at now when idle or behind, otherwise
        at the cursor, and advance the cursor by exactly the duration. */
    method QueueAudio(duration: Duration, now: real)
      requires Valid() && now >= clock
      modifies this`nextStartTime, this`isPlaying, this`scheduled, this`clock,
               this`statusText, this`dotColor, this`pulsing
      ensures Valid() && clock == now && isPlaying
      ensures var start := SegmentStart(old(isPlaying), old(nextStartTime), now);
              scheduled == old(scheduled) + [Segment(start, duration, now)]
              && nextStartTime == start + duration
      ensures statusText == "Speaking..." && dotColor == DotColor("speaking")
    {
      ScheduleExtends(scheduled, nextStartTime, clock, isPlaying, now, duration);
      if !isPlaying || nextStartTime < now {
        nextStartTime := now;
        isPlaying := true;
      }
      scheduled := scheduled + [Segment(nextStartTime, duration, now)];
      nextStartTime := nextStartTime + duration;
      clock := now;
      UpdateStatus("Speaking...", "speaking");
    }

    /** The `onended` handler of the k-th scheduled source, as written: it
        compares the cursor with the `now` captured when that source was
        queued, so for a source of positive duration it never clears
        `isPlaying`. */
    method OnEnded(k: nat)
      requires Valid() && k < |scheduled|
      modifies this`isPlaying
      ensures Valid()
      ensures isPlaying == (old(isPlaying) && !(nextStartTime <= scheduled[k].queuedAt))
      ensures scheduled[k].duration > 0.0 ==> isPlaying == old(isPlaying)
    {
      if nextStartTime <= scheduled[k].queuedAt {
        isPlaying := false;
      }
    }

    /** The `onended` handler as evidently intended: playback is idle once the
        cursor is not ahead of the time at which the source ended. */
    method OnEndedWhenDrained(k: nat, endedAt: real)
      requires Valid() && k < |scheduled|
      requires endedAt >= clock && endedAt >= scheduled[k].start + scheduled[k].duration
      modifies this`isPlaying, this`clock
      ensures Valid() && clock == endedAt
      ensures isPlaying == (old(isPlaying) && endedAt < nextStartTime)
      ensures k == |scheduled| - 1 ==> !isPlaying
    {
      clock := endedAt;
      if nextStartTime <= endedAt {
        isPlaying := false;
      }
    }

    /** `playAudio(base64Audio)`: decode and queue; a failure at any step is
        caught and changes nothing. */
    method PlayAudio(base64Audio: string, atob: string -> Option<string>,
                     decode: seq<byte> -> Option<Duration>, now: real)
      requires Valid() && now >= clock
      modifies this`nextStartTime, this`isPlaying, this`scheduled, this`clock,
               this`statusText, this`dotColor, this`pulsing
      ensures Valid()
      ensures PlayedDuration(base64Audio, atob, decode).None? ==>
                scheduled == old(scheduled) && nextStartTime == old(nextStartTime)
                && isPlaying == old(isPlaying) && statusText == old(statusText)
                && dotColor == old(dotColor) && pulsing == old(pulsing)
      ensures PlayedDuration(base64Audio, atob, decode).Some? ==>
                var start := SegmentStart(old(isPlaying), old(nextStartTime), now);
                var d := PlayedDuration(base64Audio, atob, decode).value;
                scheduled == old(scheduled) + [Segment(start, d, now)]
                && nextStartTime == start + d && isPlaying && statusText == "Speaking..."
    {
      var audioData := Base64ToArrayBuffer(base64Audio, atob);
      if audioData.None? {
        return;
      }
      var audioBuffer := decode(audioData.value);
      if audioBuffer.None? {
        return;
      }
      QueueAudio(audioBuffer.value, now);
    }

    /** `ws.onmessage` and `handleMessage(data)`: only a non-empty
        `response.audio.delta` reaches playback; malformed JSON changes nothing. */
    method HandleMessage(event: ServerEvent, atob: string -> Option<string>,
                         decode: seq<byte> -> Option<Duration>, now: real)
      requires Valid() && now >= clock
      modifies this`nextStartTime, this`isPlaying, this`scheduled, this`clock,
               this`statusText, this`dotColor, this`pulsing
      ensures Valid()
      ensures |scheduled| != |old(scheduled)| ==>
                event.Event? && event.kind == "response.audio.delta" && Truthy(event.delta)
      ensures event.Unparsable? ==>
                scheduled == old(scheduled) && nextStartTime == old(nextStartTime)
                && isPlaying == old(isPlaying) && statusText == old(statusText)
                && dotColor == old(dotColor) && pulsing == old(pulsing)
      ensures event.Event? && event.kind == "response.done" ==>
                statusText == "Ready" && dotColor == DotColor("ready") && !pulsing
                && scheduled == old(scheduled) && nextStartTime == old(nextStartTime)
                && isPlaying == old(isPlaying)
      ensures event.Event? && event.kind == "input_audio_buffer.speech_started" ==>
                statusText == "Listening..." && dotColor == DotColor("listening") && pulsing
                && scheduled == old(scheduled) && nextStartTime == old(nextStartTime)
                && isPlaying == old(isPlaying)
      ensures event.Event? && event.kind == "error" ==>
                statusText == "Error: " + event.error.GetOr("undefined") && dotColor == DotColor("error")
                && !pulsing
                && scheduled == old(scheduled) && nextStartTime == old(nextStartTime)
                && isPlaying == old(isPlaying)
      ensures event.Event? && event.kind == "response.audio.delta" && Truthy(event.delta)
              && PlayedDuration(event.delta.value, atob, decode).Some? ==>
                var start := SegmentStart(old(isPlaying), old(nextStartTime), now);
                var d := PlayedDuration(event.delta.value, atob, decode).value;
                scheduled == old(scheduled) + [Segment(start, d, now)]
                && nextStartTime == start + d && isPlaying && statusText == "Speaking..."
      ensures event.Event? && event.kind == "response.audio.delta"
              && !(Truthy(event.delta) && PlayedDuration(event.delta.value, atob, decode).Some?) ==>
                scheduled == old(scheduled) && nextStartTime == old(nextStartTime)
                && isPlaying == old(isPlaying) && statusText == old(statusText)
                && dotColor == old(dotColor) && pulsing == old(pulsing)
      ensures event.Event?
              && event.kind !in {"response.audio.delta", "response.done", "input_audio_buffer.speech_started", "error"} ==>
                scheduled == old(scheduled) && nextStartTime == old(nextStartTime)
                && isPlaying == old(isPlaying) && statusText == old(statusText)
                && dotColor == old(dotColor) && pulsing == old(pulsing)
    {
      if event.Unparsable? {
        return;
      }
      var kind := event.kind;
      if kind == "session.created" {
      } else if kind == "response.audio.delta" {
        if event.delta.Some? && event.delta.value != [] {
          PlayAudio(event.delta.value, atob, decode, now);
        }
      } else if kind == "response.done" {
        UpdateStatus("Ready", "ready");
      } else if kind == "input_audio_buffer.speech_started" {
        UpdateStatus("Listening...", "listening");
      } else if kind == "error" {
        UpdateStatus("Error: " + event.error.GetOr("undefined"), "error");
      }
    }

    /** `startRecording()`: a refused microphone changes only the status; a
        recorder that cannot be created leaves the stream open and recording
        off; a recorder created but not started has already replaced the
        recorder and emptied the chunk list; otherwise recording is on. */
    method StartRecording(micOk: bool, recorderBuilt: bool, recorderStarted: bool)
      requires Valid()
      modifies this`hasStream, this`micLive, this`hasRecorder, this`audioChunks, this`isRecording,
               this`statusText, this`dotColor, this`pulsing
      ensures Valid()
      ensures !micOk ==> hasStream == old(hasStream) && micLive == old(micLive)
                         && hasRecorder == old(hasRecorder) && isRecording == old(isRecording)
                         && audioChunks == old(audioChunks) && statusText == "Microphone Error"
      ensures micOk && !recorderBuilt ==> hasStream && micLive && hasRecorder == old(hasRecorder)
                                          && isRecording == old(isRecording)
                                          && audioChunks == old(audioChunks)
                                          && statusText == "Microphone Error"
      ensures micOk && recorderBuilt && !recorderStarted ==>
                hasStream && micLive && hasRecorder && audioChunks == []
                && isRecording == old(isRecording) && statusText == "Microphone Error"
      ensures micOk && recorderBuilt && recorderStarted ==>
                hasStream && hasRecorder && isRecording && audioChunks == []
                && statusText == "Listening..."
    {
      if !micOk {
        UpdateStatus("Microphone Error", "error");
        return;
      }
      hasStream, micLive := true, true;
      if !recorderBuilt {
        UpdateStatus("Microphone Error", "error");
        return;
      }
      hasRecorder := true;
      audioChunks := [];
      if !recorderStarted {
        UpdateStatus("Microphone Error", "error");
        return;
      }
      isRecording := true;
      UpdateStatus("Listening...", "listening");
    }

    /** The recorder's `ondataavailable`: only a non-empty chunk is kept. */
    method OnDataAvailable(data: seq<byte>)
      requires hasRecorder
      modifies this`audioChunks
      ensures audioChunks == old(audioChunks) + (if |data| > 0 then [data] else [])
    {
      if |data| > 0 {
        audioChunks := audioChunks + [data];
      }
    }

    /** `stopRecording()`: only while a recorder is recording; the recorder's
        stop is requested, the tracks are stopped and recording ends. */
    method StopRecording()
      requires Valid()
      modifies this`pendingStops, this`micLive, this`isRecording,
               this`statusText, this`dotColor, this`pulsing
      ensures Valid()
      ensures !(hasRecorder && old(isRecording)) ==>
                pendingStops == old(pendingStops) && isRecording == old(isRecording)
                && micLive == old(micLive) && statusText == old(statusText)
      ensures hasRecorder && old(isRecording) ==>
                pendingStops == old(pendingStops) + 1 && !isRecording && !micLive
                && statusText == "Processing..." && dotColor == DotColor("processing")
    {
      if hasRecorder && isRecording {
        pendingStops := pendingStops + 1;
        micLive := false;
        isRecording := false;
        UpdateStatus("Processing...", "processing");
      }
    }

    /** `toggleRecording()`. */
    method ToggleRecording(micOk: bool, recorderBuilt: bool, recorderStarted: bool)
      requires Valid()
      modifies this`hasStream, this`micLive, this`hasRecorder, this`audioChunks, this`isRecording,
               this`pendingStops, this`statusText, this`dotColor, this`pulsing
      ensures Valid()
      ensures old(isRecording) ==> !isRecording && pendingStops == old(pendingStops) + 1
      ensures !old(isRecording) ==> isRecording == (micOk && recorderBuilt && recorderStarted)
    {
      if isRecording {
        StopRecording();
      } else {
        StartRecording(micOk, recorderBuilt, recorderStarted);
      }
    }

    /** `sendAudio(audioBlob)`: on an OPEN socket, the whole blob as one append
        frame followed by a commit frame; otherwise nothing. */
    method SendAudio(audioBlob: seq<byte>, btoa: string -> string)
      modifies this`sent
      ensures sent == old(sent) + (if hasSocket && socketState == Open
                                   then [AppendFrame(btoa(BinaryString(audioBlob))), CommitFrame]
                                   else [])
    {
      if !hasSocket || socketState != Open {
        return;
      }
      var base64Audio := ArrayBufferToBase64(audioBlob, btoa);
      sent := sent + [AppendFrame(base64Audio)];
      sent := sent + [CommitFrame];
    }

    /** The recorder's `onstop`: the chunks held at that moment, as one blob,
        through `sendAudio`. */
    method OnRecorderStop(btoa: string -> string)
      requires pendingStops > 0
      modifies this`pendingStops, this`sent
      ensures pendingStops == old(pendingStops) - 1
      ensures sent == old(sent) + (if hasSocket && socketState == Open
                                   then [AppendFrame(btoa(BinaryString(Concat(audioChunks)))), CommitFrame]
                                   else [])
    {
      pendingStops := pendingStops - 1;
      SendAudio(Concat(audioChunks), btoa);
    }
  }
}
