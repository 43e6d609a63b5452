/** The preview Cloudflare Worker relay `preview/grok-voice-worker.js`: the
    three-type allow-list gated on the upstream being OPEN, silent parse
    failures, a `retrieval` tool, and forwarding, error frames and close codes
    passed to the client with no readiness check at all. */
module RelayPreviewWorker {
  import opened Wrappers
  import opened RelayWire
  import opened WebSocket

  /** The `session` of the `session.update` sent when the upstream opens:
      a single `retrieval` tool, no transcription, no prefix padding. */
  function Config(collectionId: Option<string>): (c: SessionConfig)
    ensures c.tools == Some([Retrieval(collectionId)]) && c.toolChoice == Some("auto")
    ensures c.temperature.None? && c.transcriptionModel.None?
    ensures c.prefixPaddingMs.None? && c.instructions == Brief
  {
    SessionConfig(None, None, None, Some([Retrieval(collectionId)]), Some("auto"), Brief)
  }

  /** The `fetch` handler: 204 for a preflight, a plain-text banner for
      anything that is not a WebSocket upgrade, 101 for an upgrade, and 500
      with a plain-text message when setting up the sockets throws. */
  function Route(r: Request, setupThrows: bool, errorMessage: string): (resp: Response)
    ensures resp.status == 204 <==> r.verb == "OPTIONS"
    ensures resp.status == 200 <==> r.verb != "OPTIONS" && !IsWebSocketUpgrade(r)
    ensures resp.status == 101 <==> r.verb != "OPTIONS" && IsWebSocketUpgrade(r) && !setupThrows
    ensures resp.status == 500 <==> r.verb != "OPTIONS" && IsWebSocketUpgrade(r) && setupThrows
    ensures resp.status == 200 ==> resp.body == PlainText("xAI Voice Agent WebSocket Relay")
    ensures resp.status == 500 ==> resp.body.PlainText?
  {
    if r.verb == "OPTIONS" then Response(204, NoBody)
    else if !IsWebSocketUpgrade(r) then Response(200, PlainText("xAI Voice Agent WebSocket Relay"))
    else if !setupThrows then Response(101, NoBody)
    else Response(500, PlainText("WebSocket error: " + errorMessage))
  }

  /** One relayed connection: both legs' states, everything sent on each leg,
      every close call made on each leg, and the `sessionConfigured` flag. */
  class Session {
    const collectionId: Option<string>  // env.COLLECTION_ID
    var clientState: ReadyState
    var upstreamState: ReadyState
    var toClient: seq<DownFrame>
    var toUpstream: seq<UpFrame>
    var clientCloses: seq<CloseCall>
    var upstreamCloses: seq<CloseCall>
    var sessionConfigured: bool
    ghost var upstreamOpened: bool      // the upstream's open event has fired

    /** The configuration goes upstream exactly once, as the first frame, and
        only after the upstream opened; nothing precedes it. */
    ghost predicate Valid()
      reads this
    {
      && sessionConfigured == upstreamOpened
      && (upstreamState == Connecting ==> !upstreamOpened)
      && (upstreamState == Open ==> upstreamOpened)
      && CountUpdates(toUpstream) == (if upstreamOpened then 1 else 0)
      && (upstreamOpened ==> |toUpstream| > 0 && toUpstream[0] == SessionUpdate(Config(collectionId)))
      && (!upstreamOpened ==> toUpstream == [])
    }

    /** `initWebSocket`: the upstream socket is being opened. */
    constructor (collectionId: Option<string>, clientState: ReadyState)
      ensures Valid()
      ensures this.collectionId == collectionId && this.clientState == clientState
      ensures upstreamState == Connecting && !sessionConfigured
      ensures toClient == [] && toUpstream == [] && clientCloses == [] && upstreamCloses == []
    {
      this.collectionId := collectionId;
      this.clientState := clientState;
      upstreamState := Connecting;
      toClient, toUpstream, clientCloses, upstreamCloses := [], [], [], [];
      sessionConfigured := false;
      upstreamOpened := false;
    }

    /** A frame from the client: an allow-listed type goes upstream rebuilt if
        the upstream is OPEN; a frame whose type cannot be read is only logged;
        everything else is dropped. Nothing ever goes back to the client. */
    method OnClientMessage(m: Inbound)
      requires Valid()
      modifies this`toUpstream
      ensures Valid()
      ensures TypeReadThrows(m) ==> toUpstream == old(toUpstream)
      ensures !TypeReadThrows(m) ==>
                toUpstream == old(toUpstream) + (if upstreamState == Open && Rebuild(m.json, WorkerAllowList).Some?
                                                 then [Rebuild(m.json, WorkerAllowList).value] else [])
    {
      if m.Malformed? || m.json.Null? {
        return;
      }
      var data := m.json;
      if data.kind == Some(AppendType) && upstreamState == Open {
        SendUpstream(Rebuilt(AppendType, data.audio));
      } else if data.kind == Some(CommitType) && upstreamState == Open {
        SendUpstream(Rebuilt(CommitType, None));
      } else if data.kind == Some(CreateType) && upstreamState == Open {
        SendUpstream(Rebuilt(CreateType, None));
      }
    }

    /** Sends a forwarded client frame upstream. */
    method SendUpstream(f: UpFrame)
      requires Valid() && upstreamState == Open && !f.SessionUpdate?
      modifies this`toUpstream
      ensures Valid() && toUpstream == old(toUpstream) + [f]
    {
      CountUpdatesSnoc(toUpstream, f);
      toUpstream := toUpstream + [f];
    }

    /** The upstream's open event: exactly one `session.update`, then the flag. */
    method OnUpstreamOpen()
      requires Valid() && upstreamState == Connecting
      modifies this`upstreamState, this`toUpstream, this`sessionConfigured, this`upstreamOpened
      ensures Valid() && upstreamState == Open && sessionConfigured
      ensures toUpstream == [SessionUpdate(Config(collectionId))]
    {
      upstreamState := Open;
      toUpstream := toUpstream + [SessionUpdate(Config(collectionId))];
      sessionConfigured := true;
      upstreamOpened := true;
    }

    /** A frame from the upstream goes to the client verbatim, whatever the
        client's state. */
    method OnUpstreamMessage(data: string)
      modifies this`toClient
      ensures toClient == old(toClient) + [Verbatim(data)]
    {
      toClient := toClient + [Verbatim(data)];
    }

    /** The upstream's error event: one error frame to the client, whatever
        the client's state. */
    method OnUpstreamError()
      modifies this`toClient
      ensures toClient == old(toClient) + [ErrorText("xAI connection error")]
    {
      toClient := toClient + [ErrorText("xAI connection error")];
    }

    /** The upstream's close event: the client is closed with exactly the
        upstream's code and reason, whatever its state and however empty the
        reason. */
    method OnUpstreamClose(code: int, reason: string)
      requires Valid()
      modifies this`upstreamState, this`clientState, this`clientCloses
      ensures Valid() && upstreamState == Closed
      ensures clientCloses == old(clientCloses) + [CloseCall(Some(code), Some(reason))]
      ensures clientState == AfterClose(old(clientState))
    {
      upstreamState := Closed;
      clientCloses := clientCloses + [CloseCall(Some(code), Some(reason))];
      clientState := AfterClose(clientState);
    }

    /** The client's close event: an OPEN upstream is closed with the client's
        own code and reason. */
    method OnClientClose(code: int, reason: string)
      requires Valid()
      modifies this`clientState, this`upstreamState, this`upstreamCloses
      ensures Valid() && clientState == Closed
      ensures old(upstreamState) == Open ==>
                upstreamCloses == old(upstreamCloses) + [CloseCall(Some(code), Some(reason))]
                && upstreamState == Closing
      ensures old(upstreamState) != Open ==>
                upstreamCloses == old(upstreamCloses) && upstreamState == old(upstreamState)
    {
      clientState := Closed;
      if upstreamState == Open {
        upstreamCloses := upstreamCloses + [CloseCall(Some(code), Some(reason))];
        upstreamState := AfterClose(upstreamState);
      }
    }

    /** The client's error event: an OPEN upstream is closed as going away. */
    method OnClientError()
      requires Valid()
      modifies this`upstreamState, this`upstreamCloses
      ensures Valid()
      ensures old(upstreamState) == Open ==>
                upstreamCloses == old(upstreamCloses) + [CloseCall(Some(GoingAway), Some("Client error"))]
                && upstreamState == Closing
      ensures old(upstreamState) != Open ==>
                upstreamCloses == old(upstreamCloses) && upstreamState == old(upstreamState)
    {
      if upstreamState == Open {
        upstreamCloses := upstreamCloses + [CloseCall(Some(GoingAway), Some("Client error"))];
        upstreamState := AfterClose(upstreamState);
      }
    }
  }
}
