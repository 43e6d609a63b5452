/** The Cloudflare Worker relay `cloudflare-worker-CORRECT.js`: a three-type
    allow-list gated on the upstream being OPEN, a parse-error reply to the
    client, a `collections_search` session without temperature, and forwarding
    to a client that is OPEN or still CONNECTING. */
module RelayCorrect {
  import opened Wrappers
  import opened RelayWire
  import opened WebSocket

  /** The `session` of the `session.update` sent when the upstream opens. */
  function Config(collectionId: Option<string>): (c: SessionConfig)
    ensures c.tools == Some([CollectionsSearch([collectionId])]) && c.toolChoice == Some("auto")
    ensures c.temperature.None? && c.transcriptionModel == Some("whisper-1")
    ensures c.prefixPaddingMs == Some(300) && c.instructions == Detailed
  {
    SessionConfig(Some("whisper-1"), Some(300), None,
                  Some([CollectionsSearch([collectionId])]), Some("auto"), Detailed)
  }

  /** One relayed connection: both legs' states, everything sent on each leg,
      every close call made on each leg, and the `sessionConfigured` flag. */
  class Session {
    const collectionId: Option<string>  // env.COLLECTION_ID
    var clientState: ReadyState
    var upstreamState: ReadyState
    var toClient: seq<DownFrame>
    var toUpstream: seq<UpFrame>
    var clientCloses: seq<CloseCall>
    var upstreamCloses: seq<CloseCall>
    var sessionConfigured: bool
    ghost var upstreamOpened: bool      // the upstream's open event has fired

    /** The configuration goes upstream exactly once, as the first frame, and
        only after the upstream opened; nothing precedes it. */
    ghost predicate Valid()
      reads this
    {
      && sessionConfigured == upstreamOpened
      && (upstreamState == Connecting ==> !upstreamOpened)
      && (upstreamState == Open ==> upstreamOpened)
      && CountUpdates(toUpstream) == (if upstreamOpened then 1 else 0)
      && (upstreamOpened ==> |toUpstream| > 0 && toUpstream[0] == SessionUpdate(Config(collectionId)))
      && (!upstreamOpened ==> toUpstream == [])
    }

    /** `initWebSocket`: the upstream socket is being opened. */
    constructor (collectionId: Option<string>, clientState: ReadyState)
      ensures Valid()
      ensures this.collectionId == collectionId && this.clientState == clientState
      ensures upstreamState == Connecting && !sessionConfigured
      ensures toClient == [] && toUpstream == [] && clientCloses == [] && upstreamCloses == []
    {
      this.collectionId := collectionId;
      this.clientState := clientState;
      upstreamState := Connecting;
      toClient, toUpstream, clientCloses, upstreamCloses := [], [], [], [];
      sessionConfigured := false;
      upstreamOpened := false;
    }

    /** A frame from the client: an allow-listed type goes upstream rebuilt if
        the upstream is OPEN; a frame whose type cannot be read gets one parse
        error back; everything else is dropped. */
    method OnClientMessage(m: Inbound)
      requires Valid()
      modifies this`toUpstream, this`toClient
      ensures Valid()
      ensures TypeReadThrows(m) ==>
                toUpstream == old(toUpstream)
                && toClient == old(toClient) + [ErrorText("Failed to parse message")]
      ensures !TypeReadThrows(m) ==>
                toClient == old(toClient)
                && toUpstream == old(toUpstream) + (if upstreamState == Open && Rebuild(m.json, WorkerAllowList).Some?
                                                    then [Rebuild(m.json, WorkerAllowList).value] else [])
    {
      if m.Malformed? || m.json.Null? {
        toClient := toClient + [ErrorText("Failed to parse message")];
        return;
      }
      var data := m.json;
      if data.kind == Some(AppendType) && upstreamState == Open {
        SendUpstream(Rebuilt(AppendType, data.audio));
      } else if data.kind == Some(CommitType) && upstreamState == Open {
        SendUpstream(Rebuilt(CommitType, None));
      } else if data.kind == Some(CreateType) && upstreamState == Open {
        SendUpstream(Rebuilt(CreateType, None));
      }
    }

    /** Sends a forwarded client frame upstream. */
    method SendUpstream(f: UpFrame)
      requires Valid() && upstreamState == Open && !f.SessionUpdate?
      modifies this`toUpstream
      ensures Valid() && toUpstream == old(toUpstream) + [f]
    {
      CountUpdatesSnoc(toUpstream, f);
      toUpstream := toUpstream + [f];
    }

    /** The upstream's open event: exactly one `session.update`, then the flag. */
    method OnUpstreamOpen()
      requires Valid() && upstreamState == Connecting
      modifies this`upstreamState, this`toUpstream, this`sessionConfigured, this`upstreamOpened
      ensures Valid() && upstreamState == Open && sessionConfigured
      ensures toUpstream == [SessionUpdate(Config(collectionId))]
    {
      upstreamState := Open;
      toUpstream := toUpstream + [SessionUpdate(Config(collectionId))];
      sessionConfigured := true;
      upstreamOpened := true;
    }

    /** A frame from the upstream goes to the client verbatim if the client is
        OPEN or CONNECTING. */
    method OnUpstreamMessage(data: string)
      modifies this`toClient
      ensures toClient == old(toClient) + (if clientState == Open || clientState == Connecting
                                           then [Verbatim(data)] else [])
    {
      if clientState == Open || clientState == Connecting {
        toClient := toClient + [Verbatim(data)];
      }
    }

    /** The upstream's error event: one error frame, only to an OPEN client. */
    method OnUpstreamError()
      modifies this`toClient
      ensures toClient == old(toClient) + (if clientState == Open
                                           then [ErrorText("xAI connection error")] else [])
    {
      if clientState == Open {
        toClient := toClient + [ErrorText("xAI connection error")];
      }
    }

    /** The upstream's close event: an OPEN client is closed with the
        upstream's code and reason (or the fallback reason). */
    method OnUpstreamClose(code: int, reason: string)
      requires Valid()
      modifies this`upstreamState, this`clientState, this`clientCloses
      ensures Valid() && upstreamState == Closed
      ensures old(clientState) == Open ==>
                clientCloses == old(clientCloses) + [WorkerCloseFor(code, reason)] && clientState == Closing
      ensures old(clientState) != Open ==>
                clientCloses == old(clientCloses) && clientState == old(clientState)
    {
      upstreamState := Closed;
      if clientState == Open {
        clientCloses := clientCloses + [WorkerCloseFor(code, reason)];
        clientState := AfterClose(clientState);
      }
    }

    /** The client's close event: an OPEN upstream is closed normally. */
    method OnClientClose()
      requires Valid()
      modifies this`clientState, this`upstreamState, this`upstreamCloses
      ensures Valid() && clientState == Closed
      ensures old(upstreamState) == Open ==>
                upstreamCloses == old(upstreamCloses) + [CloseCall(Some(NormalClosure), Some("Client disconnected"))]
                && upstreamState == Closing
      ensures old(upstreamState) != Open ==>
                upstreamCloses == old(upstreamCloses) && upstreamState == old(upstreamState)
    {
      clientState := Closed;
      if upstreamState == Open {
        upstreamCloses := upstreamCloses + [CloseCall(Some(NormalClosure), Some("Client disconnected"))];
        upstreamState := AfterClose(upstreamState);
      }
    }

    /** The client's error event: an OPEN upstream is closed as going away. */
    method OnClientError()
      requires Valid()
      modifies this`upstreamState, this`upstreamCloses
      ensures Valid()
      ensures old(upstreamState) == Open ==>
                upstreamCloses == old(upstreamCloses) + [CloseCall(Some(GoingAway), Some("Client error"))]
                && upstreamState == Closing
      ensures old(upstreamState) != Open ==>
                upstreamCloses == old(upstreamCloses) && upstreamState == old(upstreamState)
    {
      if upstreamState == Open {
        upstreamCloses := upstreamCloses + [CloseCall(Some(GoingAway), Some("Client error"))];
        upstreamState := AfterClose(upstreamState);
      }
    }
  }
}
