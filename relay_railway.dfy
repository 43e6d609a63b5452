/** The Node relay `railway-voice-server/server.js`: an `isXaiConnected` gate
    in front of forwarding every parsed client frame re-serialised, a RAG tool
    only when a collection is configured, error frames with an object payload,
    and normal closure of the client whatever code the upstream closed with. */
module RelayRailway {
  import opened Wrappers
  import opened RelayWire
  import opened WebSocket

  /** A JavaScript environment value is truthy when it is set and not empty. */
  predicate Truthy(v: Option<string>) {
    v.Some? && v.value != []
  }

  /** The `session` of the `session.update` sent when the upstream opens:
      temperature 0.8, and the `collections_search` tool with `tool_choice`
      only when `COLLECTION_ID` is truthy. */
  function Config(collectionId: Option<string>): (c: SessionConfig)
    ensures c.tools.Some? <==> Truthy(collectionId)
    ensures c.toolChoice.Some? <==> Truthy(collectionId)
    ensures c.tools.Some? ==> c.tools.value == [CollectionsSearch([collectionId])] && c.toolChoice == Some("auto")
    ensures c.temperature == Some(0.8) && c.transcriptionModel == Some("whisper-1")
    ensures c.prefixPaddingMs == Some(300) && c.instructions == Detailed
  {
    var base := SessionConfig(Some("whisper-1"), Some(300), Some(0.8), None, None, Detailed);
    if Truthy(collectionId) then
      base.(tools := Some([CollectionsSearch([collectionId])]), toolChoice := Some("auto"))
    else
      base
  }

  /** The `rag` member of the health JSON at `/`. */
  function RagFlag(collectionId: Option<string>): (flag: string)
    ensures flag == "enabled" || flag == "disabled"
    ensures flag == "enabled" <==> Truthy(collectionId)
  {
    if Truthy(collectionId) then "enabled" else "disabled"
  }

  /** The health route reports RAG as enabled exactly when the session the
      server configures carries a retrieval tool. */
  lemma {:induction false} RagFlagAgreesWithConfig(collectionId: Option<string>)
    ensures RagFlag(collectionId) == "enabled" <==> Config(collectionId).tools.Some?
    ensures RagFlag(collectionId) == "disabled" <==> Config(collectionId).tools.None?
  {
  }

  /** One client connection: both legs' states, everything sent on each leg,
      every close call made on each leg, and the `isXaiConnected` flag. */
  class Session {
    const collectionId: Option<string>  // process.env.COLLECTION_ID
    var clientState: ReadyState
    var upstreamState: ReadyState
    var toClient: seq<DownFrame>
    var toUpstream: seq<UpFrame>
    var clientCloses: seq<CloseCall>
    var upstreamCloses: seq<CloseCall>
    var isXaiConnected: bool
    ghost var upstreamOpened: bool      // the upstream's open event has fired

    /** The configuration goes upstream exactly once, as the first frame, and
        only after the upstream opened; the flag is set whenever the upstream
        is OPEN, so the gate adds nothing to the readiness check. */
    ghost predicate Valid()
      reads this
    {
      && (isXaiConnected ==> upstreamOpened)
      && (upstreamState == Open ==> isXaiConnected)
      && (upstreamState == Connecting ==> !upstreamOpened)
      && CountUpdates(toUpstream) == (if upstreamOpened then 1 else 0)
      && (upstreamOpened ==> |toUpstream| > 0 && toUpstream[0] == SessionUpdate(Config(collectionId)))
      && (!upstreamOpened ==> toUpstream == [])
    }

    /** The `connection` handler: an OPEN client, and the upstream being opened. */
    constructor (collectionId: Option<string>)
      ensures Valid()
      ensures this.collectionId == collectionId && clientState == Open
      ensures upstreamState == Connecting && !isXaiConnected
      ensures toClient == [] && toUpstream == [] && clientCloses == [] && upstreamCloses == []
    {
      this.collectionId := collectionId;
      clientState := Open;
      upstreamState := Connecting;
      toClient, toUpstream, clientCloses, upstreamCloses := [], [], [], [];
      isXaiConnected := false;
      upstreamOpened := false;
    }

    /** The upstream's open event: the flag first, then exactly one
        `session.update`. */
    method OnUpstreamOpen()
      requires Valid() && upstreamState == Connecting
      modifies this`upstreamState, this`toUpstream, this`isXaiConnected, this`upstreamOpened
      ensures Valid() && upstreamState == Open && isXaiConnected
      ensures toUpstream == [SessionUpdate(Config(collectionId))]
    {
      upstreamState := Open;
      isXaiConnected := true;
      upstreamOpened := true;
      toUpstream := toUpstream + [SessionUpdate(Config(collectionId))];
    }

    /** A frame from the client: any parsed value, of any type, goes upstream
        re-serialised while connected and OPEN, and is dropped otherwise;
        unparsable text is only logged. */
    method OnClientMessage(m: Inbound)
      requires Valid()
      modifies this`toUpstream
      ensures Valid()
      ensures toUpstream == old(toUpstream) + (if m.Parsed? && upstreamState == Open
                                               then [Reserialised(m.json)] else [])
    {
      if m.Malformed? {
        return;
      }
      if isXaiConnected && upstreamState == Open {
        CountUpdatesSnoc(toUpstream, Reserialised(m.json));
        toUpstream := toUpstream + [Reserialised(m.json)];
      }
    }

    /** A frame from the upstream goes to the client verbatim only if the
        client is OPEN. */
    method OnUpstreamMessage(data: string)
      modifies this`toClient
      ensures toClient == old(toClient) + (if clientState == Open then [Verbatim(data)] else [])
    {
      if clientState == Open {
        toClient := toClient + [Verbatim(data)];
      }
    }

    /** The upstream's error event: one error frame with an object payload
        carrying the error's message, only to an OPEN client. */
    method OnUpstreamError(details: string)
      modifies this`toClient
      ensures toClient == old(toClient) + (if clientState == Open
                                           then [ErrorDetail("xAI connection error", details)] else [])
    {
      if clientState == Open {
        toClient := toClient + [ErrorDetail("xAI connection error", details)];
      }
    }

    /** The upstream's close event: the flag drops, and an OPEN client is
        closed normally whatever code and reason the upstream gave. */
    method OnUpstreamClose(code: int, reason: string)
      requires Valid()
      modifies this`upstreamState, this`isXaiConnected, this`clientState, this`clientCloses
      ensures Valid() && upstreamState == Closed && !isXaiConnected
      ensures old(clientState) == Open ==>
                clientCloses == old(clientCloses) + [CloseCall(Some(NormalClosure), Some("xAI connection closed"))]
                && clientState == Closing
      ensures old(clientState) != Open ==>
                clientCloses == old(clientCloses) && clientState == old(clientState)
    {
      upstreamState := Closed;
      isXaiConnected := false;
      if clientState == Open {
        clientCloses := clientCloses + [CloseCall(Some(NormalClosure), Some("xAI connection closed"))];
        clientState := AfterClose(clientState);
      }
    }

    /** The client's close event: an OPEN upstream is closed normally. */
    method OnClientClose()
      requires Valid()
      modifies this`clientState, this`upstreamState, this`upstreamCloses
      ensures Valid() && clientState == Closed
      ensures old(upstreamState) == Open ==>
                upstreamCloses == old(upstreamCloses) + [CloseCall(Some(NormalClosure), Some("Client disconnected"))]
                && upstreamState == Closing
      ensures old(upstreamState) != Open ==>
                upstreamCloses == old(upstreamCloses) && upstreamState == old(upstreamState)
    {
      clientState := Closed;
      if upstreamState == Open {
        upstreamCloses := upstreamCloses + [CloseCall(Some(NormalClosure), Some("Client disconnected"))];
        upstreamState := AfterClose(upstreamState);
      }
    }

    /** The client's error event: an OPEN upstream is closed as going away. */
    method OnClientError()
      requires Valid()
      modifies this`upstreamState, this`upstreamCloses
      ensures Valid()
      ensures old(upstreamState) == Open ==>
                upstreamCloses == old(upstreamCloses) + [CloseCall(Some(GoingAway), Some("Client error"))]
                && upstreamState == Closing
      ensures old(upstreamState) != Open ==>
                upstreamCloses == old(upstreamCloses) && upstreamState == old(upstreamState)
    {
      if upstreamState == Open {
        upstreamCloses := upstreamCloses + [CloseCall(Some(GoingAway), Some("Client error"))];
        upstreamState := AfterClose(upstreamState);
      }
    }
  }
}
