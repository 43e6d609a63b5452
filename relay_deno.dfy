/** The Deno relay `preview/grok-voice-relay.ts`: 426 for anything but a
    WebSocket upgrade, a two-type client filter with no readiness check and no
    parse guard, a `collections_search` session, unconditional forwarding to
    the client, and a close that travels only from the client to the upstream. */
module RelayDeno {
  import opened Wrappers
  import opened RelayWire
  import opened WebSocket

  /** The client frame types forwarded upstream. */
  const AllowList: set<string> := {CommitType, AppendType}

  /** The `session` of the `session.update` sent when the upstream opens. */
  function Config(collectionId: Option<string>): (c: SessionConfig)
    ensures c.tools == Some([CollectionsSearch([collectionId])]) && c.toolChoice == Some("auto")
    ensures c.temperature.None? && c.transcriptionModel == Some("whisper-1")
    ensures c.prefixPaddingMs.None? && c.instructions == Brief
  {
    SessionConfig(Some("whisper-1"), None, None, Some([CollectionsSearch([collectionId])]), Some("auto"), Brief)
  }

  /** The `fetch` handler: 426 Upgrade Required (section 6.5.15 of RFC 7231)
      with a plain-text hint unless the `Upgrade` header is exactly
      `websocket`, whatever the method; the upgrade response otherwise. */
  function Route(r: Request): (resp: Response)
    ensures resp.status == 426 <==> !IsWebSocketUpgrade(r)
    ensures resp.status == 101 <==> IsWebSocketUpgrade(r)
    ensures resp.status == 426 ==> resp.body == PlainText("Expected Upgrade: websocket")
  {
    if !IsWebSocketUpgrade(r) then Response(426, PlainText("Expected Upgrade: websocket"))
    else Response(101, NoBody)
  }

  /** A preflight gets no 204 here: it is refused like any other request
      without the upgrade header. */
  lemma {:induction false} PreflightRefused(upgrade: Option<string>)
    ensures upgrade != Some("websocket") ==> Route(Request("OPTIONS", upgrade)).status == 426
  {
  }

  /** One relayed connection: both legs' states, everything handed to `send`
      on each leg, and every close call made on each leg. */
  class Session {
    const collectionId: Option<string>  // env.COLLECTION_ID
    var clientState: ReadyState
    var upstreamState: ReadyState
    var toClient: seq<DownFrame>
    var toUpstream: seq<UpFrame>
    var clientCloses: seq<CloseCall>
    var upstreamCloses: seq<CloseCall>
    ghost var upstreamOpened: bool      // the upstream's open event has fired

    /** Exactly one `session.update` goes upstream once the upstream opened,
        and none before. Forwarded client frames are not gated, so they may
        precede it. */
    ghost predicate Valid()
      reads this
    {
      && (upstreamState == Connecting ==> !upstreamOpened)
      && CountUpdates(toUpstream) == (if upstreamOpened then 1 else 0)
    }

    /** The session set up in `fetch` after the upgrade. */
    constructor (collectionId: Option<string>, clientState: ReadyState)
      ensures Valid()
      ensures this.collectionId == collectionId && this.clientState == clientState
      ensures upstreamState == Connecting
      ensures toClient == [] && toUpstream == [] && clientCloses == [] && upstreamCloses == []
    {
      this.collectionId := collectionId;
      this.clientState := clientState;
      upstreamState := Connecting;
      toClient, toUpstream, clientCloses, upstreamCloses := [], [], [], [];
      upstreamOpened := false;
    }

    /** A frame from the client: a commit or an append is handed to the
        upstream rebuilt, in whatever state the upstream is; every other type,
        `response.create` included, is dropped; a frame whose type cannot be
        read throws out of the handler and sends nothing. */
    method OnClientMessage(m: Inbound)
      requires Valid()
      modifies this`toUpstream
      ensures Valid()
      ensures TypeReadThrows(m) ==> toUpstream == old(toUpstream)
      ensures !TypeReadThrows(m) ==>
                toUpstream == old(toUpstream) + (if Rebuild(m.json, AllowList).Some?
                                                 then [Rebuild(m.json, AllowList).value] else [])
    {
      if m.Malformed? || m.json.Null? {
        return;
      }
      var data := m.json;
      if data.kind == Some(CommitType) {
        SendUpstream(Rebuilt(CommitType, None));
      } else if data.kind == Some(AppendType) {
        SendUpstream(Rebuilt(AppendType, data.audio));
      }
    }

    /** Hands a forwarded client frame to the upstream socket. */
    method SendUpstream(f: UpFrame)
      requires Valid() && !f.SessionUpdate?
      modifies this`toUpstream
      ensures Valid() && toUpstream == old(toUpstream) + [f]
    {
      CountUpdatesSnoc(toUpstream, f);
      toUpstream := toUpstream + [f];
    }

    /** The upstream's open event: exactly one `session.update`. */
    method OnUpstreamOpen()
      requires Valid() && upstreamState == Connecting
      modifies this`upstreamState, this`toUpstream, this`upstreamOpened
      ensures Valid() && upstreamState == Open
      ensures toUpstream == old(toUpstream) + [SessionUpdate(Config(collectionId))]
      ensures CountUpdates(toUpstream) == 1
    {
      CountUpdatesSnoc(toUpstream, SessionUpdate(Config(collectionId)));
      upstreamState := Open;
      toUpstream := toUpstream + [SessionUpdate(Config(collectionId))];
      upstreamOpened := true;
    }

    /** A frame from the upstream is handed to the client verbatim, whatever
        the client's state. */
    method OnUpstreamMessage(data: string)
      modifies this`toClient
      ensures toClient == old(toClient) + [Verbatim(data)]
    {
      toClient := toClient + [Verbatim(data)];
    }

    /** The upstream's error event is only logged. */
    method OnUpstreamError()
      modifies {}
      ensures toClient == old(toClient) && clientCloses == old(clientCloses)
    {
    }

    /** The upstream's close event is only logged: the client stays as it is. */
    method OnUpstreamClose()
      requires Valid()
      modifies this`upstreamState
      ensures Valid() && upstreamState == Closed
      ensures clientCloses == old(clientCloses) && clientState == old(clientState)
    {
      upstreamState := Closed;
    }

    /** The client's close event: the upstream is closed with no code and no
        reason, whatever its state. */
    method OnClientClose()
      requires Valid()
      modifies this`clientState, this`upstreamState, this`upstreamCloses
      ensures Valid() && clientState == Closed
      ensures upstreamCloses == old(upstreamCloses) + [CloseCall(None, None)]
      ensures upstreamState == AfterClose(old(upstreamState))
    {
      clientState := Closed;
      upstreamCloses := upstreamCloses + [CloseCall(None, None)];
      upstreamState := AfterClose(upstreamState);
    }
  }

  /** The filter: exactly commit and append pass; `response.create` does not. */
  lemma {:induction false} AllowListExact(json: Json)
    ensures Rebuild(json, AllowList).Some? <==>
              json.Value? && (json.kind == Some(AppendType) || json.kind == Some(CommitType))
    ensures json.Value? && json.kind == Some(CreateType) ==> Rebuild(json, AllowList).None?
  {
    if json.Value? && json.kind.Some? {
      assert json.kind.value in AllowList <==>
               json.kind.value == AppendType || json.kind.value == CommitType;
    }
  }
}
