/** The values that cross a relay's two WebSocket legs (the browser client on
    one side, the xAI realtime API upstream on the other) and the HTTP
    request/response shapes of the relays' entry points. Every relay variant
    builds on these. */
module RelayWire {
  import opened Wrappers
  import opened WebSocket

  // ---------------------------------------------------------------------------
  // Client frames

  /** A client frame after `JSON.parse`: `null`, or any other value whose
      `type` and `audio` members are kept when they are strings; every other
      member is carried along opaquely in `rest`. */
  datatype Json =
    | Null
    | Value(kind: Option<string>, audio: Option<string>, rest: string)

  /** A client frame: text `JSON.parse` rejects, or a parsed value. */
  datatype Inbound = Malformed | Parsed(json: Json)

  /** Reading `data.type` throws: the text is not JSON, or it is `null`. */
  predicate TypeReadThrows(m: Inbound) {
    m.Malformed? || m.json.Null?
  }

  const AppendType := "input_audio_buffer.append"
  const CommitType := "input_audio_buffer.commit"
  const CreateType := "response.create"

  // ---------------------------------------------------------------------------
  // Upstream frames

  /** One entry of the session's `tools` list. */
  datatype Tool =
    | CollectionsSearch(collectionIds: seq<Option<string>>)  // {type: 'collections_search', collection_ids}
    | Retrieval(collectionId: Option<string>)                // {type: 'retrieval', retrieval: {collection_id}}

  /** The assistant's `instructions` text: the long persona with divisions,
      services and principles, or the short one with the division list. */
  datatype Persona = Detailed | Brief

  /** The `session` object of a `session.update` frame, reduced to the members
      in which the relays differ; modalities, voice, audio formats, the VAD
      threshold and the silence duration are the same in all of them. */
  datatype SessionConfig = SessionConfig(
    transcriptionModel: Option<string>,  // input_audio_transcription.model
    prefixPaddingMs: Option<int>,        // turn_detection.prefix_padding_ms
    temperature: Option<real>,
    tools: Option<seq<Tool>>,
    toolChoice: Option<string>,
    instructions: Persona)

  /** A frame a relay sends to the upstream. */
  datatype UpFrame =
    | SessionUpdate(session: SessionConfig)         // {type: 'session.update', session}
    | Rebuilt(kind: string, audio: Option<string>)  // {type, audio}; an absent audio is omitted
    | Reserialised(json: Json)                      // JSON.stringify of the parsed client frame

  /** What the upstream reads back from a frame, as a parsed value. */
  function Reparse(f: UpFrame): Json {
    match f
    case SessionUpdate(_) => Value(Some("session.update"), None, "session")
    case Rebuilt(k, a) => Value(Some(k), a, "")
    case Reserialised(j) => j
  }

  /** The rebuilt upstream frame for a parsed client frame whose type is on
      the allow-list; None for every other frame. An append keeps only its
      type and audio, every other allowed type only its type. */
  function Rebuild(json: Json, allowList: set<string>): (r: Option<UpFrame>)
    ensures r.Some? <==> json.Value? && json.kind.Some? && json.kind.value in allowList
    ensures r.Some? ==> r.value.Rebuilt? && r.value.kind == json.kind.value
    ensures r.Some? && r.value.kind == AppendType ==> r.value.audio == json.audio
    ensures r.Some? && r.value.kind != AppendType ==> r.value.audio.None?
  {
    match json
    case Null => None
    case Value(kind, audio, _) =>
      if kind.Some? && kind.value in allowList then
        Some(Rebuilt(kind.value, if kind.value == AppendType then audio else None))
      else
        None
  }

  /** Rebuilding is a projection: a rebuilt frame, read back and rebuilt
      again, is unchanged. */
  lemma {:induction false} RebuildIdempotent(json: Json, allowList: set<string>)
    requires Rebuild(json, allowList).Some?
    ensures Rebuild(Reparse(Rebuild(json, allowList).value), allowList) == Rebuild(json, allowList)
  {
    var f := Rebuild(json, allowList).value;
    assert Reparse(f) == Value(Some(f.kind), f.audio, "");
  }

  /** How many `session.update` frames a sequence holds. */
  function CountUpdates(frames: seq<UpFrame>): nat {
    if frames == [] then 0
    else CountUpdates(frames[..|frames| - 1]) + (if frames[|frames| - 1].SessionUpdate? then 1 else 0)
  }

  /** One more frame adds one to the count exactly when it is a
      `session.update`. */
  lemma {:induction false} CountUpdatesSnoc(frames: seq<UpFrame>, f: UpFrame)
    ensures CountUpdates(frames + [f]) == CountUpdates(frames) + (if f.SessionUpdate? then 1 else 0)
  {
    assert (frames + [f])[..|frames|] == frames;
  }

  // ---------------------------------------------------------------------------
  // Downstream frames and close calls

  /** A frame a relay sends to the browser client. */
  datatype DownFrame =
    | Verbatim(data: string)                        // the upstream's frame, unchanged
    | ErrorText(error: string)                      // {type: 'error', error}
    | ErrorDetail(message: string, details: string) // {type: 'error', error: {message, details}}

  /** A call `socket.close(code, reason)`; an argument left out is None. */
  datatype CloseCall = CloseCall(code: Option<int>, reason: Option<string>)

  /** Normal closure and going away (section 7.4.1 of RFC 6455). */
  const NormalClosure := 1000
  const GoingAway := 1001

  // ---------------------------------------------------------------------------
  // HTTP entry

  /** The request method (`verb`) and its `Upgrade` header, if any. */
  datatype Request = Request(verb: string, upgrade: Option<string>)

  /** `!upgradeHeader || upgradeHeader !== 'websocket'` is false: the header
      is present and exactly `websocket`, compared case-sensitively. */
  predicate IsWebSocketUpgrade(r: Request) {
    r.upgrade == Some("websocket")
  }

  /** A response body: none, the service-description JSON, plain text, or
      the failure JSON (`error`, `message`, `timestamp`). */
  datatype Body = NoBody | ServiceInfo | PlainText(text: string) | ErrorReport

  datatype Response = Response(status: int, body: Body)

  // ---------------------------------------------------------------------------
  // What the Cloudflare Worker relays have in common

  /** The client frame types the three Worker relays forward upstream. */
  const WorkerAllowList: set<string> := {AppendType, CommitType, CreateType}

  /** The Workers' allow-list: exactly append, commit and `response.create`
      pass, and what passes keeps no member but its type and, for an append,
      its audio. */
  lemma {:induction false} WorkerAllowListExact(json: Json)
    ensures Rebuild(json, WorkerAllowList).Some? <==>
              json.Value? && (json.kind == Some(AppendType) || json.kind == Some(CommitType)
                              || json.kind == Some(CreateType))
    ensures json.Value? && json.kind == Some(AppendType) ==>
              Rebuild(json, WorkerAllowList) == Some(Rebuilt(AppendType, json.audio))
    ensures json.Value? && json.kind == Some("session.update") ==> Rebuild(json, WorkerAllowList).None?
  {
    if json.Value? && json.kind.Some? {
      assert json.kind.value in WorkerAllowList <==>
               json.kind.value == AppendType || json.kind.value == CommitType || json.kind.value == CreateType;
    }
  }

  /** The client's close when the upstream closes, in the two
      `cloudflare-worker` relays: the upstream's own code, and its reason
      unless that is empty, in which case a fixed one. */
  function WorkerCloseFor(code: int, reason: string): (c: CloseCall)
    ensures c.code == Some(code)
    ensures c.reason.Some? && c.reason.value != []
    ensures reason != [] ==> c.reason == Some(reason)
  {
    CloseCall(Some(code), Some(if reason != [] then reason else "xAI connection closed"))
  }

  /** The `fetch` handler of the two `cloudflare-worker` relays: 204 for a
      preflight, the service description for anything that is not a WebSocket
      upgrade, 101 for an upgrade, and 500 when setting up the socket pair or
      the upstream socket throws. */
  function WorkerRoute(r: Request, setupThrows: bool): (resp: Response)
    ensures resp.status == 204 <==> r.verb == "OPTIONS"
    ensures resp.status == 200 <==> r.verb != "OPTIONS" && !IsWebSocketUpgrade(r)
    ensures resp.status == 101 <==> r.verb != "OPTIONS" && IsWebSocketUpgrade(r) && !setupThrows
    ensures resp.status == 500 <==> r.verb != "OPTIONS" && IsWebSocketUpgrade(r) && setupThrows
    ensures resp.status == 200 ==> resp.body == ServiceInfo
    ensures resp.status == 500 ==> resp.body == ErrorReport
  {
    if r.verb == "OPTIONS" then Response(204, NoBody)
    else if !IsWebSocketUpgrade(r) then Response(200, ServiceInfo)
    else if !setupThrows then Response(101, NoBody)
    else Response(500, ErrorReport)
  }
}
