# dopatech voice agent and store scrapers, modelled in Dafny

dopatech is the website of the Dopamine Flow Energy brand. Its core has three parts:

- **Two browser voice clients.**
  - `xai-voice-agent-FIXED.js` streams raw PCM16 microphone audio.
  - `public/xai-voice-agent.js` records compressed audio chunks.

  Both send the audio as base64 over a WebSocket. Both play the base64 audio they receive through a playback queue whose buffers play in order without overlap, back to back while the cursor is ahead of the clock. Only the FIXED client wraps the received PCM16 in a WAV header before decoding; the public client decodes the bytes as they arrive. Both reconnect after a close.
- **Five WebSocket relays** between the browser and the xAI realtime API:
  - two Cloudflare Workers (`cloudflare-worker-CORRECT.js`, `cloudflare-worker-FINAL-FIX.js`);
  - a Railway Node server;
  - a preview Worker;
  - a preview Deno relay.

  Each relay configures the upstream session once, filters or forwards client frames, relays upstream frames verbatim and propagates closes.
- **Five Python scrapers.**
  - A Shopify scraper uses the paginated `products.json` API and falls back to the collection HTML.
  - Four Creator Spring scrapers: complete multi-page, Nori L'Amour, final single-page and basic. Each turns product tiles into catalogue records with a price, a category from a keyword chain, a link, a numeric id and a description, and summarises them per category.

The model is organised as follows:

- **Classes** (`XAIVoiceAgent`, a relay `Session` per relay) hold the state the JavaScript mutates. Their fields are granular frames. Every send is recorded in an outbox sequence, and every `close(...)` call in a close log.
- **Loops** of the scrapers and encoders are methods. Each is proved equal to a recursive specification function. Properties of that function are proved as lemmas: round trips, uniqueness of keys, totals and first-match category rules.
- **Browser primitives** (`atob`, `btoa`, `decodeAudioData`, `getUserMedia`, the constructor of `WebSocket`) are parameters. Either they are functions, or they are booleans saying whether the call succeeded.
- **Parsed HTML** (BeautifulSoup results) and **HTTP responses** are inputs given as datatypes.

Modules:

| module | file |
|---|---|
| `Wrappers` | `Option` |
| `Text` | Python `str` operations: `in`, `lower`, `strip`, `replace`, `split()[-1]` and slicing |
| `Catalog` | category names, first-match keyword tables, grouping, counting, de-duplication by key |
| `WebSocket` | the ready states and `close()`, shared by clients and relays |
| `VoiceCommon` | bytes and binary strings, status colours, the playback schedule |
| `VoiceAgentFixed` | `xai-voice-agent-FIXED.js` |
| `VoiceAgentPublic` | `public/xai-voice-agent.js` |
| `RelayWire` | frames, requests and responses shared by the relays; the allow-list, close and routing that the Worker relays share |
| `RelayCorrect`, `RelayFinalFix`, `RelayRailway`, `RelayPreviewWorker`, `RelayDeno` | the five relays |
| `ShopifyScraper` | `scrape_shopify_store.py` |
| `SpringTiles` | the tile extraction and multi-page merge shared by the complete and Nori scrapers |
| `SpringComplete`, `NoriLamour`, `SpringFinal`, `SpringBasic` | the Spring scrapers |

## Model

| member | source | states |
|---|---|---|
| Text.Lower | scrape_shopify_store.py:161-162 | `str.lower()` keeps the length and lowers every character position by position (ASCII letters only) |
| Text.AnyInTwo | scrape_spring_store_complete.py:77 | `any(word in s for word in [a, b])` holds exactly when `s` contains `a` or contains `b` |
| Text.AnyInThree | scrape_spring_store_complete.py:75 | `any(...)` over three words holds exactly when one of the three is contained |
| Text.Strip | scrape_spring_store_complete.py:49 | `strip()` is a contiguous slice of the input whose dropped prefix and suffix are all whitespace, and it has no whitespace at either end |
| Text.TrimStart | scrape_spring_store_complete.py:49 | the result is a suffix of the input, it does not start with whitespace, and everything dropped was whitespace |
| Text.TrimEnd | scrape_spring_store_complete.py:49 | the result is a prefix of the input, it does not end with whitespace, and everything dropped was whitespace |
| Text.RemoveAllChar | scrape_shopify_store.py:121 | `replace('$', '')` leaves no `$` in the string |
| Text.RemoveAllCharCounts | scrape_shopify_store.py:121 | `replace('$', '')` drops every `$` and keeps every other character as often as it occurred (multiset equality) |
| Text.RemoveAllAbsent | scrape_shopify_store.py:187 | `replace(p, '')` on a string that does not contain `p` returns it unchanged |
| Text.Take | scrape_shopify_store.py:187 | `[:200]` is the prefix whose length is the smaller of 200 and the input's length |
| Text.AfterLastIsSuffix | scrape_shopify_store.py:119 | `split('/products/')[-1]` is a suffix of the URL |
| Text.AfterLastSeparated | scrape_shopify_store.py:119 | `split(sep)[-1]` holds no `sep`; it is the whole string when `sep` is absent, and otherwise it is immediately preceded by an occurrence of `sep` |
| Text.LowerUnchanged | scrape_shopify_store.py:161-162 | lowering a string without upper-case letters leaves it unchanged |
| Catalog.FirstMatch | scrape_shopify_store.py:164-177 | an if/elif category chain yields the default or one of the table's categories |
| Catalog.FirstMatchIsFirst | scrape_shopify_store.py:164-177 | the chain yields the category of the first matching rule, with no earlier rule matching, or the default when no rule matches |
| Catalog.Filter | scrape_shopify_store.py:219-235 | a category group holds only products of that category |
| Catalog.Keys | scrape_shopify_store.py:219-235 | the categories of the summary are exactly the categories that occur |
| Catalog.KeysDistinct | scrape_shopify_store.py:219-235 | each category is listed once |
| Catalog.FilterAbsent | scrape_shopify_store.py:219-235 | a category that does not occur has an empty group |
| Catalog.SumCountsSnoc | scrape_shopify_store.py:219-235 | one more product adds one to the group total exactly when its category is listed |
| Catalog.GroupSizesSum | scrape_shopify_store.py:219-235 | the group sizes add up to the number of products |
| Catalog.GroupByCategory | scrape_shopify_store.py:219-235 | the categories in order of first occurrence, and for each one the products of that category in list order |
| Catalog.CountByCategory | scrape_nori_lamour.py:161-164 | `counts[category] = counts.get(category, 0) + 1` gives each occurring category its group size |
| Catalog.KeySetSnoc | scrape_spring_store_complete.py:139-145 | adding an item adds its key to the seen keys |
| Catalog.FirstByKeyUnique | scrape_spring_store_complete.py:139-145 | de-duplication keeps one item per key and loses no key |
| Catalog.FirstByKeyPrefix | scrape_spring_store_complete.py:139-145 | de-duplicating a prefix yields a prefix of the whole result, so later pages only append |
| Catalog.FirstByKeySubset | scrape_spring_store_complete.py:139-145 | de-duplication only keeps items that were scraped |
| VoiceCommon.BinaryString | public/xai-voice-agent.js:366-374 | `String.fromCharCode` per byte gives one char per byte with that code |
| VoiceCommon.CharCodes | xai-voice-agent-FIXED.js:415-423 | `charCodeAt` into a `Uint8Array` gives one byte per char |
| VoiceCommon.CharCodesOfBinaryString | xai-voice-agent-FIXED.js:415-423 | bytes to a binary string and back is the identity |
| VoiceCommon.BinaryStringOfCharCodes | xai-voice-agent-FIXED.js:415-423 | a binary string to bytes and back is the identity |
| VoiceCommon.Base64ToArrayBuffer | xai-voice-agent-FIXED.js:415-423 | a failing `atob` gives no buffer; otherwise the buffer holds the codes of the decoded string |
| VoiceCommon.DotColor | xai-voice-agent-FIXED.js:466-476 | a known state gets its colour from the table, and any other state gets the disconnected grey |
| VoiceCommon.SegmentStart | xai-voice-agent-FIXED.js:392-397 | a buffer starts at the cursor when playback is ongoing and not behind; otherwise it starts now, never before now |
| VoiceCommon.ScheduleExtends | xai-voice-agent-FIXED.js:391-413 | appending the segment `queueAudio` schedules keeps the segments non-overlapping and in order, and the cursor at the last segment's end |
| VoiceAgentFixed.Clamp | xai-voice-agent-FIXED.js:350 | a clamped sample lies in [-1, 1] |
| VoiceAgentFixed.WrapInt16 | xai-voice-agent-FIXED.js:351 | storing into an `Int16Array` yields a value in the 16-bit signed range |
| VoiceAgentFixed.Pcm16 | xai-voice-agent-FIXED.js:349-352 | every converted sample is a 16-bit signed value |
| VoiceAgentFixed.Pcm16NoWraparound | xai-voice-agent-FIXED.js:349-352 | clamping first means the `Int16Array` store never wraps: the sample is the truncated scaled value |
| VoiceAgentFixed.Pcm16Sign | xai-voice-agent-FIXED.js:349-352 | a negative sample converts to a non-positive one, and a non-negative sample to a non-negative one |
| VoiceAgentFixed.Pcm16Saturates | xai-voice-agent-FIXED.js:349-352 | inputs at or beyond ±1 saturate at 32767 and -32768 |
| VoiceAgentFixed.Pcm16Error | xai-voice-agent-FIXED.js:349-352 | within [-1, 1] the converted sample is within one step of the scaled value, toward zero: at or below it for x >= 0, at or above it for x < 0 |
| VoiceAgentFixed.Pcm16Bytes | xai-voice-agent-FIXED.js:355-360 | the PCM16 buffer has two bytes per sample |
| VoiceAgentFixed.Pcm16BytesReadBack | xai-voice-agent-FIXED.js:355-360 | reading the k-th little-endian pair back yields the k-th converted sample |
| VoiceAgentFixed.EncodeAudioData | xai-voice-agent-FIXED.js:347-361 | the encoding is `btoa` of the binary string of the PCM16 bytes of the samples |
| VoiceAgentFixed.U32LE | xai-voice-agent-FIXED.js:432 | `setUint32(..., true)` writes four bytes |
| VoiceAgentFixed.U16LE | xai-voice-agent-FIXED.js:438 | `setUint16(..., true)` writes two bytes |
| VoiceAgentFixed.U32LERoundTrip | xai-voice-agent-FIXED.js:432 | reading the four written bytes back gives the value modulo 2^32 |
| VoiceAgentFixed.U16LERoundTrip | xai-voice-agent-FIXED.js:438 | reading the two written bytes back gives the value modulo 2^16 |
| VoiceAgentFixed.WavHeader | xai-voice-agent-FIXED.js:426-455 | the WAV header is 44 bytes |
| VoiceAgentFixed.ReadU32LEShift | xai-voice-agent-FIXED.js:426-455 | a field read at an offset inside a later part of the header reads that part |
| VoiceAgentFixed.RiffDescriptorLayout | xai-voice-agent-FIXED.js:431-433 | "RIFF", then 36 + n, then "WAVE" |
| VoiceAgentFixed.FmtChunkLayout | xai-voice-agent-FIXED.js:436-443 | the fmt chunk: size 16, PCM, mono, 24000 Hz, 48000 bytes/s, block align 2, 16 bits |
| VoiceAgentFixed.DataHeaderLayout | xai-voice-agent-FIXED.js:446-447 | "data", then n |
| VoiceAgentFixed.WavHeaderRiff | xai-voice-agent-FIXED.js:431-433 | bytes 0-3 are "RIFF", bytes 4-7 read 36 + n (modulo 2^32), and bytes 8-11 are "WAVE" |
| VoiceAgentFixed.WavHeaderFmt | xai-voice-agent-FIXED.js:436-443 | bytes 12-35 hold the mono 16-bit 24 kHz PCM format fields at their offsets |
| VoiceAgentFixed.WavHeaderData | xai-voice-agent-FIXED.js:446-447 | bytes 36-39 are "data", and bytes 40-43 read the data length n |
| VoiceAgentFixed.WriteString | xai-voice-agent-FIXED.js:457-461 | the string's codes are written at the offset and nothing else changes |
| VoiceAgentFixed.SetUint32 | xai-voice-agent-FIXED.js:432 | four little-endian bytes are written at the offset and nothing else changes |
| VoiceAgentFixed.SetUint16 | xai-voice-agent-FIXED.js:438 | two little-endian bytes are written at the offset and nothing else changes |
| VoiceAgentFixed.AddWavHeader | xai-voice-agent-FIXED.js:426-455 | the buffer is the 44-byte header for the data length, followed by the data unchanged |
| VoiceAgentFixed.XAIVoiceAgent.constructor | xai-voice-agent-FIXED.js:13-49 | disconnected, panel hidden, not recording, nothing sent, nothing playing, cursor 0 |
| VoiceAgentFixed.XAIVoiceAgent.UpdateStatus | xai-voice-agent-FIXED.js:463-483 | the status text, the colour of the state, and pulsing exactly while listening or speaking |
| VoiceAgentFixed.XAIVoiceAgent.Connect | xai-voice-agent-FIXED.js:164-206 | nothing while connected; otherwise a CONNECTING socket with the connecting status, or the error status when the constructor throws |
| VoiceAgentFixed.XAIVoiceAgent.OnSocketOpen | xai-voice-agent-FIXED.js:174-182 | connected, OPEN, status Ready |
| VoiceAgentFixed.XAIVoiceAgent.OnSocketClose | xai-voice-agent-FIXED.js:184-195 | disconnected, CLOSED, exactly one more reconnect timer armed |
| VoiceAgentFixed.XAIVoiceAgent.OnSocketError | xai-voice-agent-FIXED.js:197-200 | only the status changes; no timer is armed |
| VoiceAgentFixed.XAIVoiceAgent.OnReconnectTimer | xai-voice-agent-FIXED.js:189-194 | one timer is consumed; it reconnects only while the panel is visible |
| VoiceAgentFixed.XAIVoiceAgent.TogglePanel | xai-voice-agent-FIXED.js:145-155 | the panel visibility flips, and opening the panel connects |
| VoiceAgentFixed.XAIVoiceAgent.ClosePanel | xai-voice-agent-FIXED.js:157-162 | the panel is hidden |
| VoiceAgentFixed.XAIVoiceAgent.QueueAudio | xai-voice-agent-FIXED.js:391-413 | the buffer is scheduled at SegmentStart, the cursor advances by exactly its duration, playback is on, and the schedule stays ordered without overlap; the buffer starts right at the previous cursor while playing with the cursor not behind the clock, otherwise at the current time |
| VoiceAgentFixed.XAIVoiceAgent.OnEnded | xai-voice-agent-FIXED.js:406-410 | as written: a source of positive duration never clears `isPlaying` |
| VoiceAgentFixed.XAIVoiceAgent.OnEndedWhenDrained | xai-voice-agent-FIXED.js:406-410 | corrected: playback is idle once the cursor is not ahead of the end time, and is always idle after the last source ends |
| VoiceAgentFixed.XAIVoiceAgent.PlayAudio | xai-voice-agent-FIXED.js:376-389 | a failing decode changes nothing; otherwise the decoded duration is queued |
| VoiceAgentFixed.XAIVoiceAgent.HandleMessage | xai-voice-agent-FIXED.js:208-252 | only an audio delta schedules audio, and a non-empty delta that decodes is queued exactly as `playAudio` queues it; one that does not decode, `session.created`, the transcript delta and unknown types leave the schedule, the cursor and the status unchanged; `response.done` sets Ready, speech start sets Listening and an error event sets the error status, each leaving the schedule, the cursor and the playing flag unchanged; unparsable text changes nothing |
| VoiceAgentFixed.XAIVoiceAgent.StartRecording | xai-voice-agent-FIXED.js:262-309 | with the microphone: stream, processor and recording with status Listening; without it, the stream, the processor and the recording flag are unchanged and the status is Microphone Error |
| VoiceAgentFixed.XAIVoiceAgent.StopRecording | xai-voice-agent-FIXED.js:311-344 | recording stops, the processor and stream are released, a commit frame is sent on an OPEN socket, and the status is Processing |
| VoiceAgentFixed.XAIVoiceAgent.ToggleRecording | xai-voice-agent-FIXED.js:254-260 | stops while recording; otherwise it is recording exactly when the microphone was granted |
| VoiceAgentFixed.XAIVoiceAgent.SendAudio | xai-voice-agent-FIXED.js:363-374 | one append frame is sent exactly when the socket is OPEN |
| VoiceAgentFixed.XAIVoiceAgent.OnAudioProcess | xai-voice-agent-FIXED.js:279-291 | while recording on an OPEN socket, one append frame of the encoded block is sent; otherwise nothing |
| VoiceAgentPublic.ArrayBufferToBase64 | public/xai-voice-agent.js:366-374 | the encoding is `btoa` of the binary string of the bytes |
| VoiceAgentPublic.ArrayBufferToBase64RoundTrip | public/xai-voice-agent.js:366-374 | when `atob` inverts `btoa` on binary strings, the receiver recovers the exact bytes |
| VoiceAgentPublic.XAIVoiceAgent.constructor | public/xai-voice-agent.js:7-35 | disconnected, panel hidden, no recorder, no chunks, nothing sent, nothing playing |
| VoiceAgentPublic.XAIVoiceAgent.UpdateStatus | public/xai-voice-agent.js:433-455 | the status text, the colour of the state, and pulsing exactly while listening or speaking |
| VoiceAgentPublic.XAIVoiceAgent.Connect | public/xai-voice-agent.js:168-212 | nothing while connected; otherwise a CONNECTING socket, or the error status when the constructor throws |
| VoiceAgentPublic.XAIVoiceAgent.OnSocketOpen | public/xai-voice-agent.js:178-188 | connected, OPEN, status Ready |
| VoiceAgentPublic.XAIVoiceAgent.OnSocketClose | public/xai-voice-agent.js:190-201 | disconnected, CLOSED, exactly one more reconnect timer armed |
| VoiceAgentPublic.XAIVoiceAgent.OnSocketError | public/xai-voice-agent.js:203-206 | only the status changes; no timer is armed |
| VoiceAgentPublic.XAIVoiceAgent.OnReconnectTimer | public/xai-voice-agent.js:195-200 | one timer is consumed; it reconnects only while the panel is visible |
| VoiceAgentPublic.XAIVoiceAgent.TogglePanel | public/xai-voice-agent.js:150-158 | the panel visibility flips, and opening the panel connects |
| VoiceAgentPublic.XAIVoiceAgent.ClosePanel | public/xai-voice-agent.js:160-165 | the panel is hidden |
| VoiceAgentPublic.XAIVoiceAgent.QueueAudio | public/xai-voice-agent.js:392-421 | the buffer is scheduled at SegmentStart, the cursor advances by its duration, and the schedule stays ordered without overlap; the buffer starts right at the previous cursor while playing with the cursor not behind the clock, otherwise at the current time |
| VoiceAgentPublic.XAIVoiceAgent.OnEnded | public/xai-voice-agent.js:413-417 | as written: a source of positive duration never clears `isPlaying` |
| VoiceAgentPublic.XAIVoiceAgent.OnEndedWhenDrained | public/xai-voice-agent.js:413-417 | corrected: playback is idle once the cursor is not ahead of the end time, and is always idle after the last source ends |
| VoiceAgentPublic.XAIVoiceAgent.PlayAudio | public/xai-voice-agent.js:376-390 | a failing decode changes nothing; otherwise the decoded duration is queued |
| VoiceAgentPublic.XAIVoiceAgent.HandleMessage | public/xai-voice-agent.js:214-251 | only an audio delta schedules audio, and a non-empty delta that decodes is queued exactly as `playAudio` queues it; one that does not decode, `session.created` and unknown types leave the schedule, the cursor and the status unchanged; `response.done`, speech start and error events set their status and leave the schedule, the cursor and the playing flag unchanged; unparsable text changes nothing |
| VoiceAgentPublic.XAIVoiceAgent.StartRecording | public/xai-voice-agent.js:261-311 | a refused microphone changes only the status; a recorder that cannot be created leaves the live stream and the old recorder and chunks; a recorder created whose `start` throws has replaced the recorder and emptied the chunks, without recording; otherwise it records with no chunks |
| VoiceAgentPublic.XAIVoiceAgent.OnDataAvailable | public/xai-voice-agent.js:279-283 | only a non-empty chunk is appended |
| VoiceAgentPublic.XAIVoiceAgent.StopRecording | public/xai-voice-agent.js:313-338 | only a recording recorder is stopped, which arms one pending `onstop` |
| VoiceAgentPublic.XAIVoiceAgent.ToggleRecording | public/xai-voice-agent.js:253-259 | stops while recording; otherwise it is recording exactly when the microphone, the recorder's creation and its start all succeed |
| VoiceAgentPublic.XAIVoiceAgent.SendAudio | public/xai-voice-agent.js:340-364 | on an OPEN socket, the whole blob is sent as one append followed by a commit; otherwise nothing |
| VoiceAgentPublic.XAIVoiceAgent.OnRecorderStop | public/xai-voice-agent.js:285-288 | the chunks held at that moment are sent as one blob, on an OPEN socket only |
| WebSocket.AfterClose | cloudflare-worker-CORRECT.js:170-179 | `close()` moves a CONNECTING or OPEN socket to CLOSING and leaves a closing or closed one alone |
| RelayWire.Rebuild | cloudflare-worker-CORRECT.js:53-83 | a frame is forwarded exactly when its type is allow-listed; an append keeps only its type and audio, any other type keeps only its type |
| RelayWire.RebuildIdempotent | cloudflare-worker-CORRECT.js:53-83 | rebuilding a rebuilt frame gives the same frame |
| RelayWire.CountUpdatesSnoc | cloudflare-worker-CORRECT.js:86-141 | one more frame adds one `session.update` exactly when it is one |
| RelayCorrect.Config | cloudflare-worker-CORRECT.js:86-141 | collections search with the collection id, tool choice auto, whisper-1 transcription, 300 ms padding, no temperature, the detailed persona |
| RelayWire.WorkerCloseFor | cloudflare-worker-CORRECT.js:170-179 | the upstream's code, and its reason or a non-empty fallback; cloudflare-worker-FINAL-FIX.js:147-156 closes the client the same way |
| RelayWire.WorkerRoute | cloudflare-worker-CORRECT.js:200-250 | 204 exactly for OPTIONS; the service JSON exactly for a non-upgrade request; 101 for an upgrade whose setup succeeds; 500 with the error JSON when it throws; cloudflare-worker-FINAL-FIX.js:175-225 routes the same way |
| RelayCorrect.Session.constructor | cloudflare-worker-CORRECT.js:24-51 | the upstream is CONNECTING and unconfigured, nothing sent, nothing closed |
| RelayCorrect.Session.OnClientMessage | cloudflare-worker-CORRECT.js:53-83 | an unreadable frame gets one parse error back; otherwise only an allow-listed frame goes upstream rebuilt, and only when the upstream is OPEN |
| RelayCorrect.Session.SendUpstream | cloudflare-worker-CORRECT.js:53-83 | a forwarded frame is appended and the one-configuration invariant is kept |
| RelayCorrect.Session.OnUpstreamOpen | cloudflare-worker-CORRECT.js:86-141 | exactly one `session.update`, as the first and only frame so far |
| RelayCorrect.Session.OnUpstreamMessage | cloudflare-worker-CORRECT.js:144-152 | the frame goes to the client verbatim when it is OPEN or CONNECTING |
| RelayCorrect.Session.OnUpstreamError | cloudflare-worker-CORRECT.js:155-167 | one error frame, only to an OPEN client |
| RelayCorrect.Session.OnUpstreamClose | cloudflare-worker-CORRECT.js:170-179 | an OPEN client is closed with the upstream's code and reason; otherwise the client is left alone |
| RelayCorrect.Session.OnClientClose | cloudflare-worker-CORRECT.js:182-187 | an OPEN upstream is closed with 1000 "Client disconnected" |
| RelayCorrect.Session.OnClientError | cloudflare-worker-CORRECT.js:190-195 | an OPEN upstream is closed with 1001 "Client error" |
| RelayWire.WorkerAllowListExact | cloudflare-worker-CORRECT.js:53-83 | exactly append, commit and `response.create` pass, an append keeps only its audio, and `session.update` from a client never does; cloudflare-worker-FINAL-FIX.js:47-70 and preview/grok-voice-worker.js:52-78 filter with the same list |
| RelayFinalFix.Config | cloudflare-worker-FINAL-FIX.js:73-129 | as the CORRECT worker, plus temperature 0.8 |
| RelayFinalFix.Session.constructor | cloudflare-worker-FINAL-FIX.js:22-45 | the upstream is CONNECTING and unconfigured, nothing sent |
| RelayFinalFix.Session.OnClientMessage | cloudflare-worker-FINAL-FIX.js:47-70 | an unreadable frame sends nothing; otherwise only an allow-listed frame goes upstream rebuilt, when the upstream is OPEN |
| RelayFinalFix.Session.SendUpstream | cloudflare-worker-FINAL-FIX.js:47-70 | a forwarded frame is appended and the one-configuration invariant is kept |
| RelayFinalFix.Session.OnUpstreamOpen | cloudflare-worker-FINAL-FIX.js:73-129 | exactly one `session.update`, as the first frame |
| RelayFinalFix.Session.OnUpstreamMessage | cloudflare-worker-FINAL-FIX.js:132-140 | verbatim to an OPEN client only |
| RelayFinalFix.Session.OnUpstreamError | cloudflare-worker-FINAL-FIX.js:143-145 | nothing is sent and nothing is closed |
| RelayFinalFix.Session.OnUpstreamClose | cloudflare-worker-FINAL-FIX.js:147-156 | an OPEN client is closed with the upstream's code and reason |
| RelayFinalFix.Session.OnClientClose | cloudflare-worker-FINAL-FIX.js:158-163 | an OPEN upstream is closed with 1000 |
| RelayFinalFix.Session.OnClientError | cloudflare-worker-FINAL-FIX.js:165-170 | an OPEN upstream is closed with 1001 |
| RelayRailway.Config | railway-voice-server/server.js:87-149 | tools and tool choice exactly when the collection id is truthy; temperature 0.8, whisper-1, 300 ms padding |
| RelayRailway.RagFlag | railway-voice-server/server.js:40 | "enabled" exactly when the collection id is truthy |
| RelayRailway.RagFlagAgreesWithConfig | railway-voice-server/server.js:40 | the health report says RAG is enabled exactly when the session carries tools |
| RelayRailway.Session.constructor | railway-voice-server/server.js:69-85 | the client is OPEN, the upstream CONNECTING and not connected, nothing sent |
| RelayRailway.Session.OnUpstreamOpen | railway-voice-server/server.js:87-149 | connected, and exactly one `session.update` as the first frame |
| RelayRailway.Session.OnClientMessage | railway-voice-server/server.js:152-169 | any parsed frame, of any type, goes upstream re-serialised while the upstream is OPEN; unparsable text is dropped |
| RelayRailway.Session.OnUpstreamMessage | railway-voice-server/server.js:172-190 | verbatim to an OPEN client only |
| RelayRailway.Session.OnUpstreamError | railway-voice-server/server.js:193-204 | an error frame with message and details to an OPEN client |
| RelayRailway.Session.OnUpstreamClose | railway-voice-server/server.js:207-214 | not connected; an OPEN client is closed with 1000 "xAI connection closed"; any other client is left alone |
| RelayRailway.Session.OnClientClose | railway-voice-server/server.js:217-223 | an OPEN upstream is closed |
| RelayRailway.Session.OnClientError | railway-voice-server/server.js:226-232 | an OPEN upstream is closed |
| RelayPreviewWorker.Config | preview/grok-voice-worker.js:81-119 | one retrieval tool with the collection id, the brief persona, no transcription, padding or temperature |
| RelayPreviewWorker.Route | preview/grok-voice-worker.js:168-198 | 204 for OPTIONS, the plain-text banner for non-upgrades, 101 or a plain-text 500 for upgrades |
| RelayPreviewWorker.Session.constructor | preview/grok-voice-worker.js:23-50 | the upstream is CONNECTING and unconfigured, nothing sent |
| RelayPreviewWorker.Session.OnClientMessage | preview/grok-voice-worker.js:52-78 | an unreadable frame sends nothing; otherwise only an allow-listed frame goes upstream rebuilt, when the upstream is OPEN |
| RelayPreviewWorker.Session.SendUpstream | preview/grok-voice-worker.js:52-78 | a forwarded frame is appended and the one-configuration invariant is kept |
| RelayPreviewWorker.Session.OnUpstreamOpen | preview/grok-voice-worker.js:81-119 | exactly one `session.update`, as the first frame |
| RelayPreviewWorker.Session.OnUpstreamMessage | preview/grok-voice-worker.js:122-128 | every upstream frame goes to the client verbatim, whatever its state |
| RelayPreviewWorker.Session.OnUpstreamError | preview/grok-voice-worker.js:131-137 | one "xAI connection error" frame to the client |
| RelayPreviewWorker.Session.OnUpstreamClose | preview/grok-voice-worker.js:140-147 | the client is always closed with the upstream's code and reason |
| RelayPreviewWorker.Session.OnClientClose | preview/grok-voice-worker.js:150-155 | an OPEN upstream is closed with the client's code and reason |
| RelayPreviewWorker.Session.OnClientError | preview/grok-voice-worker.js:158-163 | an OPEN upstream is closed |
| RelayDeno.Config | preview/grok-voice-relay.ts:48-85 | collections search, tool choice auto, whisper-1, the brief persona, no temperature or padding |
| RelayDeno.Route | preview/grok-voice-relay.ts:2-11 | 426 "Expected Upgrade: websocket" exactly when the request is not a `websocket` upgrade, 101 otherwise |
| RelayDeno.PreflightRefused | preview/grok-voice-relay.ts:6-8 | a CORS preflight without the upgrade header is refused with 426 |
| RelayDeno.Session.constructor | preview/grok-voice-relay.ts:10-22 | the upstream is CONNECTING, nothing sent |
| RelayDeno.Session.OnClientMessage | preview/grok-voice-relay.ts:29-45 | only commit and append go upstream rebuilt, in any upstream state; an unreadable frame sends nothing |
| RelayDeno.Session.SendUpstream | preview/grok-voice-relay.ts:29-45 | a forwarded frame is appended and is never a configuration |
| RelayDeno.Session.OnUpstreamOpen | preview/grok-voice-relay.ts:48-85 | one `session.update` is appended, and the frames hold exactly one |
| RelayDeno.Session.OnUpstreamMessage | preview/grok-voice-relay.ts:87-90 | every upstream frame goes to the client verbatim |
| RelayDeno.Session.OnUpstreamError | preview/grok-voice-relay.ts:92-94 | nothing is sent and nothing is closed |
| RelayDeno.Session.OnUpstreamClose | preview/grok-voice-relay.ts:96-98 | the client is left open and nothing is closed |
| RelayDeno.Session.OnClientClose | preview/grok-voice-relay.ts:100-102 | the upstream is always closed, without code or reason |
| RelayDeno.AllowListExact | preview/grok-voice-relay.ts:29-45 | exactly commit and append pass; `response.create` never does |
| ShopifyScraper.PrependPrepend | scrape_shopify_store.py:22-44 | accumulating two pages in turn equals accumulating them together |
| ShopifyScraper.ScrapeShopifyJson | scrape_shopify_store.py:6-50 | the pagination loop yields the recursive page walk: pages accumulate until an empty, short or failed page |
| ShopifyScraper.PaginateConcatenates | scrape_shopify_store.py:22-44 | a successful walk is the concatenation of consecutive answered pages, all but the last of them full (250 products) |
| ShopifyScraper.PaginateIgnoresLaterPages | scrape_shopify_store.py:35-44 | after a failed or short page, later responses do not affect the result |
| ShopifyScraper.ProductUrl | scrape_shopify_store.py:82-85 | an absolute `http` link is kept, and any other link is prefixed with the store URL; the href is always the tail |
| ShopifyScraper.ImageUrl | scrape_shopify_store.py:103-109 | a protocol-relative source gets `https:`; empty exactly when there is no usable source |
| ShopifyScraper.TileProduct | scrape_shopify_store.py:76-126 | a product exactly for a tile with a link and a non-empty name; its type is empty |
| ShopifyScraper.TileWithoutTitleOrAltSkipped | scrape_shopify_store.py:88-100 | a tile with no title text and no image alt is skipped, whatever the link text (the precedence of line 97) |
| ShopifyScraper.TileHandle | scrape_shopify_store.py:119 | the handle is the URL's last `/products/` segment |
| ShopifyScraper.TileProductsFromTiles | scrape_shopify_store.py:76-126 | at most one product per tile, and every product comes from a tile |
| ShopifyScraper.ScrapeShopifyHtml | scrape_shopify_store.py:52-133 | no page gives nothing, and an empty product list also gives nothing; otherwise the tiles' products |
| ShopifyScraper.FormatPrice | scrape_shopify_store.py:147-151 | the price starts with `$`, and a price without one gets exactly one prefixed |
| ShopifyScraper.FormatPriceIdempotent | scrape_shopify_store.py:147-151 | formatting twice is formatting once |
| ShopifyScraper.ProductLinkFor | scrape_shopify_store.py:158-159 | a link exactly when there is a handle: the store URL, `/products/`, then the handle |
| ShopifyScraper.ShopifyCategoryIsFirstMatch | scrape_shopify_store.py:161-177 | the category chain decides as the first matching rule of its keyword table |
| ShopifyScraper.ShopifyCategoryKnown | scrape_shopify_store.py:164-177 | every category is one of the seven |
| ShopifyScraper.SweatshirtTypeIsTShirt | scrape_shopify_store.py:165 | a `sweatshirt` product type is filed as T-Shirts, because it contains `shirt` |
| ShopifyScraper.CleanBody | scrape_shopify_store.py:187 | the body after both tag removals and `strip()`: no longer than the body, no whitespace at either end |
| ShopifyScraper.Description | scrape_shopify_store.py:187 | never empty; when the cleaned body is non-empty, its prefix whose length is the smaller of 200 and its length; otherwise the collection sentence |
| ShopifyScraper.PlainBodyIsDescription | scrape_shopify_store.py:187 | a body of at most 200 characters with no `<p>`, no `</p>` and no whitespace at its ends is its own description |
| ShopifyScraper.TransformOne | scrape_shopify_store.py:135-190 | id is the position plus one; the price starts with `$`; a link exactly when there is a handle; a description |
| ShopifyScraper.TransformAll | scrape_shopify_store.py:135-190 | one record per product |
| ShopifyScraper.TransformAllAt | scrape_shopify_store.py:139-141 | the record at position i is the transform of the i-th product, with id i + 1: nothing is dropped, reordered or renumbered |
| ShopifyScraper.MapIndexedAt | scrape_shopify_store.py:139-141 | the i-th element of an enumerate-map is the function applied to the i-th element and i |
| ShopifyScraper.MapIndexedLoop | scrape_shopify_store.py:139-141 | the enumerate loop yields the indexed map of the inputs, in order |
| ShopifyScraper.TransformShopifyProducts | scrape_shopify_store.py:139-190 | the loop yields the record of every product in order |
| ShopifyScraper.TileRecord | scrape_shopify_store.py:117-124 | an HTML product's price is `$` followed by the scraped price without `$`; it is categorised by its name alone and gets the fallback description |
| ShopifyScraper.ScrapeShopifyStore | scrape_shopify_store.py:192-217 | the JSON products when there are any, else the HTML products when there are any, else none |
| ShopifyScraper.DisplayResults | scrape_shopify_store.py:219-235 | nothing for no products; otherwise the store, the total and each category's count, the counts adding up to the total |
| SpringTiles.SpringCategoryIsFirstMatch | scrape_spring_store_complete.py:70-86 | the chain decides as the first matching rule of its table, over name or type |
| SpringTiles.SpringCategoryKnown | scrape_spring_store_complete.py:70-86 | every category is one of the seven |
| SpringTiles.SweatshirtIsTShirt | scrape_spring_store_complete.py:75 | a sweatshirt name is filed as T-Shirts |
| SpringTiles.ExtractProductsFromHtml | scrape_spring_store_complete.py:19-100 | the tile loop yields the page extraction: first sighting of each link, named tiles only |
| SpringTiles.ExtractSeenLinks | scrape_spring_store_complete.py:39-41 | the seen links are exactly the links of the tiles that have one |
| SpringTiles.ExtractLinksDistinct | scrape_spring_store_complete.py:39-41 | within a page no two records share a link |
| SpringTiles.ExtractFromNamedTiles | scrape_spring_store_complete.py:43-95 | at most one record per tile; each comes from a tile with a link and a non-empty name |
| SpringTiles.NamelessTileConsumesLink | scrape_spring_store_complete.py:39-52 | a nameless tile still marks its link seen, so no record carries that link |
| SpringTiles.AllPageProductsPrefix | scrape_spring_store_complete.py:128-147 | the products of the first pages are a prefix of all pages' products |
| SpringTiles.MergedPrefix | scrape_spring_store_complete.py:139-145 | merging the first pages gives a prefix of the full merge |
| SpringTiles.AddUnseen | scrape_spring_store_complete.py:139-145 | adding a page's products keeps the first product of each key, and counts the new ones |
| SpringTiles.MergePages | scrape_spring_store_complete.py:128-147 | the merge of all pages by `name|link`, and per page the number of new products |
| SpringTiles.MergedKeysUnique | scrape_spring_store_complete.py:139-145 | the catalogue has unique keys and keeps every key scraped |
| SpringTiles.AllCategoriesKnown | scrape_spring_store_complete.py:70-86 | every scraped and merged product has one of the seven categories |
| SpringTiles.Numbered | scrape_spring_store_complete.py:150-152 | ids 1..n in order, descriptions from the names, and nothing else changes |
| SpringTiles.AssignIds | scrape_spring_store_complete.py:150-152 | numbering in place gives the numbered catalogue |
| SpringTiles.ScrapeStorePages | scrape_spring_store_complete.py:111-152 | the numbered merge of the pages, with each page's new-product count |
| SpringComplete.ScrapeSpringStoreComplete | scrape_spring_store_complete.py:102-153 | the numbered merge of the seven pages: ids 1..n, descriptions from names, unique `name|link` keys |
| SpringComplete.DisplayCompleteResults | scrape_spring_store_complete.py:156-172 | nothing for no products; otherwise each category's count, the counts adding up to the total |
| NoriLamour.ScrapeNoriLamourStore | scrape_nori_lamour.py:98-145 | the numbered merge with the Nori L'Amour description; never the initial "Apparel" |
| NoriLamour.CategoryBreakdown | scrape_nori_lamour.py:161-164 | each occurring category's count, the counts adding up to the total |
| SpringFinal.FinalCategoryIsFirstMatch | scrape_spring_store_final.py:63-73 | the name-only chain decides as its table, whatever the type, and yields one of four categories |
| SpringFinal.ScrapeSpringStore | scrape_spring_store_final.py:5-88 | a failed fetch gives no records; otherwise the tile scan |
| SpringFinal.ScanInvariant | scrape_spring_store_final.py:31-86 | names are unique, non-empty and seen; ids run 1..n in order |
| SpringFinal.ScanRecordsFromTiles | scrape_spring_store_final.py:31-86 | every record comes from a linked tile with its name, link and price, its own description and its category |
| SpringBasic.SelectCards | scrape_spring_store.py:27-31 | the test-id cards only when the class selector finds none |
| SpringBasic.BasicCategory | scrape_spring_store.py:59 | "Apparel" exactly when the name contains "Tee" or "Hoodie", case-sensitively; "Merch" otherwise |
| SpringBasic.LowerCaseNameIsMerch | scrape_spring_store.py:59 | a name without capital T or H is Merch even if it says "tee" |
| SpringBasic.JoinLink | scrape_spring_store.py:51-53 | the domain is prefixed to root-relative links only |
| SpringBasic.CardRecord | scrape_spring_store.py:35-65 | a card whose anchor has no href is skipped; otherwise id is the position plus one, with the name and price fallbacks and the description |
| SpringBasic.ScrapeSpringStore | scrape_spring_store.py:5-73 | no records when the fetch fails; otherwise the records of the selected cards |
| SpringBasic.CardIdsIncrease | scrape_spring_store.py:56 | ids strictly increase and lie in 1..n, with gaps for skipped cards |
| SpringBasic.CardIdsConsecutive | scrape_spring_store.py:56 | with no skipped card, the ids are exactly 1..n |

## Left out

- `Text.Lower` lowers ASCII letters only. Python's `str.lower` also folds non-ASCII letters. The model has no Unicode tables.
- The HTML parsing (BeautifulSoup selectors, `find`, attribute lookup) and every HTTP fetch are inputs. Tiles, cards and page responses are given as datatypes, and a failed fetch is `None` or `Failed`.
- Per-item exceptions are modelled only where the modelled data can raise one. One example is the basic scraper's anchor without `href`, whose `startswith` raises.
- JSON `null` values in the Shopify products are not distinguished from absent keys. Both read as the `.get` default.
- `ShopifyScraper.ScrapeShopifyJson`: the pagination walks only the responses it is given. A page past the last response reads as empty, which is the fuel bound for an unbounded `while True`.
- Printing, writing JSON files, `time.sleep`, and the sorted order of the printed category lines are left out. The summaries return the counts instead.
- The basic Spring scraper returns `None` in all cases. `SpringBasic.ScrapeSpringStore` returns the records it prints.
- The initial ready state of a Workers client socket is a constructor parameter.
- A `send` on a socket that is not OPEN, and a `close` with an invalid code, are recorded as performed. Several handlers send or close without a readiness check: `RelayDeno.Session.OnClientMessage` and `RelayDeno.Session.OnClientClose` act on the upstream in any state, and `RelayDeno.Session.OnUpstreamMessage` and `RelayPreviewWorker.Session.OnUpstreamMessage`, `OnUpstreamError` and `OnUpstreamClose` act on the client in any state. There the platform may throw (a CONNECTING socket) or drop the frame (a closed one). The model appends the frame to the sent list either way.
- An uncaught exception in the Deno relay's upgrade path, which the platform turns into a 500, is left out.
- The Railway relay forwards a client frame `null` as the JSON text `null`. The model reserialises the parsed value without distinguishing it.
- The static configuration (modalities, voice, formats, VAD threshold, silence duration) is left out. The persona texts are an enumeration, not their wording.
- The UI construction, the waveform visualisation, and the internals of Web Audio (`AudioContext`, `ScriptProcessor`, `decodeAudioData`) are left out. Durations and decode results are inputs.
- `VoiceAgentFixed.XAIVoiceAgent.Connect` keeps a single socket. `isConnected` is still false while a socket is CONNECTING, so a second `connect()` (the panel reopened, or a reconnect timer firing during a pending attempt) opens a second WebSocket. The model overwrites its one socket; the earlier socket, whose `onopen` and `onclose` still fire, is not modelled.
- `VoiceAgentPublic.XAIVoiceAgent.Connect` keeps a single socket, with the same gap: a `connect()` while a socket is CONNECTING leaks the earlier socket, whose handlers are not modelled.
- `VoiceAgentFixed.XAIVoiceAgent.StartRecording` runs as one step. In the source it awaits `getUserMedia` before it sets `isRecording`, so a second click or Space press during that await starts a second capture; the later stream and processor overwrite the earlier ones, which stay live. The model does not capture this interleaving.
- `VoiceAgentFixed.XAIVoiceAgent.ToggleRecording` runs as one step, so it does not capture a toggle that arrives while an earlier `startRecording` is still awaiting the microphone.
- `VoiceAgentPublic.XAIVoiceAgent.StartRecording` runs as one step. In the source a second start during the `getUserMedia` await creates a second stream and recorder; `stopRecording` then stops only the last recorder and stream, and the first recorder keeps recording. The model does not capture this interleaving.
- `VoiceAgentPublic.XAIVoiceAgent.ToggleRecording` runs as one step, so it does not capture a toggle that arrives while an earlier `startRecording` is still awaiting the microphone.
- `VoiceAgentPublic.XAIVoiceAgent.SendAudio` checks for OPEN and sends in one step. In the source it awaits `audioBlob.arrayBuffer()` between the check and the two sends, so a close during that await makes it send on a CLOSING or CLOSED socket. The model does not capture this interleaving.
- `VoiceAgentPublic.XAIVoiceAgent.OnRecorderStop` builds the blob and sends it in one step, with the same gap as `SendAudio`: it does not capture the socket state changing during the await.
- `VoiceAgentFixed.XAIVoiceAgent.PlayAudio` and `VoiceAgentPublic.XAIVoiceAgent.PlayAudio` decode and queue in one step. In the source `decodeAudioData` is awaited, so later messages can be handled before a buffer is queued. The model queues each buffer at the time its message is handled.
- `VoiceAgentFixed.XAIVoiceAgent.StartRecording` does not separate the failure of `getUserMedia` from a failure later in the same `try`. Both are modelled as a refused microphone.
- `scrape_spring_store_enhanced.py` and `test-enhanced-website.js` are not part of this model. They are only fetch-and-print scripts.
- `src/App.js` and `src/index.js`, the React shell of the site, are not part of this model.

## Findings

| source | as written | input that shows it | evidently intended | confidence | as-written member | corrected member |
|---|---|---|---|---|---|---|
| xai-voice-agent-FIXED.js:406-410 | `onended` compares the cursor with the `now` captured when the buffer was queued, which the cursor has already passed by the buffer's duration | any buffer of positive duration that plays to its end with nothing queued after it: `isPlaying` stays true | playback becomes idle once the cursor is not ahead of the time the source ended | not executed | VoiceAgentFixed.XAIVoiceAgent.OnEnded | VoiceAgentFixed.XAIVoiceAgent.OnEndedWhenDrained |
| public/xai-voice-agent.js:413-417 | the same `onended` comparison against the queue-time `now` | a single buffer of positive duration played to its end: `isPlaying` stays true | playback becomes idle once the cursor is not ahead of the time the source ended | not executed | VoiceAgentPublic.XAIVoiceAgent.OnEnded | VoiceAgentPublic.XAIVoiceAgent.OnEndedWhenDrained |
