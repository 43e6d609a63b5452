/** The browser voice client that streams PCM16 frames as it captures them and
    wraps every received audio delta in a WAV header before decoding it. */
module VoiceAgentFixed {
  import opened Wrappers
  import opened VoiceCommon
  import opened WebSocket

  /** `this.sampleRate`. */
  const SampleRate: int := 24000

  // ===========================================================================
  // PCM16 quantiser: Float32 sample -> Int16

  function Max(a: real, b: real): real { if a >= b then a else b }
  function Min(a: real, b: real): real { if a <= b then a else b }

  /** `Math.max(-1, Math.min(1, x))`. */
  function Clamp(x: real): (s: real)
    ensures -1.0 <= s <= 1.0
  {
    Max(-1.0, Min(1.0, x))
  }

  /** The real value `s < 0 ? s * 0x8000 : s * 0x7fff`. */
  function Scale(s: real): real {
    if s < 0.0 then s * 32768.0 else s * 32767.0
  }

  /** Truncation toward zero, the first step of storing a number in an `Int16Array`. */
  function Truncate(v: real): int {
    if v < 0.0 then -((-v).Floor) else v.Floor
  }

  /** The second step: reduction modulo 2^16 into [-32768, 32767]. */
  function WrapInt16(t: int): (q: int)
    ensures -32768 <= q <= 32767
  {
    (t + 32768) % 65536 - 32768
  }

  /** `int16Array[i]` after `int16Array[i] = s < 0 ? s * 0x8000 : s * 0x7fff`. */
  function Pcm16(x: real): (q: int)
    ensures -32768 <= q <= 32767
  {
    WrapInt16(Truncate(Scale(Clamp(x))))
  }

  /** Clamping before scaling keeps the scaled value inside the Int16 range, so
      the store never wraps around. */
  lemma Pcm16NoWraparound(x: real)
    ensures Pcm16(x) == Truncate(Scale(Clamp(x)))
  {
    var s := Clamp(x);
    var t := Truncate(Scale(s));
    if s < 0.0 {
      assert -32768.0 <= s * 32768.0 < 0.0;
      assert 0.0 < -(s * 32768.0) <= 32768.0;
      assert 0 <= (-(s * 32768.0)).Floor <= 32768;
    } else {
      assert 0.0 <= s * 32767.0 <= 32767.0;
      assert 0 <= (s * 32767.0).Floor <= 32767;
    }
    assert -32768 <= t <= 32767;
  }

  /** The sample's sign is kept: a negative sample never yields a positive
      Int16 and a non-negative one never yields a negative Int16. */
  lemma Pcm16Sign(x: real)
    ensures x < 0.0 ==> Pcm16(x) <= 0
    ensures x >= 0.0 ==> Pcm16(x) >= 0
  {
    Pcm16NoWraparound(x);
    var s := Clamp(x);
    if x < 0.0 {
      assert s < 0.0;
      assert (-(s * 32768.0)).Floor >= 0;
    } else {
      assert s >= 0.0;
      assert (s * 32767.0).Floor >= 0;
    }
  }

  /** Out-of-range samples saturate at the extremes instead of wrapping. */
  lemma Pcm16Saturates(x: real)
    ensures x >= 1.0 ==> Pcm16(x) == 32767
    ensures x <= -1.0 ==> Pcm16(x) == -32768
  {
    Pcm16NoWraparound(x);
    if x >= 1.0 {
      assert Clamp(x) == 1.0;
      assert Scale(1.0) == 32767.0;
    } else if x <= -1.0 {
      assert Clamp(x) == -1.0;
      assert Scale(-1.0) == -32768.0;
      assert (32768.0).Floor == 32768;
    }
  }

  /** Inside [-1, 1] the Int16 is within one quantisation step of the scaled
      sample, rounded toward zero. */
  lemma Pcm16Error(x: real)
    requires -1.0 <= x <= 1.0
    ensures x >= 0.0 ==> 0.0 <= x * 32767.0 - Pcm16(x) as real < 1.0
    ensures x < 0.0 ==> 0.0 <= Pcm16(x) as real - x * 32768.0 < 1.0
  {
    Pcm16NoWraparound(x);
    assert Clamp(x) == x;
  }

  /** Low byte of the little-endian Int16 `q` (two's complement). */
  function Lo(q: int): byte { (q % 65536) % 256 }

  /** High byte of the little-endian Int16 `q`. */
  function Hi(q: int): byte { (q % 65536) / 256 }

  /** The Int16 that a little-endian byte pair reads back as. */
  function ReadInt16(lo: byte, hi: byte): int {
    var u := lo as int + 256 * (hi as int);
    if u >= 32768 then u - 65536 else u
  }

  /** `new Uint8Array(int16Array.buffer)` for the quantised samples, on a
      little-endian platform. */
  function Pcm16Bytes(samples: seq<real>): (b: seq<byte>)
    ensures |b| == 2 * |samples|
  {
    seq(2 * |samples|, i requires 0 <= i < 2 * |samples| =>
      if i % 2 == 0 then Lo(Pcm16(samples[i / 2])) else Hi(Pcm16(samples[i / 2])))
  }

  /** Two bytes per sample, and each byte pair reads back as the sample's Int16. */
  lemma {:induction false} Pcm16BytesReadBack(samples: seq<real>, k: nat)
    requires k < |samples|
    ensures ReadInt16(Pcm16Bytes(samples)[2 * k], Pcm16Bytes(samples)[2 * k + 1]) == Pcm16(samples[k])
  {
    var q := Pcm16(samples[k]);
    var b := Pcm16Bytes(samples);
    assert (2 * k) / 2 == k && (2 * k + 1) / 2 == k;
    assert b[2 * k] == Lo(q) && b[2 * k + 1] == Hi(q);
    var u := q % 65536;
    assert u % 256 + 256 * (u / 256) == u;
    if q < 0 {
      assert u == q + 65536;
    } else {
      assert u == q;
    }
  }

  /** `encodeAudioData`: quantise every sample into an `Int16Array`, turn its
      bytes into a binary string and hand that to `btoa`. */
  method EncodeAudioData(float32Array: seq<real>, btoa: string -> string) returns (encoded: string)
    ensures encoded == btoa(BinaryString(Pcm16Bytes(float32Array)))
  {
    var n := |float32Array|;
    var int16Array := new int[n];
    for i := 0 to n
      invariant forall k :: 0 <= k < i ==> int16Array[k] == Pcm16(float32Array[k])
    {
      var s := Max(-1.0, Min(1.0, float32Array[i]));
      int16Array[i] := WrapInt16(Truncate(if s < 0.0 then s * 32768.0 else s * 32767.0));
    }
    var binary := "";
    for i := 0 to 2 * n
      invariant |binary| == i
      invariant binary == BinaryString(Pcm16Bytes(float32Array))[..i]
    {
      var sample := int16Array[i / 2];
      var b := if i % 2 == 0 then Lo(sample) else Hi(sample);
      binary := binary + [b as char];
    }
    assert binary == BinaryString(Pcm16Bytes(float32Array));
    encoded := btoa(binary);
  }

  // ===========================================================================
  // WAV header

  const TwoTo32: int := 0x1_0000_0000

  /** `view.setUint32(offset, v, true)`: `v` modulo 2^32, low byte first. */
  function U32LE(v: int): (b: seq<byte>)
    ensures |b| == 4
  {
    var u := v % TwoTo32;
    [u % 256, (u / 256) % 256, (u / 65536) % 256, u / 16777216]
  }

  /** `view.setUint16(offset, v, true)`: `v` modulo 2^16, low byte first. */
  function U16LE(v: int): (b: seq<byte>)
    ensures |b| == 2
  {
    var u := v % 65536;
    [u % 256, u / 256]
  }

  function ReadU32LE(b: seq<byte>, off: nat): int
    requires off + 4 <= |b|
  {
    b[off] as int + 256 * (b[off + 1] as int) + 65536 * (b[off + 2] as int)
    + 16777216 * (b[off + 3] as int)
  }

  function ReadU16LE(b: seq<byte>, off: nat): int
    requires off + 2 <= |b|
  {
    b[off] as int + 256 * (b[off + 1] as int)
  }

  lemma {:induction false} U32LERoundTrip(v: int)
    ensures ReadU32LE(U32LE(v), 0) == v % TwoTo32
  {
    var u := v % TwoTo32;
    var b := U32LE(v);
    var q1 := u / 256;
    var q2 := q1 / 256;
    assert u == u % 256 + 256 * q1;
    assert q1 == q1 % 256 + 256 * q2;
    assert q2 / 256 == u / 16777216 by {
      assert u / 65536 == q2;
    }
    assert q2 == q2 % 256 + 256 * (q2 / 256);
    assert (u / 65536) % 256 == q2 % 256;
  }

  lemma {:induction false} U16LERoundTrip(v: int)
    ensures ReadU16LE(U16LE(v), 0) == v % 65536
  {
    var u := v % 65536;
    assert u == u % 256 + 256 * (u / 256);
  }

  /** The RIFF chunk descriptor: "RIFF", the RIFF size 36 + n, "WAVE". */
  function RiffDescriptor(n: nat): (b: seq<byte>)
    ensures |b| == 12
  {
    CharCodes("RIFF") + U32LE(36 + n) + CharCodes("WAVE")
  }

  /** The `fmt ` sub-chunk: size 16, PCM, mono, 24000 Hz, 48000 bytes/s,
      block align 2, 16 bits per sample. */
  function FmtChunk(): (b: seq<byte>)
    ensures |b| == 24
  {
    CharCodes("fmt ") + U32LE(16) + U16LE(1) + U16LE(1)
    + U32LE(SampleRate) + U32LE(SampleRate * 2) + U16LE(2) + U16LE(16)
  }

  /** The `data` sub-chunk header: "data" and the byte count n. */
  function DataHeader(n: nat): (b: seq<byte>)
    ensures |b| == 8
  {
    CharCodes("data") + U32LE(n)
  }

  /** The 44-byte RIFF/WAVE header for `n` bytes of 16-bit mono PCM at 24 kHz. */
  function WavHeader(n: nat): (h: seq<byte>)
    ensures |h| == 44
  {
    RiffDescriptor(n) + FmtChunk() + DataHeader(n)
  }

  lemma {:induction false} ReadU32LEShift(a: seq<byte>, b: seq<byte>, off: nat)
    requires off + 4 <= |b|
    ensures ReadU32LE(a + b, |a| + off) == ReadU32LE(b, off)
  {
    assert (a + b)[|a| + off..|a| + off + 4] == b[off..off + 4];
  }

  lemma {:induction false} RiffDescriptorLayout(n: nat)
    ensures var r := RiffDescriptor(n);
      && r[0..4] == CharCodes("RIFF") && ReadU32LE(r, 4) == (36 + n) % TwoTo32
      && r[8..12] == CharCodes("WAVE")
  {
    U32LERoundTrip(36 + n);
    ReadU32LEShift(CharCodes("RIFF"), U32LE(36 + n) + CharCodes("WAVE"), 0);
    assert ReadU32LE(U32LE(36 + n) + CharCodes("WAVE"), 0) == ReadU32LE(U32LE(36 + n), 0);
  }

  lemma {:induction false} FmtChunkLayout()
    ensures var f := FmtChunk();
      && f[0..4] == CharCodes("fmt ")
      && ReadU32LE(f, 4) == 16 && ReadU16LE(f, 8) == 1 && ReadU16LE(f, 10) == 1
      && ReadU32LE(f, 12) == 24000 && ReadU32LE(f, 16) == 48000
      && ReadU16LE(f, 20) == 2 && ReadU16LE(f, 22) == 16
  {
    var f := FmtChunk();
    assert f == [102, 109, 116, 32, 16, 0, 0, 0, 1, 0, 1, 0, 192, 93, 0, 0, 128, 187, 0, 0, 2, 0, 16, 0];
  }

  lemma {:induction false} DataHeaderLayout(n: nat)
    ensures var d := DataHeader(n);
      d[0..4] == CharCodes("data") && ReadU32LE(d, 4) == n % TwoTo32
  {
    U32LERoundTrip(n);
    ReadU32LEShift(CharCodes("data"), U32LE(n), 0);
  }

  /** The RIFF descriptor of the header: "RIFF", the RIFF size 36 + n modulo
      2^32 (exact while it fits in 32 bits), "WAVE". */
  lemma {:induction false} WavHeaderRiff(n: nat)
    ensures WavHeader(n)[0..4] == CharCodes("RIFF")
    ensures ReadU32LE(WavHeader(n), 4) == (36 + n) % TwoTo32
    ensures 36 + n < TwoTo32 ==> ReadU32LE(WavHeader(n), 4) == 36 + n
    ensures WavHeader(n)[8..12] == CharCodes("WAVE")
  {
    var r, h := RiffDescriptor(n), WavHeader(n);
    RiffDescriptorLayout(n);
    assert h[0..12] == r;
    assert h[4..8] == r[4..8];
  }

  /** The `fmt ` sub-chunk of the header, at offsets 12 to 35. */
  lemma {:induction false} WavHeaderFmt(n: nat)
    ensures WavHeader(n)[12..16] == CharCodes("fmt ")
    ensures ReadU32LE(WavHeader(n), 16) == 16
    ensures ReadU16LE(WavHeader(n), 20) == 1 && ReadU16LE(WavHeader(n), 22) == 1
    ensures ReadU32LE(WavHeader(n), 24) == 24000 && ReadU32LE(WavHeader(n), 28) == 48000
    ensures ReadU16LE(WavHeader(n), 32) == 2 && ReadU16LE(WavHeader(n), 34) == 16
  {
    var f, h := FmtChunk(), WavHeader(n);
    FmtChunkLayout();
    assert h[12..36] == f;
    assert h[16..20] == f[4..8];
    assert h[20..22] == f[8..10];
    assert h[22..24] == f[10..12];
    assert h[24..28] == f[12..16];
    assert h[28..32] == f[16..20];
    assert h[32..34] == f[20..22];
    assert h[34..36] == f[22..24];
  }

  /** The `data` sub-chunk header: "data" and the byte count n modulo 2^32. */
  lemma {:induction false} WavHeaderData(n: nat)
    ensures WavHeader(n)[36..40] == CharCodes("data")
    ensures ReadU32LE(WavHeader(n), 40) == n % TwoTo32
    ensures n < TwoTo32 ==> ReadU32LE(WavHeader(n), 40) == n
  {
    var d, h := DataHeader(n), WavHeader(n);
    DataHeaderLayout(n);
    assert h[36..44] == d;
    assert h[40..44] == d[4..8];
  }

  /** `writeString(view, offset, string)`: one `setUint8` per char. */
  method WriteString(view: array<byte>, offset: nat, s: string)
    requires offset + |s| <= view.Length
    modifies view
    ensures view[..offset + |s|] == old(view[..offset]) + CharCodes(s)
    ensures view[offset + |s|..] == old(view[offset + |s|..])
  {
    for i := 0 to |s|
      invariant view[..offset] == old(view[..offset])
      invariant view[offset..offset + i] == CharCodes(s)[..i]
      invariant view[offset + |s|..] == old(view[offset + |s|..])
    {
      view[offset + i] := (s[i] as int) % 256;
    }
    assert view[..offset + |s|] == view[..offset] + view[offset..offset + |s|];
  }

  /** `view.setUint32(offset, v, true)`. */
  method SetUint32(view: array<byte>, offset: nat, v: int)
    requires offset + 4 <= view.Length
    modifies view
    ensures view[..offset + 4] == old(view[..offset]) + U32LE(v)
    ensures view[offset + 4..] == old(view[offset + 4..])
  {
    var b := U32LE(v);
    view[offset], view[offset + 1], view[offset + 2], view[offset + 3] := b[0], b[1], b[2], b[3];
    assert view[..offset + 4] == view[..offset] + b;
  }

  /** `view.setUint16(offset, v, true)`. */
  method SetUint16(view: array<byte>, offset: nat, v: int)
    requires offset + 2 <= view.Length
    modifies view
    ensures view[..offset + 2] == old(view[..offset]) + U16LE(v)
    ensures view[offset + 2..] == old(view[offset + 2..])
  {
    var b := U16LE(v);
    view[offset], view[offset + 1] := b[0], b[1];
    assert view[..offset + 2] == view[..offset] + b;
  }

  /** The RIFF descriptor written at offset 0. */
  method WriteRiffDescriptor(view: array<byte>, n: nat)
    requires 12 <= view.Length
    modifies view
    ensures view[..12] == RiffDescriptor(n)
    ensures view[12..] == old(view[12..])
  {
    WriteString(view, 0, "RIFF");
    SetUint32(view, 4, 36 + n);
    WriteString(view, 8, "WAVE");
  }

  /** The first half of the `fmt ` sub-chunk: its id, size, format and
      channel count, at offset 12. */
  method WriteFmtHead(view: array<byte>)
    requires 24 <= view.Length
    modifies view
    ensures view[..24] == old(view[..12]) + CharCodes("fmt ") + U32LE(16) + U16LE(1) + U16LE(1)
    ensures view[24..] == old(view[24..])
  {
    ghost var v0 := view[..12];
    ghost var tail := view[24..];
    assert view[16..][8..] == tail;
    WriteString(view, 12, "fmt ");
    assert view[16..][8..] == tail;
    ghost var v1 := view[..16];
    assert view[20..][4..] == tail;
    SetUint32(view, 16, 16);
    assert view[20..][4..] == tail;
    ghost var v2 := view[..20];
    assert v2 == v0 + CharCodes("fmt ") + U32LE(16);
    assert view[22..][2..] == tail;
    SetUint16(view, 20, 1);
    assert view[22..][2..] == tail;
    ghost var v3 := view[..22];
    assert v3 == v2 + U16LE(1);
    SetUint16(view, 22, 1);
    assert view[..24] == v3 + U16LE(1);
  }

  /** The second half of the `fmt ` sub-chunk: the rates, the block align
      and the sample width, at offset 24. */
  method WriteFmtTail(view: array<byte>)
    requires 36 <= view.Length
    modifies view
    ensures view[..36] == old(view[..24]) + U32LE(SampleRate) + U32LE(SampleRate * 2) + U16LE(2) + U16LE(16)
    ensures view[36..] == old(view[36..])
  {
    ghost var v0 := view[..24];
    ghost var tail := view[36..];
    assert view[28..][8..] == tail;
    SetUint32(view, 24, SampleRate);
    assert view[28..][8..] == tail;
    ghost var v1 := view[..28];
    assert view[32..][4..] == tail;
    SetUint32(view, 28, SampleRate * 2);
    assert view[32..][4..] == tail;
    ghost var v2 := view[..32];
    assert v2 == v0 + U32LE(SampleRate) + U32LE(SampleRate * 2);
    assert view[34..][2..] == tail;
    SetUint16(view, 32, 2);
    assert view[34..][2..] == tail;
    ghost var v3 := view[..34];
    assert v3 == v2 + U16LE(2);
    SetUint16(view, 34, 16);
    assert view[..36] == v3 + U16LE(16);
  }

  /** The `data` sub-chunk header written at offset 36. */
  method WriteDataHeader(view: array<byte>, n: nat)
    requires 44 <= view.Length
    modifies view
    ensures view[..44] == old(view[..36]) + DataHeader(n)
    ensures view[44..] == old(view[44..])
  {
    WriteString(view, 36, "data");
    SetUint32(view, 40, n);
  }

  /** `addWavHeader`: a buffer of exactly 44 + n bytes holding the header and
      then the PCM bytes unchanged. */
  method AddWavHeader(audioData: seq<byte>) returns (buffer: array<byte>)
    ensures buffer.Length == 44 + |audioData|
    ensures buffer[..44] == WavHeader(|audioData|)
    ensures buffer[44..] == audioData
  {
    var n := |audioData|;
    buffer := new byte[44 + n](_ => 0);
    WriteRiffDescriptor(buffer, n);
    WriteFmtHead(buffer);
    WriteFmtTail(buffer);
    assert buffer[..36] == RiffDescriptor(n) + FmtChunk();
    WriteDataHeader(buffer, n);
    ghost var header := buffer[..44];
    assert header == WavHeader(n);
    forall i | 0 <= i < n {
      buffer[44 + i] := audioData[i];
    }
    assert buffer[..44] == header;
    assert buffer[44..] == audioData;
  }

  /** The duration `decodeAudioData` yields for a received base64 delta, after
      `atob`, the byte loop and the WAV header; None when either step throws. */
  function PlayedDuration(base64: string, atob: string -> Option<string>,
                          decode: seq<byte> -> Option<Duration>): Option<Duration>
  {
    match atob(base64)
    case None => None
    case Some(binary) => decode(WavHeader(|binary|) + CharCodes(binary))
  }

  // ===========================================================================
  // The client object

  /** `XAIVoiceAgent`: the socket, the panel, the armed reconnect timers, the
      capture resources, the playback cursor and the status indicator. The
      socket is its ready state plus every frame handed to `send`. */
  class XAIVoiceAgent {
    var isConnected: bool
    var hasSocket: bool             // this.ws !== null
    var socketState: ReadyState     // this.ws.readyState
    var sent: seq<ClientFrame>      // frames passed to this.ws.send, oldest first
    var panelVisible: bool          // the panel carries the 'visible' class
    var pendingReconnects: nat      // armed 3000 ms reconnect timers not yet fired
    var isRecording: bool
    var hasProcessor: bool          // this.processor !== null
    var hasStream: bool             // this.stream !== null
    var nextStartTime: real         // this.audioPlayer.nextStartTime
    var isPlaying: bool             // this.audioPlayer.isPlaying
    var scheduled: seq<Segment>     // buffer sources started, oldest first
    ghost var clock: real           // the latest audioContext.currentTime observed
    var statusText: string
    var dotColor: string
    var pulsing: bool

    /** The playback schedule never overlaps and, once idle, the cursor is
        not ahead of the clock. */
    ghost predicate Valid()
      reads this
    {
      && clock >= 0.0
      && ScheduleInvariant(scheduled, nextStartTime, clock)
      && (!isPlaying ==> nextStartTime <= clock)
    }

    constructor ()
      ensures Valid()
      ensures !isConnected && !hasSocket && sent == [] && !panelVisible && pendingReconnects == 0
      ensures !isRecording && !hasProcessor && !hasStream
      ensures nextStartTime == 0.0 && !isPlaying && scheduled == []
    {
      isConnected, hasSocket, socketState, sent := false, false, Closed, [];
      panelVisible, pendingReconnects := false, 0;
      isRecording, hasProcessor, hasStream := false, false, false;
      nextStartTime, isPlaying, scheduled, clock := 0.0, false, [], 0.0;
      statusText, dotColor, pulsing := "Ready", "", false;
    }

    /** `updateStatus(status, state)`. */
    method UpdateStatus(status: string, state: string)
      modifies this`statusText, this`dotColor, this`pulsing
      ensures statusText == status && dotColor == DotColor(state) && pulsing == Pulses(state)
    {
      statusText := status;
      dotColor := if state in Colors then Colors[state] else Colors["disconnected"];
      pulsing := state == "listening" || state == "speaking";
    }

    /** `connect()`: nothing while connected; otherwise a new socket in the
        CONNECTING state, or the failure status when the constructor throws. */
    method Connect(constructOk: bool)
      modifies this`hasSocket, this`socketState, this`statusText, this`dotColor, this`pulsing
      ensures old(isConnected) ==> hasSocket == old(hasSocket) && socketState == old(socketState)
                                   && statusText == old(statusText) && dotColor == old(dotColor)
      ensures !old(isConnected) && constructOk ==>
                hasSocket && socketState == Connecting
                && statusText == "Connecting..." && dotColor == DotColor("connecting")
      ensures !old(isConnected) && !constructOk ==>
                hasSocket == old(hasSocket) && socketState == old(socketState)
                && statusText == "Connection Failed" && dotColor == DotColor("error")
    {
      if isConnected {
        return;
      }
      UpdateStatus("Connecting...", "connecting");
      if constructOk {
        hasSocket, socketState := true, Connecting;
      } else {
        UpdateStatus("Connection Failed", "error");
      }
    }

    /** `ws.onopen`. */
    method OnSocketOpen()
      requires hasSocket && socketState == Connecting
      modifies this`isConnected, this`socketState, this`statusText, this`dotColor, this`pulsing
      ensures isConnected && socketState == Open
      ensures statusText == "Ready" && dotColor == DotColor("ready")
    {
      socketState := Open;
      isConnected := true;
      UpdateStatus("Ready", "ready");
    }

    /** `ws.onclose`: disconnected, and exactly one more reconnect timer armed. */
    method OnSocketClose()
      requires hasSocket
      modifies this`isConnected, this`socketState, this`pendingReconnects,
               this`statusText, this`dotColor, this`pulsing
      ensures !isConnected && socketState == Closed
      ensures pendingReconnects == old(pendingReconnects) + 1
      ensures statusText == "Disconnected" && dotColor == DotColor("disconnected")
    {
      socketState := Closed;
      isConnected := false;
      UpdateStatus("Disconnected", "disconnected");
      pendingReconnects := pendingReconnects + 1;
    }

    /** `ws.onerror`: only the status changes; no timer is armed. */
    method OnSocketError()
      modifies this`statusText, this`dotColor, this`pulsing
      ensures statusText == "Connection Error" && dotColor == DotColor("error")
      ensures pendingReconnects == old(pendingReconnects) && isConnected == old(isConnected)
    {
      UpdateStatus("Connection Error", "error");
    }

    /** One armed 3000 ms timer fires: it reconnects only if the panel is visible. */
    method OnReconnectTimer(constructOk: bool)
      requires pendingReconnects > 0
      modifies this`pendingReconnects, this`hasSocket, this`socketState,
               this`statusText, this`dotColor, this`pulsing
      ensures pendingReconnects == old(pendingReconnects) - 1
      ensures !panelVisible ==> hasSocket == old(hasSocket) && socketState == old(socketState)
                                && statusText == old(statusText)
      ensures panelVisible && !isConnected && constructOk ==> hasSocket && socketState == Connecting
    {
      pendingReconnects := pendingReconnects - 1;
      if panelVisible {
        Connect(constructOk);
      }
    }

    /** `togglePanel()`: opening the panel connects. */
    method TogglePanel(constructOk: bool)
      modifies this`panelVisible, this`hasSocket, this`socketState,
               this`statusText, this`dotColor, this`pulsing
      ensures panelVisible == !old(panelVisible)
      ensures panelVisible && !isConnected && constructOk ==> hasSocket && socketState == Connecting
      ensures !panelVisible ==> hasSocket == old(hasSocket) && socketState == old(socketState)
    {
      panelVisible := !panelVisible;
      if panelVisible {
        Connect(constructOk);
      }
    }

    /** `closePanel()`: hides the panel, which stops later reconnects. */
    method ClosePanel()
      modifies this`panelVisible
      ensures !panelVisible
    {
      panelVisible := false;
    }

    /** `queueAudio(audioBuffer)` with the buffer's duration and the current
        `audioContext.currentTime`: start at now when idle or behind, otherwise
        at the cursor, and advance the cursor by exactly the duration. */
    method QueueAudio(duration: Duration, now: real)
      requires Valid() && now >= clock
      modifies this`nextStartTime, this`isPlaying, this`scheduled, this`clock,
               this`statusText, this`dotColor, this`pulsing
      ensures Valid() && clock == now && isPlaying
      ensures var start := SegmentStart(old(isPlaying), old(nextStartTime), now);
              scheduled == old(scheduled) + [Segment(start, duration, now)]
              && nextStartTime == start + duration
      ensures statusText == "Speaking..." && dotColor == DotColor("speaking")
    {
      ScheduleExtends(scheduled, nextStartTime, clock, isPlaying, now, duration);
      if !isPlaying || nextStartTime < now {
        nextStartTime := now;
        isPlaying := true;
      }
      scheduled := scheduled + [Segment(nextStartTime, duration, now)];
      nextStartTime := nextStartTime + duration;
      clock := now;
      UpdateStatus("Speaking...", "speaking");
    }

    /** The `onended` handler of the k-th scheduled source, as written: it
        compares the cursor with the `now` captured when that source was
        queued, so for a source of positive duration it never clears
        `isPlaying`. */
    method OnEnded(k: nat)
      requires Valid() && k < |scheduled|
      modifies this`isPlaying
      ensures Valid()
      ensures isPlaying == (old(isPlaying) && !(nextStartTime <= scheduled[k].queuedAt))
      ensures scheduled[k].duration > 0.0 ==> isPlaying == old(isPlaying)
    {
      if nextStartTime <= scheduled[k].queuedAt {
        isPlaying := false;
      }
    }

    /** The `onended` handler as evidently intended: playback is idle once the
        cursor is not ahead of the time at which the source ended. */
    method OnEndedWhenDrained(k: nat, endedAt: real)
      requires Valid() && k < |scheduled|
      requires endedAt >= clock && endedAt >= scheduled[k].start + scheduled[k].duration
      modifies this`isPlaying, this`clock
      ensures Valid() && clock == endedAt
      ensures isPlaying == (old(isPlaying) && endedAt < nextStartTime)
      ensures k == |scheduled| - 1 ==> !isPlaying
    {
      clock := endedAt;
      if nextStartTime <= endedAt {
        isPlaying := false;
      }
    }

    /** `playAudio(base64Audio)`: decode, add the WAV header, decode the audio
        and queue it; a failure at any step is caught and changes nothing. */
    method PlayAudio(base64Audio: string, atob: string -> Option<string>,
                     decode: seq<byte> -> Option<Duration>, now: real)
      requires Valid() && now >= clock
      modifies this`nextStartTime, this`isPlaying, this`scheduled, this`clock,
               this`statusText, this`dotColor, this`pulsing
      ensures Valid()
      ensures PlayedDuration(base64Audio, atob, decode).None? ==>
                scheduled == old(scheduled) && nextStartTime == old(nextStartTime)
                && isPlaying == old(isPlaying) && statusText == old(statusText)
                && dotColor == old(dotColor) && pulsing == old(pulsing)
      ensures PlayedDuration(base64Audio, atob, decode).Some? ==>
                var start := SegmentStart(old(isPlaying), old(nextStartTime), now);
                var d := PlayedDuration(base64Audio, atob, decode).value;
                scheduled == old(scheduled) + [Segment(start, d, now)]
                && nextStartTime == start + d && isPlaying && statusText == "Speaking..."
    {
      var audioData := Base64ToArrayBuffer(base64Audio, atob);
      if audioData.None? {
        return;
      }
      var wavBuffer := AddWavHeader(audioData.value);
      assert wavBuffer[..] == wavBuffer[..44] + wavBuffer[44..];
      var audioBuffer := decode(wavBuffer[..]);
      if audioBuffer.None? {
        return;
      }
      QueueAudio(audioBuffer.value, now);
    }

    /** `handleMessage(data)`: only a non-empty `response.output_audio.delta`
        reaches playback; malformed JSON is caught and changes nothing. */
    method HandleMessage(event: ServerEvent, atob: string -> Option<string>,
                         decode: seq<byte> -> Option<Duration>, now: real)
      requires Valid() && now >= clock
      modifies this`nextStartTime, this`isPlaying, this`scheduled, this`clock,
               this`statusText, this`dotColor, this`pulsing
      ensures Valid()
      ensures |scheduled| != |old(scheduled)| ==>
                event.Event? && event.kind == "response.output_audio.delta" && Truthy(event.delta)
      ensures event.Unparsable? ==>
                scheduled == old(scheduled) && nextStartTime == old(nextStartTime)
                && isPlaying == old(isPlaying) && statusText == old(statusText)
                && dotColor == old(dotColor) && pulsing == old(pulsing)
      ensures event.Event? && event.kind == "response.done" ==>
                statusText == "Ready" && dotColor == DotColor("ready") && !pulsing
                && scheduled == old(scheduled) && nextStartTime == old(nextStartTime)
                && isPlaying == old(isPlaying)
      ensures event.Event? && event.kind == "input_audio_buffer.speech_started" ==>
                statusText == "Listening..." && dotColor == DotColor("listening") && pulsing
                && scheduled == old(scheduled) && nextStartTime == old(nextStartTime)
                && isPlaying == old(isPlaying)
      ensures event.Event? && event.kind == "error" ==>
                statusText == "Error: " + event.error.GetOr("undefined") && dotColor == DotColor("error")
                && !pulsing
                && scheduled == old(scheduled) && nextStartTime == old(nextStartTime)
                && isPlaying == old(isPlaying)
      ensures event.Event? && event.kind == "response.output_audio.delta" && Truthy(event.delta)
              && PlayedDuration(event.delta.value, atob, decode).Some? ==>
                var start := SegmentStart(old(isPlaying), old(nextStartTime), now);
                var d := PlayedDuration(event.delta.value, atob, decode).value;
                scheduled == old(scheduled) + [Segment(start, d, now)]
                && nextStartTime == start + d && isPlaying && statusText == "Speaking..."
      ensures event.Event? && event.kind == "response.output_audio.delta"
              && !(Truthy(event.delta) && PlayedDuration(event.delta.value, atob, decode).Some?) ==>
                scheduled == old(scheduled) && nextStartTime == old(nextStartTime)
                && isPlaying == old(isPlaying) && statusText == old(statusText)
                && dotColor == old(dotColor) && pulsing == old(pulsing)
      ensures event.Event?
              && event.kind !in {"response.output_audio.delta", "response.done", "input_audio_buffer.speech_started", "error"} ==>
                scheduled == old(scheduled) && nextStartTime == old(nextStartTime)
                && isPlaying == old(isPlaying) && statusText == old(statusText)
                && dotColor == old(dotColor) && pulsing == old(pulsing)
    {
      if event.Unparsable? {
        return;
      }
      var kind := event.kind;
      if kind == "session.created" {
      } else if kind == "response.output_audio.delta" {
        if event.delta.Some? && event.delta.value != [] {
          PlayAudio(event.delta.value, atob, decode, now);
        }
      } else if kind == "response.output_audio_transcript.delta" {
      } else if kind == "response.done" {
        UpdateStatus("Ready", "ready");
      } else if kind == "input_audio_buffer.speech_started" {
        UpdateStatus("Listening...", "listening");
      } else if kind == "error" {
        UpdateStatus("Error: " + event.error.GetOr("undefined"), "error");
      }
    }

    /** `startRecording()`: on microphone access, the stream and processor
        exist and recording is on; on refusal, only the error status. */
    method StartRecording(micOk: bool)
      modifies this`hasStream, this`hasProcessor, this`isRecording,
               this`statusText, this`dotColor, this`pulsing
      ensures micOk ==> hasStream && hasProcessor && isRecording && statusText == "Listening..."
      ensures !micOk ==> hasStream == old(hasStream) && hasProcessor == old(hasProcessor)
                         && isRecording == old(isRecording) && statusText == "Microphone Error"
    {
      if !micOk {
        UpdateStatus("Microphone Error", "error");
        return;
      }
      hasStream := true;
      hasProcessor := true;
      isRecording := true;
      UpdateStatus("Listening...", "listening");
    }

    /** `stopRecording()`: always releases the processor and the stream and
        ends recording; the commit is sent only on an OPEN socket. */
    method StopRecording()
      modifies this`isRecording, this`hasProcessor, this`hasStream, this`sent,
               this`statusText, this`dotColor, this`pulsing
      ensures !isRecording && !hasProcessor && !hasStream
      ensures sent == old(sent) + (if hasSocket && socketState == Open then [CommitFrame] else [])
      ensures statusText == "Processing..." && dotColor == DotColor("processing")
    {
      isRecording := false;
      hasProcessor := false;
      hasStream := false;
      if hasSocket && socketState == Open {
        sent := sent + [CommitFrame];
      }
      UpdateStatus("Processing...", "processing");
    }

    /** `toggleRecording()`. */
    method ToggleRecording(micOk: bool)
      modifies this`hasStream, this`hasProcessor, this`isRecording, this`sent,
               this`statusText, this`dotColor, this`pulsing
      ensures old(isRecording) ==> !isRecording && !hasStream
      ensures !old(isRecording) ==> isRecording == micOk
    {
      if isRecording {
        StopRecording();
      } else {
        StartRecording(micOk);
      }
    }

    /** `sendAudio(base64Audio)`: one append frame, only on an OPEN socket. */
    method SendAudio(base64Audio: string)
      modifies this`sent
      ensures sent == old(sent) + (if hasSocket && socketState == Open then [AppendFrame(base64Audio)] else [])
    {
      if !hasSocket || socketState != Open {
        return;
      }
      sent := sent + [AppendFrame(base64Audio)];
    }

    /** The processor's `onaudioprocess` callback for one captured frame:
        nothing unless recording, else the encoded frame through `sendAudio`. */
    method OnAudioProcess(inputData: seq<real>, btoa: string -> string)
      modifies this`sent
      ensures sent == old(sent) + (if isRecording && hasSocket && socketState == Open
                                   then [AppendFrame(btoa(BinaryString(Pcm16Bytes(inputData))))]
                                   else [])
    {
      if !isRecording {
        return;
      }
      var encoded := EncodeAudioData(inputData, btoa);
      SendAudio(encoded);
    }
  }
}
