/** Definitions shared by both browser voice clients: bytes, outgoing
    frames, the binary-string conversions around
    `btoa`/`atob`, the status-dot colours and the playback schedule. */
module VoiceCommon {
  import opened Wrappers

  /** One element of a `Uint8Array`. */
  type byte = x: int | 0 <= x < 256

  /** A JSON frame the client passes to `ws.send`. */
  datatype ClientFrame =
    | AppendFrame(audio: string)  // {type: 'input_audio_buffer.append', audio}
    | CommitFrame                 // {type: 'input_audio_buffer.commit'}

  /** An event received from the relay, after `JSON.parse`. `error` is the
      string that `'Error: ' + event.error` concatenates: the message for a
      string payload, "[object Object]" for an object payload, and `None`
      (read as "undefined") when the field is absent. */
  datatype ServerEvent =
    | Unparsable
    | Event(kind: string, delta: Option<string>, error: Option<string>)

  /** A JavaScript value is truthy as a string exactly when it is a non-empty string. */
  predicate Truthy(v: Option<string>) {
    v.Some? && v.value != []
  }

  // ---------------------------------------------------------------------------
  // Binary strings: one char per byte, char code == byte

  /** The string `String.fromCharCode(b[0]) + ... + String.fromCharCode(b[n-1])`. */
  function BinaryString(b: seq<byte>): (r: string)
    ensures |r| == |b|
    ensures forall i :: 0 <= i < |b| ==> r[i] as int == b[i]
  {
    seq(|b|, i requires 0 <= i < |b| => b[i] as char)
  }

  /** The bytes `Uint8Array` stores for `s.charCodeAt(i)`: the code modulo 256. */
  function CharCodes(s: string): (r: seq<byte>)
    ensures |r| == |s|
  {
    seq(|s|, i requires 0 <= i < |s| => (s[i] as int) % 256)
  }

  /** A string every char of which has a code below 256, such as `atob` returns. */
  predicate IsBinary(s: string) {
    forall i :: 0 <= i < |s| ==> (s[i] as int) < 256
  }

  /** Bytes to a binary string and back is the identity. */
  lemma {:induction false} CharCodesOfBinaryString(b: seq<byte>)
    ensures CharCodes(BinaryString(b)) == b
  {
    var r := CharCodes(BinaryString(b));
    assert |r| == |b|;
    forall i | 0 <= i < |b| ensures r[i] == b[i] {
      assert BinaryString(b)[i] as int == b[i];
    }
  }

  /** A binary string to bytes and back is the identity. */
  lemma {:induction false} BinaryStringOfCharCodes(s: string)
    requires IsBinary(s)
    ensures BinaryString(CharCodes(s)) == s
  {
    var r := BinaryString(CharCodes(s));
    assert |r| == |s|;
    forall i | 0 <= i < |s| ensures r[i] == s[i] {
      assert CharCodes(s)[i] == s[i] as int;
    }
  }

  /** `base64ToArrayBuffer`: `atob`, then one byte per char of the result. */
  method Base64ToArrayBuffer(base64: string, atob: string -> Option<string>)
    returns (bytes: Option<seq<byte>>)
    ensures atob(base64).None? ==> bytes.None?
    ensures atob(base64).Some? ==> bytes == Some(CharCodes(atob(base64).value))
  {
    var decoded := atob(base64);
    if decoded.None? {
      return None;
    }
    var binaryString := decoded.value;
    var len := |binaryString|;
    var buf := new byte[len](_ => 0);
    for i := 0 to len
      invariant buf[..i] == CharCodes(binaryString)[..i]
    {
      buf[i] := (binaryString[i] as int) % 256;
    }
    assert buf[..] == buf[..len];
    assert CharCodes(binaryString)[..len] == CharCodes(binaryString);
    bytes := Some(buf[..]);
  }

  // ---------------------------------------------------------------------------
  // Status indicator

  const Disconnected := "#6b7280"

  /** The colour table of `updateStatus`. */
  const Colors: map<string, string> := map[
    "ready" := "#22c55e",
    "connecting" := "#eab308",
    "listening" := "#06b6d4",
    "speaking" := "#a855f7",
    "processing" := "#f97316",
    "error" := "#ef4444",
    "disconnected" := Disconnected
  ]

  /** `colors[state] || colors.disconnected`: the colour of a known state,
      the disconnected grey for any other. */
  function DotColor(state: string): (c: string)
    ensures c in Colors.Values
    ensures state in Colors ==> c == Colors[state]
    ensures state !in Colors ==> c == Disconnected
  {
    if state in Colors then Colors[state] else Colors["disconnected"]
  }

  /** The dot pulses only while listening or speaking. */
  predicate Pulses(state: string) {
    state == "listening" || state == "speaking"
  }

  // ---------------------------------------------------------------------------
  // Playback schedule

  /** A decoded buffer's duration in seconds. */
  type Duration = r: real | r >= 0.0

  /** A buffer source started at `start` that plays for `duration`, together
      with the `currentTime` captured when it was queued. */
  datatype Segment = Segment(start: real, duration: Duration, queuedAt: real)

  /** Where `queueAudio` starts a buffer: at `now` when nothing is playing or
      the cursor has fallen behind, at the cursor otherwise. */
  function SegmentStart(isPlaying: bool, cursor: real, now: real): (start: real)
    ensures start >= now && start >= (if isPlaying then cursor else now)
    ensures isPlaying && cursor >= now ==> start == cursor
    ensures !isPlaying || cursor < now ==> start == now
  {
    if !isPlaying || cursor < now then now else cursor
  }

  /** Every segment starts no earlier than it was queued and ends by the cursor,
      each one starts no earlier than the end of every segment before it, and
      the cursor is the end of the latest one. */
  ghost predicate ScheduleInvariant(scheduled: seq<Segment>, cursor: real, clock: real) {
    && (forall k :: 0 <= k < |scheduled| ==>
          scheduled[k].queuedAt <= scheduled[k].start
          && scheduled[k].start + scheduled[k].duration <= cursor
          && scheduled[k].queuedAt <= clock)
    && (forall j, k :: 0 <= j < k < |scheduled| ==>
          scheduled[j].start + scheduled[j].duration <= scheduled[k].start)
    && (|scheduled| > 0 ==>
          cursor == scheduled[|scheduled| - 1].start + scheduled[|scheduled| - 1].duration)
  }

  /** Appending the segment `queueAudio` schedules keeps the schedule ordered
      and non-overlapping. */
  lemma {:induction false} ScheduleExtends(scheduled: seq<Segment>, cursor: real, clock: real,
                                           isPlaying: bool, now: real, d: Duration)
    requires ScheduleInvariant(scheduled, cursor, clock)
    requires !isPlaying ==> cursor <= clock
    requires now >= clock
    ensures var start := SegmentStart(isPlaying, cursor, now);
            ScheduleInvariant(scheduled + [Segment(start, d, now)], start + d, now)
  {
    var start := SegmentStart(isPlaying, cursor, now);
    var s' := scheduled + [Segment(start, d, now)];
    assert start >= cursor;
    forall j, k | 0 <= j < k < |s'|
      ensures s'[j].start + s'[j].duration <= s'[k].start
    {
      if k == |scheduled| {
        assert s'[j] == scheduled[j];
      } else {
        assert s'[j] == scheduled[j] && s'[k] == scheduled[k];
      }
    }
  }
}
