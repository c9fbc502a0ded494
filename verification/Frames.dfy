/**
 Length-prefixed frames: a four-byte big-endian length, then the payload. A frame
 is never empty and, when a limit is configured, never larger than it.
 */
module Frames {
  import opened Wrappers

  const U32_MAX := 0xFFFF_FFFF
  const HEADER := 4

  datatype FrameError = Empty | TooLarge | ShortRead | WriteFailed

  /** What WriteFrame accepts; a limit of 0 means no limit. */
  predicate Fits(payload: seq<byte>, maxBytes: nat) {
    0 < |payload| <= U32_MAX && (maxBytes > 0 ==> |payload| <= maxBytes)
  }

  function PutUint32(n: nat): seq<byte>
    requires n <= U32_MAX
  {
    [n / 0x100_0000, n / 0x1_0000 % 0x100, n / 0x100 % 0x100, n % 0x100]
  }

  function Uint32(h: seq<byte>): nat
    requires |h| == HEADER
  {
    (h[0] as int) * 0x100_0000 + (h[1] as int) * 0x1_0000 + (h[2] as int) * 0x100 + h[3] as int
  }

  lemma HeaderRoundTrip(n: nat)
    requires n <= U32_MAX
    ensures Uint32(PutUint32(n)) == n
  {
    var high, middle := n / 0x1_0000, n / 0x100;
    assert middle == high * 0x100 + middle % 0x100;
    assert high == n / 0x100_0000 * 0x100 + high % 0x100;
  }

  lemma HeaderUnique(h: seq<byte>)
    requires |h| == HEADER
    ensures Uint32(h) <= U32_MAX && PutUint32(Uint32(h)) == h
  {
    var n, a, b, c := Uint32(h), h[0] as int, h[1] as int, h[2] as int;
    assert n / 0x100 == a * 0x1_0000 + b * 0x100 + c;
    assert n / 0x1_0000 == a * 0x100 + b;
  }

  function Frame(payload: seq<byte>): seq<byte>
    requires |payload| <= U32_MAX
  {
    PutUint32(|payload|) + payload
  }

  /** Result of one ReadFrame and what it leaves in the stream. */
  datatype Read = Read(result: Result<seq<byte>, FrameError>, rest: seq<byte>)

  function Parse(input: seq<byte>, maxBytes: nat): Read {
    if |input| < HEADER then Read(Err(ShortRead), [])
    else
      var n, body := Uint32(input[..HEADER]), input[HEADER..];
      if n == 0 then Read(Err(Empty), body)
      else if maxBytes > 0 && n > maxBytes then Read(Err(TooLarge), body)
      else if |body| < n then Read(Err(ShortRead), [])
      else Read(Ok(body[..n]), body[n..])
  }

  // ---------- the code ----------

  class Source {
    var rest: seq<byte>

    constructor (input: seq<byte>)
      ensures rest == input
    {
      rest := input;
    }

    /** io.ReadFull: all `n` bytes, or an error and nothing left. */
    method ReadFull(n: nat) returns (r: Option<seq<byte>>)
      modifies this
      ensures |old(rest)| >= n ==> r == Some(old(rest)[..n]) && rest == old(rest)[n..]
      ensures |old(rest)| < n ==> r == None && rest == []
    {
      if |rest| < n {
        r, rest := None, [];
      } else {
        r, rest := Some(rest[..n]), rest[n..];
      }
    }
  }

  class Sink {
    var out: seq<byte>

    constructor ()
      ensures out == []
    {
      out := [];
    }

    /** A write may fail after any part of the data. */
    method Write(data: seq<byte>) returns (ok: bool)
      modifies this
      ensures ok ==> out == old(out) + data
      ensures !ok ==> old(out) <= out <= old(out) + data
    {
      if * {
        out := out + data;
        ok := true;
      } else {
        var n :| 0 <= n <= |data|;
        out := out + data[..n];
        ok := false;
      }
    }
  }

  method ReadFrame(r: Source, maxBytes: nat) returns (res: Result<seq<byte>, FrameError>)
    requires maxBytes <= U32_MAX
    modifies r
    ensures Read(res, r.rest) == Parse(old(r.rest), maxBytes)
  {
    var header := r.ReadFull(HEADER);
    if header.None? {
      return Err(ShortRead);
    }
    var n := Uint32(header.value);
    if n == 0 {
      return Err(Empty);
    }
    if maxBytes > 0 && n > maxBytes {
      return Err(TooLarge);
    }
    var payload := r.ReadFull(n);
    if payload.None? {
      return Err(ShortRead);
    }
    return Ok(payload.value);
  }

  /** Either the whole frame is written, or an error is reported; a payload that
      does not fit leaves the stream alone, a failed write leaves part of the frame. */
  method WriteFrame(w: Sink, payload: seq<byte>, maxBytes: nat) returns (error: Option<FrameError>)
    requires maxBytes <= U32_MAX
    modifies w
    ensures error == None ==> Fits(payload, maxBytes) && w.out == old(w.out) + Frame(payload)
    ensures !Fits(payload, maxBytes) ==> error == Some(if payload == [] then Empty else TooLarge) && w.out == old(w.out)
    ensures Fits(payload, maxBytes) && error.Some? ==>
      error == Some(WriteFailed) && old(w.out) <= w.out <= old(w.out) + Frame(payload)
  {
    if |payload| == 0 {
      return Some(Empty);
    }
    if maxBytes > 0 && |payload| > maxBytes {
      return Some(TooLarge);
    }
    if |payload| > U32_MAX {
      return Some(TooLarge);
    }
    var ok := w.Write(PutUint32(|payload|));
    if !ok {
      return Some(WriteFailed);
    }
    ok := w.Write(payload);
    assert old(w.out) + PutUint32(|payload|) + payload == old(w.out) + Frame(payload);
    return if ok then None else Some(WriteFailed);
  }

  // ---------- streams of frames ----------

  /** What was written is read back, and nothing beyond it is touched. */
  lemma FrameRoundTrip(payload: seq<byte>, maxBytes: nat, rest: seq<byte>)
    requires Fits(payload, maxBytes)
    ensures Parse(Frame(payload) + rest, maxBytes) == Read(Ok(payload), rest)
  {
    var input := Frame(payload) + rest;
    HeaderRoundTrip(|payload|);
    assert input[..HEADER] == PutUint32(|payload|);
    assert input[HEADER..] == payload + rest;
  }

  /** Conversely, whatever ReadFrame accepts is a frame WriteFrame would have written. */
  lemma AcceptedIsFrame(input: seq<byte>, maxBytes: nat)
    requires Parse(input, maxBytes).result.Ok?
    ensures var read := Parse(input, maxBytes);
      Fits(read.result.value, maxBytes) && input == Frame(read.result.value) + read.rest
  {
    HeaderUnique(input[..HEADER]);
  }

  predicate AllFit(payloads: seq<seq<byte>>, maxBytes: nat) {
    forall i :: 0 <= i < |payloads| ==> Fits(payloads[i], maxBytes)
  }

  function Concat(payloads: seq<seq<byte>>, maxBytes: nat): seq<byte>
    requires AllFit(payloads, maxBytes)
  {
    if payloads == [] then []
    else assert Fits(payloads[0], maxBytes); Frame(payloads[0]) + Concat(payloads[1..], maxBytes)
  }

  /** Reading `n` frames in a row, as a connection handler does. */
  function ParseMany(input: seq<byte>, maxBytes: nat, n: nat): (Result<seq<seq<byte>>, FrameError>, seq<byte>) {
    if n == 0 then (Ok([]), input)
    else
      var read := Parse(input, maxBytes);
      match read.result
      case Err(e) => (Err(e), read.rest)
      case Ok(payload) =>
        var (more, rest) := ParseMany(read.rest, maxBytes, n - 1);
        (match more case Err(e) => Err(e) case Ok(ps) => Ok([payload] + ps), rest)
  }

  /** Reading the concatenation of any list of frames yields that list and the untouched rest. */
  lemma {:induction false} StreamRoundTrip(payloads: seq<seq<byte>>, maxBytes: nat, rest: seq<byte>)
    requires AllFit(payloads, maxBytes)
    ensures ParseMany(Concat(payloads, maxBytes) + rest, maxBytes, |payloads|) == (Ok(payloads), rest)
  {
    if payloads == [] {
      assert Concat(payloads, maxBytes) + rest == rest;
    } else {
      var tail := Concat(payloads[1..], maxBytes) + rest;
      assert Concat(payloads, maxBytes) + rest == Frame(payloads[0]) + tail;
      FrameRoundTrip(payloads[0], maxBytes, tail);
      StreamRoundTrip(payloads[1..], maxBytes, rest);
      assert [payloads[0]] + payloads[1..] == payloads;
    }
  }

  lemma ConcatCons(payload: seq<byte>, more: seq<seq<byte>>, maxBytes: nat)
    requires Fits(payload, maxBytes) && AllFit(more, maxBytes)
    ensures AllFit([payload] + more, maxBytes)
    ensures Concat([payload] + more, maxBytes) == Frame(payload) + Concat(more, maxBytes)
  {
    assert ([payload] + more)[1..] == more;
  }

  lemma OneMore(input: seq<byte>, maxBytes: nat, more: seq<seq<byte>>, rest: seq<byte>)
    requires Parse(input, maxBytes).result.Ok? && AllFit(more, maxBytes)
    requires Parse(input, maxBytes).rest == Concat(more, maxBytes) + rest
    ensures var payloads := [Parse(input, maxBytes).result.value] + more;
      AllFit(payloads, maxBytes) && input == Concat(payloads, maxBytes) + rest
  {
    var payload := Parse(input, maxBytes).result.value;
    AcceptedIsFrame(input, maxBytes);
    ConcatCons(payload, more, maxBytes);
    var frame, tail := Frame(payload), Concat(more, maxBytes);
    assert frame + (tail + rest) == (frame + tail) + rest;
  }

  /** Conversely, a stream from which `n` frames are read starts with their concatenation. */
  lemma {:induction false} StreamUnique(input: seq<byte>, maxBytes: nat, n: nat)
    requires ParseMany(input, maxBytes, n).0.Ok?
    ensures var payloads := ParseMany(input, maxBytes, n).0.value;
      && |payloads| == n && AllFit(payloads, maxBytes)
      && input == Concat(payloads, maxBytes) + ParseMany(input, maxBytes, n).1
  {
    if n == 0 {
    } else {
      var read := Parse(input, maxBytes);
      StreamUnique(read.rest, maxBytes, n - 1);
      OneMore(input, maxBytes, ParseMany(read.rest, maxBytes, n - 1).0.value, ParseMany(read.rest, maxBytes, n - 1).1);
    }
  }
}
