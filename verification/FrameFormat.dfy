/**
 The wire format of packages/protocol/src/framing.ts on values: a payload is
 prefixed with its unsigned 32-bit big-endian length. `Parse` is the one-pass
 parser of a complete byte stream that the incremental decoder has to agree with.
 */
module FrameFormat {
  import opened Prelude

  type byte = b: int | 0 <= b < 0x100

  const MAX_UINT32 := 0xffff_ffff
  const FRAME_HEADER_LENGTH := 4

  // ---------- the length prefix ----------

  function Header(length: nat): (header: seq<byte>)
    requires length <= MAX_UINT32
    ensures |header| == FRAME_HEADER_LENGTH
  {
    [length / 0x100_0000, length / 0x1_0000 % 0x100, length / 0x100 % 0x100, length % 0x100]
  }

  function DeclaredLength(header: seq<byte>): (length: nat)
    requires |header| == FRAME_HEADER_LENGTH
    ensures length <= MAX_UINT32
  {
    0x100_0000 * (header[0] as int) + 0x1_0000 * (header[1] as int) + 0x100 * (header[2] as int) + header[3]
  }

  lemma DeclaredLengthInvertsHeader(length: nat)
    requires length <= MAX_UINT32
    ensures DeclaredLength(Header(length)) == length
  {
    assert length / 0x1_0000 / 0x100 == length / 0x100_0000;
    assert length / 0x100 / 0x100 == length / 0x1_0000;
  }

  lemma HeaderInvertsDeclaredLength(header: seq<byte>)
    requires |header| == FRAME_HEADER_LENGTH
    ensures Header(DeclaredLength(header)) == header
  {
    var length := DeclaredLength(header);
    assert length / 0x100 == 0x1_0000 * (header[0] as int) + 0x100 * (header[1] as int) + header[2];
    assert length / 0x1_0000 == 0x100 * (header[0] as int) + header[1];
    assert length / 0x100_0000 == header[0];
  }

  // ---------- encoding ----------

  function Encode(payload: seq<byte>): (frame: seq<byte>)
    requires |payload| <= MAX_UINT32
    ensures |frame| == FRAME_HEADER_LENGTH + |payload|
  {
    Header(|payload|) + payload
  }

  ghost predicate AllWithin(payloads: seq<seq<byte>>, limit: nat) {
    forall i :: 0 <= i < |payloads| ==> |payloads[i]| <= limit
  }

  function EncodeAll(payloads: seq<seq<byte>>): seq<byte>
    requires AllWithin(payloads, MAX_UINT32)
  {
    if payloads == [] then [] else Encode(payloads[0]) + EncodeAll(payloads[1..])
  }

  lemma EncodeAllCons(payload: seq<byte>, payloads: seq<seq<byte>>)
    requires |payload| <= MAX_UINT32 && AllWithin(payloads, MAX_UINT32)
    ensures AllWithin([payload] + payloads, MAX_UINT32)
    ensures EncodeAll([payload] + payloads) == Encode(payload) + EncodeAll(payloads)
  {
    assert ([payload] + payloads)[1..] == payloads;
  }

  // ---------- the one-pass parser ----------

  /** `rest` is what follows the last complete frame; `oversized` says that it starts with a
      complete header declaring more than the limit. */
  datatype Parsed = Parsed(frames: seq<seq<byte>>, rest: seq<byte>, oversized: bool)

  function Parse(input: seq<byte>, limit: nat): Parsed {
    if |input| < FRAME_HEADER_LENGTH then Parsed([], input, false)
    else
      var length := DeclaredLength(input[..FRAME_HEADER_LENGTH]);
      var end := FRAME_HEADER_LENGTH + length;
      if length > limit then Parsed([], input, true)
      else if |input| < end then Parsed([], input, false)
      else Prepend([input[FRAME_HEADER_LENGTH..end]], Parse(input[end..], limit))
  }

  /** The length that the refused header declares, where there is one. */
  function RefusedLength(parsed: Parsed): nat {
    if |parsed.rest| < FRAME_HEADER_LENGTH then 0 else DeclaredLength(parsed.rest[..FRAME_HEADER_LENGTH])
  }

  /** Parsing is refused because of a header that declares more than the limit. */
  lemma {:induction false} RefusedLengthExceedsLimit(input: seq<byte>, limit: nat)
    requires Parse(input, limit).oversized
    ensures RefusedLength(Parse(input, limit)) > limit
    decreases |input|
  {
    var end := FRAME_HEADER_LENGTH + DeclaredLength(input[..FRAME_HEADER_LENGTH]);
    if end - FRAME_HEADER_LENGTH <= limit {
      RefusedLengthExceedsLimit(input[end..], limit);
    }
  }

  function Prepend(frames: seq<seq<byte>>, parsed: Parsed): Parsed {
    parsed.(frames := frames + parsed.frames)
  }

  lemma PrependTwice(first: seq<seq<byte>>, second: seq<seq<byte>>, parsed: Parsed)
    ensures Prepend(first, Prepend(second, parsed)) == Prepend(first + second, parsed)
  {
    assert first + (second + parsed.frames) == first + second + parsed.frames;
  }

  /** One complete frame at the front of a stream is split off. */
  lemma ParseFrame(payload: seq<byte>, tail: seq<byte>, limit: nat)
    requires |payload| <= limit <= MAX_UINT32
    ensures Parse(Encode(payload) + tail, limit) == Prepend([payload], Parse(tail, limit))
  {
    var input := Encode(payload) + tail;
    var end := FRAME_HEADER_LENGTH + |payload|;
    assert input[..FRAME_HEADER_LENGTH] == Header(|payload|);
    DeclaredLengthInvertsHeader(|payload|);
    assert input[FRAME_HEADER_LENGTH..end] == payload;
    assert input[end..] == tail;
  }

  /** Parsing what is left over and then more input is parsing the whole at once. */
  lemma {:induction false} ParseInTwoSteps(first: seq<byte>, second: seq<byte>, limit: nat)
    ensures var one := Parse(first, limit);
            if one.oversized
            then Parse(first + second, limit).oversized && Parse(first + second, limit).frames == one.frames
            else Parse(first + second, limit) == Prepend(one.frames, Parse(one.rest + second, limit))
    decreases |first|
  {
    if |first| >= FRAME_HEADER_LENGTH {
      var whole := first + second;
      assert whole[..FRAME_HEADER_LENGTH] == first[..FRAME_HEADER_LENGTH];
      var end := FRAME_HEADER_LENGTH + DeclaredLength(first[..FRAME_HEADER_LENGTH]);
      if end - FRAME_HEADER_LENGTH <= limit && end <= |first| {
        assert whole[FRAME_HEADER_LENGTH..end] == first[FRAME_HEADER_LENGTH..end];
        assert whole[end..] == first[end..] + second;
        ParseInTwoSteps(first[end..], second, limit);
        var tail := Parse(first[end..], limit);
        if !tail.oversized {
          PrependTwice([first[FRAME_HEADER_LENGTH..end]], tail.frames, Parse(tail.rest + second, limit));
        }
      }
    }
  }

  /** Nothing is lost or invented: the frames re-encoded, followed by the rest, are the input. */
  lemma {:induction false} ParseConserves(input: seq<byte>, limit: nat)
    requires limit <= MAX_UINT32
    ensures var parsed := Parse(input, limit);
            AllWithin(parsed.frames, limit) && EncodeAll(parsed.frames) + parsed.rest == input
    decreases |input|
  {
    if |input| >= FRAME_HEADER_LENGTH {
      var end := FRAME_HEADER_LENGTH + DeclaredLength(input[..FRAME_HEADER_LENGTH]);
      if end - FRAME_HEADER_LENGTH <= limit && end <= |input| {
        ParseConserves(input[end..], limit);
        var tail := Parse(input[end..], limit);
        FirstFrameConserved(input, end, tail.frames, tail.rest, limit);
      }
    }
  }

  lemma FirstFrameConserved(input: seq<byte>, end: nat, frames: seq<seq<byte>>, rest: seq<byte>, limit: nat)
    requires FRAME_HEADER_LENGTH <= end <= |input| && limit <= MAX_UINT32
    requires end - FRAME_HEADER_LENGTH == DeclaredLength(input[..FRAME_HEADER_LENGTH]) <= limit
    requires AllWithin(frames, limit) && EncodeAll(frames) + rest == input[end..]
    ensures var all := [input[FRAME_HEADER_LENGTH..end]] + frames;
            AllWithin(all, limit) && EncodeAll(all) + rest == input
  {
    var header, payload := input[..FRAME_HEADER_LENGTH], input[FRAME_HEADER_LENGTH..end];
    HeaderInvertsDeclaredLength(header);
    assert Encode(payload) == input[..end];
    EncodeAllCons(payload, frames);
    Associates(Encode(payload), EncodeAll(frames), rest);
    assert input == input[..end] + input[end..];
  }

  /** The rest never holds a frame that was overlooked. */
  lemma {:induction false} RestIsUnparsed(input: seq<byte>, limit: nat)
    ensures var parsed := Parse(input, limit);
            Parse(parsed.rest, limit) == Parsed([], parsed.rest, parsed.oversized)
    decreases |input|
  {
    if |input| >= FRAME_HEADER_LENGTH {
      var end := FRAME_HEADER_LENGTH + DeclaredLength(input[..FRAME_HEADER_LENGTH]);
      if end - FRAME_HEADER_LENGTH <= limit && end <= |input| {
        RestIsUnparsed(input[end..], limit);
      }
    }
  }

  /** Round trip on a whole stream: any payloads within the limit come back, followed by whatever
      the bytes after them parse to. */
  lemma {:induction false} ParseInvertsEncodeAll(payloads: seq<seq<byte>>, tail: seq<byte>, limit: nat)
    requires limit <= MAX_UINT32 && AllWithin(payloads, limit)
    ensures Parse(EncodeAll(payloads) + tail, limit) == Prepend(payloads, Parse(tail, limit))
    decreases |payloads|
  {
    if payloads == [] {
      assert EncodeAll(payloads) + tail == tail;
      assert Prepend(payloads, Parse(tail, limit)) == Parse(tail, limit);
    } else {
      var rest := EncodeAll(payloads[1..]) + tail;
      assert EncodeAll(payloads) + tail == Encode(payloads[0]) + rest;
      ParseFrame(payloads[0], rest, limit);
      ParseInvertsEncodeAll(payloads[1..], tail, limit);
      PrependTwice([payloads[0]], payloads[1..], Parse(tail, limit));
      assert [payloads[0]] + payloads[1..] == payloads;
    }
  }

  /** Distinct payload sequences have distinct encodings. */
  lemma EncodeAllIsInjective(left: seq<seq<byte>>, right: seq<seq<byte>>)
    requires AllWithin(left, MAX_UINT32) && AllWithin(right, MAX_UINT32)
    ensures EncodeAll(left) == EncodeAll(right) <==> left == right
  {
    if EncodeAll(left) == EncodeAll(right) {
      ParseInvertsEncodeAll(left, [], MAX_UINT32);
      ParseInvertsEncodeAll(right, [], MAX_UINT32);
      assert EncodeAll(left) + [] == EncodeAll(right) + [];
      assert left + [] == left && right + [] == right;
    }
  }

  // ---------- a stream cut into chunks ----------

  function Concat(chunks: seq<seq<byte>>): seq<byte> {
    if chunks == [] then [] else chunks[0] + Concat(chunks[1..])
  }

  /** What pushing chunks one after the other yields: the frames returned, the bytes still held, and
      the index of the push that failed. */
  datatype Fed = Fed(frames: seq<seq<byte>>, pending: seq<byte>, failedAt: Option<nat>)

  function Feed(pending: seq<byte>, chunks: seq<seq<byte>>, limit: nat): Fed
    decreases |chunks|
  {
    if chunks == [] then Fed([], pending, None)
    else
      var parsed := Parse(pending + chunks[0], limit);
      if parsed.oversized then Fed([], [], Some(0))
      else
        FedNext(parsed.frames, Feed(parsed.rest, chunks[1..], limit))
  }

  /** The frames of one push, then those of the later ones. */
  function FedNext(frames: seq<seq<byte>>, later: Fed): Fed {
    Fed(frames + later.frames, later.pending, if later.failedAt.Some? then Some(later.failedAt.value + 1) else None)
  }

  /** Cutting the stream anywhere changes nothing, unless the whole stream has an oversized header. */
  lemma {:induction false} FeedIsOnePass(pending: seq<byte>, chunks: seq<seq<byte>>, limit: nat)
    requires !Parse(pending, limit).oversized && Parse(pending, limit).frames == []
    ensures var whole := Parse(pending + Concat(chunks), limit);
            var fed := Feed(pending, chunks, limit);
            && (fed.failedAt.Some? <==> whole.oversized)
            && (fed.failedAt.None? ==> fed.frames == whole.frames && fed.pending == whole.rest)
    decreases |chunks|
  {
    if chunks == [] {
      assert pending + Concat(chunks) == pending;
      RestIsUnparsed(pending, limit);
      ParseRestOfNothing(pending, limit);
    } else {
      var parsed := Parse(pending + chunks[0], limit);
      assert pending + Concat(chunks) == pending + chunks[0] + Concat(chunks[1..]);
      ParseInTwoSteps(pending + chunks[0], Concat(chunks[1..]), limit);
      if !parsed.oversized {
        RestIsUnparsed(pending + chunks[0], limit);
        FeedIsOnePass(parsed.rest, chunks[1..], limit);
      }
    }
  }

  lemma ParseRestOfNothing(input: seq<byte>, limit: nat)
    requires Parse(input, limit).frames == []
    ensures Parse(input, limit).rest == input
  {
  }

  /** A failing push is the first one to fail: without it and what follows, nothing fails. */
  lemma {:induction false} FailingPushIsFirst(pending: seq<byte>, chunks: seq<seq<byte>>, limit: nat)
    requires Feed(pending, chunks, limit).failedAt.Some?
    ensures var fed := Feed(pending, chunks, limit);
            var at := fed.failedAt.value;
            && at < |chunks|
            && Feed(pending, chunks[..at], limit).failedAt.None?
            && Feed(pending, chunks[..at], limit).frames == fed.frames
            && Feed(pending, chunks[..at + 1], limit).failedAt == Some(at)
    decreases |chunks|
  {
    var parsed := Parse(pending + chunks[0], limit);
    if !parsed.oversized {
      FailingPushIsFirst(parsed.rest, chunks[1..], limit);
      var at := Feed(pending, chunks, limit).failedAt.value;
      assert chunks[..at][1..] == chunks[1..][..at - 1];
      assert chunks[..at + 1][1..] == chunks[1..][..at];
    }
  }

  /** The failing push is exactly the one that completes the first oversized header, and the frames
      returned before it are those of the stream up to it. */
  lemma FailureIsPrompt(chunks: seq<seq<byte>>, limit: nat)
    requires Feed([], chunks, limit).failedAt.Some?
    ensures var fed := Feed([], chunks, limit);
            var at := fed.failedAt.value;
            && at < |chunks|
            && !Parse(Concat(chunks[..at]), limit).oversized
            && fed.frames == Parse(Concat(chunks[..at]), limit).frames
            && Parse(Concat(chunks[..at + 1]), limit).oversized
  {
    FailingPushIsFirst([], chunks, limit);
    var at := Feed([], chunks, limit).failedAt.value;
    FeedIsOnePass([], chunks[..at], limit);
    FeedIsOnePass([], chunks[..at + 1], limit);
    assert [] + Concat(chunks[..at]) == Concat(chunks[..at]);
    assert [] + Concat(chunks[..at + 1]) == Concat(chunks[..at + 1]);
  }

  /** The round trip the protocol relies on: encode any payloads within the limit, cut the bytes
      anywhere, and the decoder returns exactly those payloads and stands at a frame boundary. */
  lemma FramingRoundTrip(payloads: seq<seq<byte>>, chunks: seq<seq<byte>>, limit: nat)
    requires limit <= MAX_UINT32 && AllWithin(payloads, limit)
    requires Concat(chunks) == EncodeAll(payloads)
    ensures Feed([], chunks, limit) == Fed(payloads, [], None)
  {
    FeedIsOnePass([], chunks, limit);
    ParseInvertsEncodeAll(payloads, [], limit);
    WithNothing(Concat(chunks));
    WithNothing(payloads);
  }

  lemma WithNothing<T>(items: seq<T>)
    ensures [] + items == items == items + []
  {
  }
}
