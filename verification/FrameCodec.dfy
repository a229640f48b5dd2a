/**
 packages/protocol/src/framing.ts in its own form: `EncodeFrame` fills a fresh array, and
 `FrameDecoder` collects arbitrary chunks in a four-byte header buffer and 64 KiB payload blocks.
 Every operation is proved against the one-pass parser of `FrameFormat`.
 */
module FrameCodec {
  import opened Prelude
  import opened FrameFormat

  const PAYLOAD_BLOCK_SIZE := 64 * 1024
  const DEFAULT_MAX_FRAME_LENGTH := 16 * 1024 * 1024

  datatype FrameFailure =
    | InvalidLimit
    | PayloadTooLong
    | IncompletePrefix
    | ExceedsLimit(length: nat)
    | NotExactlyOne
    | HasEnded
    | HasFailed
    | Truncated

  datatype Outcome<+T> = Done(value: T) | Thrown(failure: FrameFailure)

  /** The configured limit, defaulted and range-checked. */
  function ResolveMaxFrameLength(option: Option<int>): (resolved: Outcome<nat>)
    ensures resolved.Done? <==> option.None? || 0 <= option.value <= MAX_UINT32
    ensures resolved.Done? ==> resolved.value <= MAX_UINT32
  {
    var value := option.GetOr(DEFAULT_MAX_FRAME_LENGTH);
    if value < 0 || value > MAX_UINT32 then Thrown(InvalidLimit) else Done(value)
  }

  ghost function Contents(arrays: seq<array<byte>>): seq<seq<byte>>
    reads arrays
  {
    seq(|arrays|, i requires 0 <= i < |arrays| reads arrays => arrays[i][..])
  }

  method CopyInto(target: array<byte>, at: nat, source: array<byte>, from: nat, count: nat)
    requires at + count <= target.Length && from + count <= source.Length && target != source
    modifies target
    ensures target[..at] == old(target[..at])
    ensures target[at..at + count] == source[from..from + count]
    ensures target[at + count..] == old(target[at + count..])
  {
    forall i | 0 <= i < count {
      target[at + i] := source[from + i];
    }
  }

  method EncodeFrame(payload: array<byte>) returns (frame: Outcome<array<byte>>)
    ensures frame.Done? <==> payload.Length <= MAX_UINT32
    ensures frame.Thrown? ==> frame.failure == PayloadTooLong
    ensures frame.Done? ==> fresh(frame.value) && frame.value[..] == Encode(payload[..])
  {
    if payload.Length > MAX_UINT32 {
      return Thrown(PayloadTooLong);
    }
    var length := payload.Length;
    var bytes := new byte[FRAME_HEADER_LENGTH + length](_ => 0);
    bytes[0] := length / 0x100_0000 % 0x100;
    bytes[1] := length / 0x1_0000 % 0x100;
    bytes[2] := length / 0x100 % 0x100;
    bytes[3] := length % 0x100;
    CopyInto(bytes, FRAME_HEADER_LENGTH, payload, 0, length);
    assert bytes[..FRAME_HEADER_LENGTH] == Header(length);
    assert bytes[..] == bytes[..FRAME_HEADER_LENGTH] + bytes[FRAME_HEADER_LENGTH..FRAME_HEADER_LENGTH + length];
    frame := Done(bytes);
  }

  ghost predicate IsFrameWithin(frame: seq<byte>, limit: nat)
    requires limit <= MAX_UINT32
  {
    exists payload :: |payload| <= limit && frame == Encode(payload)
  }

  /** A byte string is the encoding of a payload within the limit exactly when its prefix is complete,
      declares a length within the limit, and that many bytes follow. */
  lemma FrameWithinByLength(frame: seq<byte>, limit: nat)
    requires limit <= MAX_UINT32
    ensures IsFrameWithin(frame, limit) <==>
            && |frame| >= FRAME_HEADER_LENGTH
            && DeclaredLength(frame[..FRAME_HEADER_LENGTH]) <= limit
            && |frame| == FRAME_HEADER_LENGTH + DeclaredLength(frame[..FRAME_HEADER_LENGTH])
  {
    if IsFrameWithin(frame, limit) {
      var payload :| |payload| <= limit && frame == Encode(payload);
      assert frame[..FRAME_HEADER_LENGTH] == Header(|payload|);
      DeclaredLengthInvertsHeader(|payload|);
    }
    if |frame| >= FRAME_HEADER_LENGTH {
      var header := frame[..FRAME_HEADER_LENGTH];
      var payload := frame[FRAME_HEADER_LENGTH..];
      if DeclaredLength(header) <= limit && |payload| == DeclaredLength(header) {
        HeaderInvertsDeclaredLength(header);
        assert frame == header + payload;
        assert frame == Encode(payload);
      }
    }
  }

  /** The check accepts exactly the encodings of one payload within the limit. */
  method AssertCompleteFrame(frame: array<byte>, option: Option<int>) returns (outcome: Outcome<()>)
    ensures outcome.Done? ==> ResolveMaxFrameLength(option).Done?
    ensures ResolveMaxFrameLength(option).Done? ==>
              (outcome.Done? <==> IsFrameWithin(frame[..], ResolveMaxFrameLength(option).value))
    ensures outcome == Thrown(IncompletePrefix) <==> frame.Length < FRAME_HEADER_LENGTH
    ensures outcome == Thrown(InvalidLimit) <==>
            frame.Length >= FRAME_HEADER_LENGTH && ResolveMaxFrameLength(option).Thrown?
    ensures frame.Length >= FRAME_HEADER_LENGTH && ResolveMaxFrameLength(option).Done? ==>
              var length, limit := DeclaredLength(frame[..][..FRAME_HEADER_LENGTH]), ResolveMaxFrameLength(option).value;
              && (outcome == Thrown(ExceedsLimit(length)) <==> length > limit)
              && (outcome == Thrown(NotExactlyOne) <==> length <= limit && frame.Length != FRAME_HEADER_LENGTH + length)
  {
    var resolved := ResolveMaxFrameLength(option);
    ghost var limit := if resolved.Done? then resolved.value else 0;
    FrameWithinByLength(frame[..], limit);
    if frame.Length < FRAME_HEADER_LENGTH {
      return Thrown(IncompletePrefix);
    }
    var length := 0x100_0000 * (frame[0] as int) + 0x1_0000 * (frame[1] as int) + 0x100 * (frame[2] as int) + frame[3];
    assert length == DeclaredLength(frame[..][..FRAME_HEADER_LENGTH]);
    if resolved.Thrown? {
      return Thrown(resolved.failure);
    }
    if length > resolved.value {
      return Thrown(ExceedsLimit(length));
    }
    if frame.Length != FRAME_HEADER_LENGTH + length {
      return Thrown(NotExactlyOne);
    }
    return Done(());
  }

  // ---------- payload blocks ----------

  ghost function Joined(blocks: seq<array<byte>>): seq<byte>
    reads blocks
  {
    JoinedTo(blocks, |blocks|)
  }

  /** The first `n` blocks, one after the other. */
  ghost function JoinedTo(blocks: seq<array<byte>>, n: nat): seq<byte>
    requires n <= |blocks|
    reads blocks
  {
    if n == 0 then [] else JoinedTo(blocks, n - 1) + blocks[n - 1][..]
  }

  ghost function TotalLength(blocks: seq<array<byte>>): nat {
    LengthTo(blocks, |blocks|)
  }

  ghost function LengthTo(blocks: seq<array<byte>>, n: nat): nat
    requires n <= |blocks|
  {
    if n == 0 then 0 else LengthTo(blocks, n - 1) + blocks[n - 1].Length
  }

  lemma {:induction false} JoinedToLength(blocks: seq<array<byte>>, n: nat)
    requires n <= |blocks|
    ensures |JoinedTo(blocks, n)| == LengthTo(blocks, n)
    decreases n
  {
    if n > 0 {
      JoinedToLength(blocks, n - 1);
    }
  }

  lemma JoinedLength(blocks: seq<array<byte>>)
    ensures |Joined(blocks)| == TotalLength(blocks)
  {
    JoinedToLength(blocks, |blocks|);
  }

  lemma {:induction false} JoinedAsBefore(blocks: seq<array<byte>>, block: array<byte>, n: nat)
    requires n <= |blocks|
    ensures JoinedTo(blocks + [block], n) == JoinedTo(blocks, n)
    ensures LengthTo(blocks + [block], n) == LengthTo(blocks, n)
    decreases n
  {
    if n > 0 {
      JoinedAsBefore(blocks, block, n - 1);
    }
  }

  lemma JoinedAppend(blocks: seq<array<byte>>, block: array<byte>)
    ensures Joined(blocks + [block]) == Joined(blocks) + block[..]
    ensures TotalLength(blocks + [block]) == TotalLength(blocks) + block.Length
  {
    JoinedAsBefore(blocks, block, |blocks|);
  }

  lemma LastBlock(blocks: seq<array<byte>>)
    requires blocks != []
    ensures var front, last := blocks[..|blocks| - 1], blocks[|blocks| - 1];
            Joined(blocks) == Joined(front) + last[..] && TotalLength(blocks) == TotalLength(front) + last.Length
  {
    assert blocks == blocks[..|blocks| - 1] + [blocks[|blocks| - 1]];
    JoinedAppend(blocks[..|blocks| - 1], blocks[|blocks| - 1]);
  }

  lemma {:induction false} PrefixIsShorter(blocks: seq<array<byte>>, n: nat, count: nat)
    requires count <= n <= |blocks|
    ensures LengthTo(blocks, count) <= LengthTo(blocks, n)
    decreases n
  {
    if count < n {
      PrefixIsShorter(blocks, n - 1, count);
    }
  }

  // ---------- the decoder ----------

  datatype DecoderState = Open | Ended | Failed

  class FrameDecoder {
    const header: array<byte>
    const maxFrameLength: nat
    var headerLength: nat
    var payloadBlocks: seq<array<byte>>
    var currentPayloadBlock: array?<byte>
    var currentPayloadBlockLength: nat
    var expectedPayloadLength: Option<nat>
    var payloadLength: nat
    var state: DecoderState

    /** Everything the decoder may still write to. */
    ghost function Repr(): set<object>
      reads this
    {
      {this, header} + set block | block in payloadBlocks
    }

    ghost predicate HoldsNothing()
      reads this
    {
      && headerLength == 0 && payloadBlocks == [] && currentPayloadBlock == null
      && currentPayloadBlockLength == 0 && expectedPayloadLength.None? && payloadLength == 0
    }

    /** The blocks before the current one; they are full. */
    ghost function FullBlocks(): seq<array<byte>>
      reads this
    {
      if payloadBlocks == [] then [] else payloadBlocks[..|payloadBlocks| - 1]
    }

    ghost predicate BlocksFit()
      reads this
    {
      if payloadBlocks == [] then
        currentPayloadBlock == null && currentPayloadBlockLength == 0 && payloadLength == 0
      else
        && currentPayloadBlock == payloadBlocks[|payloadBlocks| - 1]
        && currentPayloadBlock !in FullBlocks()
        && 0 < currentPayloadBlockLength <= currentPayloadBlock.Length <= PAYLOAD_BLOCK_SIZE
        && payloadLength == TotalLength(FullBlocks()) + currentPayloadBlockLength
    }

    /** The representation while a frame is collected; the payload may just be complete. */
    ghost predicate Collecting()
      reads this
    {
      && header.Length == FRAME_HEADER_LENGTH && maxFrameLength <= MAX_UINT32
      && state == Open && headerLength == 0
      && expectedPayloadLength.Some? && 0 < expectedPayloadLength.value <= maxFrameLength
      && payloadLength <= expectedPayloadLength.value && TotalLength(payloadBlocks) <= expectedPayloadLength.value
      && header !in payloadBlocks && BlocksFit()
    }

    ghost predicate Valid()
      reads this
    {
      && header.Length == FRAME_HEADER_LENGTH && maxFrameLength <= MAX_UINT32
      && match state
         case Open =>
           (if expectedPayloadLength.Some? then
              Collecting() && payloadLength < expectedPayloadLength.value
            else
              headerLength < FRAME_HEADER_LENGTH
              && payloadBlocks == [] && currentPayloadBlock == null
              && currentPayloadBlockLength == 0 && payloadLength == 0)
         case _ => HoldsNothing()
    }

    /** The payload bytes in the blocks, without the part not yet written. */
    ghost function Collected(): seq<byte>
      requires BlocksFit()
      reads this, payloadBlocks
    {
      if payloadBlocks == [] then []
      else Joined(FullBlocks()) + currentPayloadBlock[..currentPayloadBlockLength]
    }

    /** The received bytes that no returned frame accounts for. */
    ghost function Pending(): seq<byte>
      requires Valid()
      reads this, header, payloadBlocks
    {
      if expectedPayloadLength.Some? then Header(expectedPayloadLength.value) + Collected()
      else header[..headerLength]
    }

    constructor (limit: nat)
      requires limit <= MAX_UINT32
      ensures Valid() && fresh(Repr())
      ensures state == Open && Pending() == [] && maxFrameLength == limit
    {
      header := new byte[FRAME_HEADER_LENGTH](_ => 0);
      maxFrameLength := limit;
      headerLength := 0;
      payloadBlocks := [];
      currentPayloadBlock := null;
      currentPayloadBlockLength := 0;
      expectedPayloadLength := None;
      payloadLength := 0;
      state := Open;
    }

    /** The blocks hold exactly the payload bytes received, and less than one block more is reserved. */
    lemma ReservedBytesAreBounded()
      requires Valid()
      ensures payloadLength <= TotalLength(payloadBlocks) <= payloadLength + (PAYLOAD_BLOCK_SIZE - 1)
      ensures expectedPayloadLength.Some? ==>
                |Pending()| == FRAME_HEADER_LENGTH + payloadLength &&
                TotalLength(payloadBlocks) <= expectedPayloadLength.value <= maxFrameLength
    {
      JoinedLength(FullBlocks());
      if payloadBlocks != [] {
        LastBlock(payloadBlocks);
      }
    }

    /** Completes the length prefix as far as the chunk allows. */
    method FillHeader(chunk: array<byte>, start: nat) returns (offset: nat)
      requires Valid() && state == Open && expectedPayloadLength.None? && chunk !in Repr()
      requires start < chunk.Length
      modifies this`headerLength, header
      ensures headerLength <= FRAME_HEADER_LENGTH && start < offset <= chunk.Length
      ensures headerLength < FRAME_HEADER_LENGTH ==> offset == chunk.Length
      ensures header[..headerLength] + chunk[offset..] == old(Pending()) + chunk[start..]
    {
      var headerBytes := if FRAME_HEADER_LENGTH - headerLength < chunk.Length - start
                         then FRAME_HEADER_LENGTH - headerLength else chunk.Length - start;
      CopyInto(header, headerLength, chunk, start, headerBytes);
      assert header[..headerLength + headerBytes] == header[..headerLength] + header[headerLength..headerLength + headerBytes];
      headerLength := headerLength + headerBytes;
      offset := start + headerBytes;
      assert chunk[start..] == chunk[start..offset] + chunk[offset..];
    }

    /** Blocks are only added at the end, and those added are new. */
    twostate predicate BlocksAdded(before: seq<array<byte>>)
      reads this
    {
      && |before| <= |payloadBlocks|
      && (forall i :: 0 <= i < |before| ==> payloadBlocks[i] == before[i])
      && (forall i :: |before| <= i < |payloadBlocks| ==> fresh(payloadBlocks[i]))
    }

    /** Every block was there before or is new. */
    twostate predicate BlocksOwned(before: seq<array<byte>>)
      reads this
    {
      forall i :: 0 <= i < |payloadBlocks| ==> payloadBlocks[i] in before || fresh(payloadBlocks[i])
    }

    /** A block with room for more, being the last one, and all that is collected. */
    ghost predicate HasRoom(block: array<byte>)
      reads this
    {
      && payloadBlocks != [] && block == payloadBlocks[|payloadBlocks| - 1] && block !in FullBlocks()
      && currentPayloadBlock == block && currentPayloadBlockLength < block.Length <= PAYLOAD_BLOCK_SIZE
      && payloadLength == TotalLength(FullBlocks()) + currentPayloadBlockLength
    }

    /** Once the current block is full the blocks hold what is collected and nothing else. */
    lemma AllBlocksAreFull()
      requires BlocksFit()
      requires payloadBlocks == [] || currentPayloadBlockLength == currentPayloadBlock.Length
      ensures Joined(payloadBlocks) == Collected()
      ensures TotalLength(payloadBlocks) == payloadLength
    {
      if payloadBlocks != [] {
        LastBlock(payloadBlocks);
        assert currentPayloadBlock[..] == currentPayloadBlock[..currentPayloadBlockLength];
      }
    }

    /** The room in the last block is reserved already. */
    lemma RoomIsReserved(block: array<byte>)
      requires HasRoom(block)
      ensures payloadLength + (block.Length - currentPayloadBlockLength) == TotalLength(payloadBlocks)
    {
      LastBlock(payloadBlocks);
    }

    /** Starts a new block when the current one is full. */
    method NextBlock() returns (block: array<byte>)
      requires Collecting() && payloadLength < expectedPayloadLength.value
      modifies this`payloadBlocks, this`currentPayloadBlock, this`currentPayloadBlockLength
      ensures HasRoom(block) && header !in payloadBlocks
      ensures TotalLength(payloadBlocks) <= expectedPayloadLength.value
      ensures Joined(FullBlocks()) + block[..currentPayloadBlockLength] == old(Collected())
      ensures BlocksAdded(old(payloadBlocks))
    {
      if currentPayloadBlock != null && currentPayloadBlockLength < currentPayloadBlock.Length {
        block := currentPayloadBlock;
        return;
      }
      AllBlocksAreFull();
      var remaining := expectedPayloadLength.value - payloadLength;
      block := new byte[if PAYLOAD_BLOCK_SIZE < remaining then PAYLOAD_BLOCK_SIZE else remaining](_ => 0);
      JoinedAppend(payloadBlocks, block);
      payloadBlocks := payloadBlocks + [block];
      currentPayloadBlock := block;
      currentPayloadBlockLength := 0;
      assert FullBlocks() == old(payloadBlocks);
      assert Joined(FullBlocks()) + block[..0] == Joined(FullBlocks());
    }

    /** Writes `count` bytes behind what the last block holds. */
    method WriteBlock(block: array<byte>, chunk: array<byte>, start: nat, count: nat)
      requires HasRoom(block) && chunk != block && count > 0
      requires currentPayloadBlockLength + count <= block.Length && start + count <= chunk.Length
      modifies block, this`currentPayloadBlockLength, this`payloadLength
      ensures BlocksFit() && payloadLength == old(payloadLength) + count
      ensures Collected() ==
              old(Joined(FullBlocks()) + block[..currentPayloadBlockLength]) + chunk[start..start + count]
    {
      ghost var fullBlocks := FullBlocks();
      ghost var full := Joined(fullBlocks);
      ghost var held := block[..currentPayloadBlockLength];
      CopyInto(block, currentPayloadBlockLength, chunk, start, count);
      Adjacent(block[..], 0, currentPayloadBlockLength, currentPayloadBlockLength + count);
      Associates(full, held, chunk[start..start + count]);
      currentPayloadBlockLength := currentPayloadBlockLength + count;
      payloadLength := payloadLength + count;
      assert FullBlocks() == fullBlocks && Joined(fullBlocks) == full;
    }

    /** Moves as many payload bytes as fit into one block. */
    method FillBlock(chunk: array<byte>, start: nat) returns (offset: nat)
      requires Collecting() && payloadLength < expectedPayloadLength.value
      requires chunk !in payloadBlocks && start < chunk.Length
      modifies this, payloadBlocks
      ensures Collecting() && expectedPayloadLength == old(expectedPayloadLength)
      ensures BlocksAdded(old(payloadBlocks))
      ensures start < offset <= chunk.Length
      ensures Collected() == old(Collected()) + chunk[start..offset]
    {
      ghost var collected := Collected();
      var block := NextBlock();
      assert chunk != block;
      ghost var held := Joined(FullBlocks()) + block[..currentPayloadBlockLength];
      assert held == collected;
      RoomIsReserved(block);
      var payloadBytes := if block.Length - currentPayloadBlockLength < chunk.Length - start
                          then block.Length - currentPayloadBlockLength else chunk.Length - start;
      WriteBlock(block, chunk, start, payloadBytes);
      offset := start + payloadBytes;
    }

    /** Moves payload bytes into the blocks until the chunk or the payload is complete. */
    method FillPayload(chunk: array<byte>, start: nat) returns (offset: nat)
      requires Collecting() && payloadLength < expectedPayloadLength.value
      requires chunk !in payloadBlocks && start <= chunk.Length
      modifies this, payloadBlocks
      ensures Collecting() && expectedPayloadLength == old(expectedPayloadLength)
      ensures BlocksAdded(old(payloadBlocks))
      ensures start <= offset <= chunk.Length && (start < chunk.Length ==> start < offset)
      ensures offset < chunk.Length ==> payloadLength == expectedPayloadLength.value
      ensures Collected() == old(Collected()) + chunk[start..offset]
    {
      offset := start;
      while offset < chunk.Length && payloadLength < expectedPayloadLength.value
        invariant Collecting() && expectedPayloadLength == old(expectedPayloadLength)
        invariant BlocksAdded(old(payloadBlocks))
        invariant start <= offset <= chunk.Length
        invariant payloadLength == expectedPayloadLength.value ==> start < offset
        invariant Collected() == old(Collected()) + chunk[start..offset]
        decreases chunk.Length - offset
      {
        ghost var from := offset;
        offset := FillBlock(chunk, offset);
        Adjacent(chunk[..], start, from, offset);
        Associates(old(Collected()), chunk[start..from], chunk[from..offset]);
      }
    }

    /** Hands out a complete payload: its only block, or a fresh array holding all blocks. */
    method TakePayload() returns (payload: array<byte>)
      requires Collecting() && payloadLength == expectedPayloadLength.value
      modifies this
      ensures Valid() && state == Open && expectedPayloadLength.None? && headerLength == 0
      ensures payload[..] == old(Collected())
      ensures payload != header && (fresh(payload) || payload in old(payloadBlocks))
    {
      LastBlock(payloadBlocks);
      AllBlocksAreFull();
      if |payloadBlocks| == 1 {
        assert payloadBlocks == [] + [payloadBlocks[0]];
        JoinedAppend([], payloadBlocks[0]);
        payload := payloadBlocks[0];
      } else {
        payload := JoinBlocks(payloadBlocks, expectedPayloadLength.value);
      }
      payloadBlocks := [];
      currentPayloadBlock := null;
      currentPayloadBlockLength := 0;
      expectedPayloadLength := None;
      payloadLength := 0;
    }

    /** Drops everything held and refuses all further input. */
    method Fail()
      requires header.Length == FRAME_HEADER_LENGTH && maxFrameLength <= MAX_UINT32
      modifies this
      ensures Valid() && state == Failed && HoldsNothing()
    {
      state := Failed;
      headerLength := 0;
      payloadBlocks := [];
      currentPayloadBlock := null;
      currentPayloadBlockLength := 0;
      expectedPayloadLength := None;
      payloadLength := 0;
    }

    /** The header part of one round of `Push`: consumes bytes of `chunk` from `start` on. */
    method ReadHeader(chunk: array<byte>, start: nat) returns (offset: nat, read: HeaderRead)
      requires Valid() && state == Open && expectedPayloadLength.None?
      requires chunk != header && start < chunk.Length
      modifies this, header
      ensures Valid() && payloadBlocks == []
      ensures start < offset <= chunk.Length
      ensures state == if read.TooLong? then Failed else Open
      ensures expectedPayloadLength.Some? <==> read.Begins?
      ensures read.Incomplete? ==> offset == chunk.Length
      ensures read.Incomplete? || read.Begins? ==>
                Pending() + chunk[offset..] == old(Pending()) + chunk[start..]
      ensures read.EmptyFrame? ==>
                Pending() == [] && Encode([]) + chunk[offset..] == old(Pending()) + chunk[start..]
      ensures read.TooLong? <==>
              var parsed := Parse(old(Pending()) + chunk[start..], maxFrameLength);
              parsed.oversized && parsed.frames == []
      ensures read.TooLong? ==> read.length == RefusedLength(Parse(old(Pending()) + chunk[start..], maxFrameLength))
    {
      ghost var remaining := Pending() + chunk[start..];
      offset := FillHeader(chunk, start);
      if headerLength < FRAME_HEADER_LENGTH {
        assert remaining == header[..headerLength];
        return offset, Incomplete;
      }
      assert remaining == header[..] + chunk[offset..];
      assert remaining[..FRAME_HEADER_LENGTH] == header[..];
      HeaderInvertsDeclaredLength(header[..]);
      var frameLength := 0x100_0000 * (header[0] as int) + 0x1_0000 * (header[1] as int)
      + 0x100 * (header[2] as int) + header[3];
      headerLength := 0;
      if frameLength > maxFrameLength {
        Fail();
        return offset, TooLong(frameLength);
      }
      if frameLength == 0 {
        assert Encode([]) == header[..];
        return offset, EmptyFrame;
      }
      expectedPayloadLength := Some(frameLength);
      payloadBlocks := [];
      currentPayloadBlock := null;
      currentPayloadBlockLength := 0;
      payloadLength := 0;
      assert Pending() == header[..];
      return offset, Begins;
    }

    /** The payload part of one round of `Push`. */
    method ReadPayload(chunk: array<byte>, start: nat) returns (offset: nat, payload: Option<array<byte>>)
      requires Valid() && state == Open && expectedPayloadLength.Some?
      requires chunk !in payloadBlocks && start <= chunk.Length
      modifies this, payloadBlocks
      ensures Valid() && state == Open
      ensures start <= offset <= chunk.Length && (start < chunk.Length ==> start < offset)
      ensures payload.None? ==>
                && offset == chunk.Length && BlocksAdded(old(payloadBlocks))
                && Pending() == old(Pending()) + chunk[start..]
      ensures payload.Some? ==>
                && expectedPayloadLength.None? && payloadBlocks == [] && Pending() == []
                && |payload.value[..]| <= maxFrameLength
                && Encode(payload.value[..]) + chunk[offset..] == old(Pending()) + chunk[start..]
                && payload.value != header
                && (fresh(payload.value) || payload.value in old(payloadBlocks))
    {
      ghost var prefix := Header(expectedPayloadLength.value);
      ghost var collected := Collected();
      offset := FillPayload(chunk, start);
      Adjacent(chunk[..], start, offset, chunk.Length);
      Associates(prefix, collected, chunk[start..offset]);
      if payloadLength < expectedPayloadLength.value {
        return offset, None;
      }
      JoinedLength(FullBlocks());
      ghost var complete := Collected();
      ghost var blocks := payloadBlocks;
      var taken := TakePayload();
      assert taken[..] == complete && |complete| == old(expectedPayloadLength.value);
      Associates(prefix + collected, chunk[start..offset], chunk[offset..]);
      return offset, Some(taken);
    }

    /** The bytes held never contain a complete frame or an oversized header. */
    lemma PendingIsUnparsed()
      requires Valid()
      ensures Parse(Pending(), maxFrameLength) == Parsed([], Pending(), false)
    {
      if expectedPayloadLength.Some? {
        JoinedLength(FullBlocks());
        DeclaredLengthInvertsHeader(expectedPayloadLength.value);
        assert Pending()[..FRAME_HEADER_LENGTH] == Header(expectedPayloadLength.value);
      }
    }

    /** The frames already returned are out of the decoder's reach. */
    ghost predicate OutOfReach(frames: seq<array<byte>>)
      reads this
    {
      forall i :: 0 <= i < |frames| ==> frames[i] != header && frames[i] !in payloadBlocks
    }

    /** No frame shares its storage with the chunk it came from. */
    ghost predicate NoneIs(frames: seq<array<byte>>, chunk: array<byte>) {
      forall i :: 0 <= i < |frames| ==> frames[i] != chunk
    }

    /** The frames found so far, then what parsing the rest would add. */
    ghost predicate Progress(input: seq<byte>, frames: seq<array<byte>>, remaining: seq<byte>)
      reads frames
    {
      Parse(input, maxFrameLength) == Prepend(Contents(frames), Parse(remaining, maxFrameLength))
    }

    /** One round of the loop in `Push`: a header, or part of a payload, or both. */
    method Round(chunk: array<byte>, start: nat) returns (offset: nat, found: RoundResult)
      requires Valid() && state == Open && chunk != header && chunk !in payloadBlocks && start < chunk.Length
      modifies this, header, payloadBlocks
      ensures Valid() && start < offset <= chunk.Length
      ensures state == if found.Oversized? then Failed else Open
      ensures BlocksAdded(old(payloadBlocks)) || forall i :: 0 <= i < |payloadBlocks| ==> fresh(payloadBlocks[i])
      ensures found.NoFrame? ==> Pending() + chunk[offset..] == old(Pending()) + chunk[start..]
      ensures found.Frame? ==>
                && Pending() == [] && payloadBlocks == []
                && found.payload.Length <= maxFrameLength
                && Encode(found.payload[..]) + chunk[offset..] == old(Pending()) + chunk[start..]
                && found.payload != header
                && (fresh(found.payload) || found.payload in old(payloadBlocks))
      ensures found.Oversized? ==>
                var parsed := Parse(old(Pending()) + chunk[start..], maxFrameLength);
                parsed.oversized && parsed.frames == [] && found.length == RefusedLength(parsed)
    {
      offset := start;
      if expectedPayloadLength.None? {
        var read;
        offset, read := ReadHeader(chunk, start);
        match read
        case Incomplete => return offset, NoFrame;
        case TooLong(length) => return offset, Oversized(length);
        case EmptyFrame =>
          var empty := new byte[0];
          assert empty[..] == [];
          return offset, Frame(empty);
        case Begins =>
      }
      var next, payload := ReadPayload(chunk, offset);
      offset := next;
      assert payload.None? ==> chunk[offset..] == [];
      return offset, if payload.Some? then Frame(payload.value) else NoFrame;
    }

    /** One round that keeps the frames found in step with the one-pass parser. */
    method RoundWithFrames(chunk: array<byte>, start: nat, frames: seq<array<byte>>, ghost input: seq<byte>)
      returns (offset: nat, extended: seq<array<byte>>, oversized: Option<nat>)
      requires Valid() && state == Open && chunk != header && chunk !in payloadBlocks && start < chunk.Length
      requires OutOfReach(frames) && NoneIs(frames, chunk) && Progress(input, frames, Pending() + chunk[start..])
      modifies this, header, payloadBlocks
      ensures Valid() && start < offset <= chunk.Length
      ensures BlocksAdded(old(payloadBlocks)) || forall i :: 0 <= i < |payloadBlocks| ==> fresh(payloadBlocks[i])
      ensures oversized.None? ==>
                && state == Open && OutOfReach(extended)
                && Progress(input, extended, Pending() + chunk[offset..])
                && NoneIs(extended, chunk)
      ensures oversized.Some? ==>
                && state == Failed && Parse(input, maxFrameLength).oversized
                && oversized.value == RefusedLength(Parse(input, maxFrameLength))
    {
      ghost var contents := Contents(frames);
      var found;
      offset, found := Round(chunk, start);
      assert Contents(frames) == contents;
      match found
      case NoFrame => return offset, frames, None;
      case Oversized(length) => return offset, frames, Some(length);
      case Frame(payload) =>
        AddFrame(input, frames, payload, chunk[offset..]);
        assert Pending() + chunk[offset..] == chunk[offset..];
        return offset, frames + [payload], None;
    }

    /** The loop of `Push` on an open decoder. */
    method PushOpen(chunk: array<byte>) returns (outcome: Outcome<seq<array<byte>>>)
      requires Valid() && state == Open && chunk != header && chunk !in payloadBlocks
      modifies this, header, payloadBlocks
      ensures Valid() && BlocksOwned(old(payloadBlocks))
      ensures var parsed := Parse(old(Pending() + chunk[..]), maxFrameLength);
              if parsed.oversized then
                outcome == Thrown(ExceedsLimit(RefusedLength(parsed))) && RefusedLength(parsed) > maxFrameLength
                && state == Failed && HoldsNothing()
              else
                && outcome.Done? && state == Open
                && Contents(outcome.value) == parsed.frames
                && Pending() == parsed.rest
                && OutOfReach(outcome.value) && NoneIs(outcome.value, chunk)
    {
      var frames: seq<array<byte>> := [];
      var chunkOffset := 0;
      ghost var input := Pending() + chunk[..];
      assert chunk[0..] == chunk[..];
      while chunkOffset < chunk.Length
        invariant Valid() && state == Open && chunkOffset <= chunk.Length && chunk !in payloadBlocks
        invariant BlocksOwned(old(payloadBlocks))
        invariant OutOfReach(frames) && NoneIs(frames, chunk)
        invariant Progress(input, frames, Pending() + chunk[chunkOffset..])
        decreases chunk.Length - chunkOffset
      {
        var oversized;
        chunkOffset, frames, oversized := RoundWithFrames(chunk, chunkOffset, frames, input);
        if oversized.Some? {
          RefusedLengthExceedsLimit(input, maxFrameLength);
          return Thrown(ExceedsLimit(oversized.value));
        }
      }
      PendingIsUnparsed();
      assert Pending() + chunk[chunkOffset..] == Pending();
      assert Contents(frames) + [] == Contents(frames);
      return Done(frames);
    }

    /** What a push returns is what the one-pass parser finds in the bytes held and the chunk, what
        it keeps is the parser's rest, and it fails exactly when the parser meets an oversized
        header, whose length it reports. Returned arrays are out of reach of every later call and are
        never the chunk itself. */
    method Push(chunk: array<byte>) returns (outcome: Outcome<seq<array<byte>>>)
      requires Valid() && chunk != header && chunk !in payloadBlocks
      modifies this, header, payloadBlocks
      ensures Valid() && BlocksOwned(old(payloadBlocks))
      ensures old(state) == Ended ==> outcome == Thrown(HasEnded) && state == Ended
      ensures old(state) == Failed ==> outcome == Thrown(HasFailed) && state == Failed
      ensures old(state) == Open ==>
                var parsed := Parse(old(Pending() + chunk[..]), maxFrameLength);
                if parsed.oversized then
                  outcome == Thrown(ExceedsLimit(RefusedLength(parsed))) && RefusedLength(parsed) > maxFrameLength
                  && state == Failed && HoldsNothing()
                else
                  && outcome.Done? && state == Open
                  && Contents(outcome.value) == parsed.frames
                  && Pending() == parsed.rest
                  && OutOfReach(outcome.value) && NoneIs(outcome.value, chunk)
    {
      if state == Ended {
        return Thrown(HasEnded);
      }
      if state == Failed {
        return Thrown(HasFailed);
      }
      outcome := PushOpen(chunk);
    }

    lemma AddFrame(input: seq<byte>, frames: seq<array<byte>>, frame: array<byte>, tail: seq<byte>)
      requires frame.Length <= maxFrameLength <= MAX_UINT32
      requires Progress(input, frames, Encode(frame[..]) + tail)
      ensures Progress(input, frames + [frame], tail)
    {
      ParseFrame(frame[..], tail, maxFrameLength);
      PrependTwice(Contents(frames), [frame[..]], Parse(tail, maxFrameLength));
      assert Contents(frames + [frame]) == Contents(frames) + [frame[..]];
    }

    /** An open decoder ends cleanly exactly when every received byte belongs to a returned frame. */
    method End() returns (outcome: Outcome<()>)
      requires Valid()
      modifies this
      ensures Valid()
      ensures old(state) == Ended ==> outcome == Thrown(HasEnded) && state == Ended
      ensures old(state) == Failed ==> outcome == Thrown(HasFailed) && state == Failed
      ensures old(state) == Open ==>
                if old(Pending()) == [] then outcome == Done(()) && state == Ended
                else outcome == Thrown(Truncated) && state == Failed && HoldsNothing()
    {
      if state == Ended {
        return Thrown(HasEnded);
      }
      if state == Failed {
        return Thrown(HasFailed);
      }
      if headerLength != 0 || expectedPayloadLength.Some? {
        Fail();
        return Thrown(Truncated);
      }
      state := Ended;
      return Done(());
    }
  }

  /** One push of a run, adding to the frames of the earlier ones, which it leaves as they are. */
  method PushNext(decoder: FrameDecoder, chunk: array<byte>, frames: seq<array<byte>>)
    returns (extended: seq<array<byte>>, failed: bool)
    requires decoder.Valid() && decoder.state == Open && decoder.OutOfReach(frames)
    requires chunk != decoder.header && chunk !in decoder.payloadBlocks
    modifies decoder, decoder.header, decoder.payloadBlocks
    ensures decoder.BlocksOwned(old(decoder.payloadBlocks))
    ensures var parsed := Parse(old(decoder.Pending() + chunk[..]), decoder.maxFrameLength);
            && failed == parsed.oversized
            && Contents(extended) == old(Contents(frames)) + (if failed then [] else parsed.frames)
            && (!failed ==> decoder.Valid() && decoder.state == Open && decoder.OutOfReach(extended)
                            && decoder.Pending() == parsed.rest)
  {
    ghost var contents := Contents(frames);
    var outcome := decoder.Push(chunk);
    Unwritten(frames, contents);
    if outcome.Thrown? {
      return frames, true;
    }
    ContentsAppend(frames, outcome.value);
    return frames + outcome.value, false;
  }

  /** A decoder fed chunk by chunk and ended, as a connection does it. The frames returned by all
      pushes are still intact at the end: no later push wrote to an array handed out earlier. */
  method DecodeChunks(chunks: seq<array<byte>>, limit: nat)
    returns (frames: seq<array<byte>>, failedAt: Option<nat>, complete: bool)
    requires limit <= MAX_UINT32
    ensures var fed := Feed([], old(Contents(chunks)), limit);
            && failedAt == fed.failedAt
            && Contents(frames) == fed.frames
            && (complete <==> fed.failedAt.None? && fed.pending == [])
  {
    var decoder := new FrameDecoder(limit);
    frames := [];
    ghost var data := Contents(chunks);
    assert data[0..] == data;
    for index := 0 to |chunks|
      invariant decoder.Valid() && decoder.state == Open && decoder.maxFrameLength == limit
      invariant fresh(decoder) && fresh(decoder.header)
      invariant forall i :: 0 <= i < |decoder.payloadBlocks| ==> fresh(decoder.payloadBlocks[i])
      invariant decoder.OutOfReach(frames)
      invariant Feed([], data, limit) ==
                FedAfter(Contents(frames), index, Feed(decoder.Pending(), data[index..], limit))
    {
      OneMoreFed(Feed([], data, limit), Contents(frames), index, decoder.Pending(), data, limit);
      var failed;
      frames, failed := PushNext(decoder, chunks[index], frames);
      if failed {
        return frames, Some(index), false;
      }
    }
    ghost var pending := decoder.Pending();
    var ending := decoder.End();
    return frames, None, ending.Done?;
  }

  lemma Unwritten(arrays: seq<array<byte>>, contents: seq<seq<byte>>)
    requires |contents| == |arrays| && forall i :: 0 <= i < |arrays| ==> arrays[i][..] == contents[i]
    ensures Contents(arrays) == contents
  {
  }

  lemma OneMoreFed(all: Fed, frames: seq<seq<byte>>, index: nat, pending: seq<byte>, data: seq<seq<byte>>, limit: nat)
    requires index < |data| && all == FedAfter(frames, index, Feed(pending, data[index..], limit))
    ensures var parsed := Parse(pending + data[index], limit);
            if parsed.oversized then all == Fed(frames, [], Some(index))
            else all == FedAfter(frames + parsed.frames, index + 1, Feed(parsed.rest, data[index + 1..], limit))
  {
    assert data[index..][0] == data[index] && data[index..][1..] == data[index + 1..];
    FedLater(frames, index, pending, data[index..], limit);
  }

  lemma ContentsAppend(left: seq<array<byte>>, right: seq<array<byte>>)
    ensures Contents(left + right) == Contents(left) + Contents(right)
  {
  }

  /** The result of a run whose first `count` pushes returned `frames`. */
  ghost function FedAfter(frames: seq<seq<byte>>, count: nat, later: Fed): Fed {
    Fed(frames + later.frames, later.pending,
        if later.failedAt.Some? then Some(count + later.failedAt.value) else None)
  }

  lemma FedLater(frames: seq<seq<byte>>, count: nat, pending: seq<byte>, chunks: seq<seq<byte>>, limit: nat)
    requires chunks != []
    ensures var parsed := Parse(pending + chunks[0], limit);
            var all := FedAfter(frames, count, Feed(pending, chunks, limit));
            if parsed.oversized then all == Fed(frames, [], Some(count))
            else all == FedAfter(frames + parsed.frames, count + 1, Feed(parsed.rest, chunks[1..], limit))
  {
    var parsed := Parse(pending + chunks[0], limit);
    if !parsed.oversized {
      FedShifts(frames, count, parsed.frames, Feed(parsed.rest, chunks[1..], limit));
    } else {
      assert frames + [] == frames;
    }
  }

  lemma FedShifts(frames: seq<seq<byte>>, count: nat, found: seq<seq<byte>>, later: Fed)
    ensures FedAfter(frames, count, FedNext(found, later)) == FedAfter(frames + found, count + 1, later)
  {
    Associates(frames, found, later.frames);
  }

  /** What one look at the header buffer found. */
  datatype HeaderRead = Incomplete | TooLong(length: nat) | EmptyFrame | Begins

  /** What one round of `Push` produced. */
  datatype RoundResult = NoFrame | Frame(payload: array<byte>) | Oversized(length: nat)

  method JoinBlocks(blocks: seq<array<byte>>, length: nat) returns (payload: array<byte>)
    requires TotalLength(blocks) == length
    ensures fresh(payload) && payload[..] == Joined(blocks)
  {
    payload := new byte[length](_ => 0);
    var offset := 0;
    for index := 0 to |blocks|
      invariant offset == LengthTo(blocks, index) <= length
      invariant payload[..offset] == JoinedTo(blocks, index)
    {
      var block := blocks[index];
      PrefixIsShorter(blocks, |blocks|, index + 1);
      ghost var joined := JoinedTo(blocks, index);
      CopyInto(payload, offset, block, 0, block.Length);
      Adjacent(payload[..], 0, offset, offset + block.Length);
      assert block[0..block.Length] == block[..];
      assert JoinedTo(blocks, index) == joined;
      offset := offset + block.Length;
    }
    assert payload[..] == payload[..offset];
  }
}
