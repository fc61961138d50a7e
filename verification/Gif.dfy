// Counting GIF frames by walking blocks (internal/provider/image_inspection.go),
// against the printed block grammar of sections 15 to 22 and 27 of the GIF89a
// specification.
module Gif {
  import opened Wrappers

  type Byte = b: int | 0 <= b < 256

  datatype GifError =
    | MissingHeader
    | NoImageFrame
    | TruncatedDescriptor
    | TruncatedImageData
    | TruncatedSubBlock
    | UnknownBlock
    | MissingTrailer

  const TRAILER: Byte := 0x3b
  const EXTENSION: Byte := 0x21
  const IMAGE: Byte := 0x2c
  const HEADER_LENGTH := 13
  const DESCRIPTOR_LENGTH := 10

  function PowerOfTwo(n: nat): nat {
    if n == 0 then 1 else 2 * PowerOfTwo(n - 1)
  }

  // The bytes of the colour table announced by a packed byte: its top bit says
  // whether there is one and its low three bits how long it is.
  function TableSize(packed: Byte): nat {
    if packed >= 0x80 then 3 * PowerOfTwo(packed % 8 + 1) else 0
  }

  // The sizes the specification allows: three bytes for each of two to 256
  // colours, chosen by the low three bits, when the top bit is set.
  lemma TableSizeIs(flag: bool, middle: nat, low: nat)
    requires middle < 16 && low < 8
    ensures var packed := (if flag then 128 else 0) + 8 * middle + low;
            TableSize(packed) == if flag then [6, 12, 24, 48, 96, 192, 384, 768][low] else 0
  {
    assert PowerOfTwo(1) == 2 && PowerOfTwo(2) == 4 && PowerOfTwo(3) == 8 && PowerOfTwo(4) == 16;
    assert PowerOfTwo(5) == 32 && PowerOfTwo(6) == 64 && PowerOfTwo(7) == 128 && PowerOfTwo(8) == 256;
  }

  // "GIF" and ten more bytes.
  predicate HasHeader(data: seq<Byte>) {
    |data| >= HEADER_LENGTH && data[0] == 0x47 && data[1] == 0x49 && data[2] == 0x46
  }

  // ------------------------------------------------------------ the printed form

  datatype Block =
    | Extension(tag: Byte, data: seq<seq<Byte>>)
    | Image(descriptor: seq<Byte>, table: seq<Byte>, codeSize: Byte, data: seq<seq<Byte>>)

  predicate WellFormedSubs(subs: seq<seq<Byte>>) {
    forall i :: 0 <= i < |subs| ==> 0 < |subs[i]| < 256
  }

  predicate WellFormed(block: Block) {
    match block
    case Extension(_, data) => WellFormedSubs(data)
    case Image(descriptor, table, _, data) =>
      |descriptor| == DESCRIPTOR_LENGTH - 1 && |table| == TableSize(descriptor[8]) && WellFormedSubs(data)
  }

  predicate AllWellFormed(blocks: seq<Block>) {
    forall i :: 0 <= i < |blocks| ==> WellFormed(blocks[i])
  }

  function PrintSubs(subs: seq<seq<Byte>>): seq<Byte>
    requires WellFormedSubs(subs)
  {
    if subs == [] then [0] else [|subs[0]|] + subs[0] + PrintSubs(subs[1..])
  }

  // What comes before the sub-blocks.
  function BlockHead(block: Block): seq<Byte> {
    match block
    case Extension(tag, _) => [EXTENSION, tag]
    case Image(descriptor, table, codeSize, _) => [IMAGE] + descriptor + table + [codeSize]
  }

  function PrintBlock(block: Block): seq<Byte>
    requires WellFormed(block)
  {
    BlockHead(block) + PrintSubs(block.data)
  }

  function PrintBlocks(blocks: seq<Block>): seq<Byte>
    requires AllWellFormed(blocks)
  {
    if blocks == [] then [] else PrintBlock(blocks[0]) + PrintBlocks(blocks[1..])
  }

  function Images(blocks: seq<Block>): nat {
    if blocks == [] then 0 else (if blocks[0].Image? then 1 else 0) + Images(blocks[1..])
  }

  predicate WellFormedHead(header: seq<Byte>, table: seq<Byte>) {
    |header| == HEADER_LENGTH && HasHeader(header) && |table| == TableSize(header[10])
  }

  // The blocks and what follows them.
  function PrintThen(blocks: seq<Block>, tail: seq<Byte>): seq<Byte>
    requires AllWellFormed(blocks)
  {
    PrintBlocks(blocks) + tail
  }

  function PrintGif(header: seq<Byte>, table: seq<Byte>, blocks: seq<Block>): seq<Byte>
    requires AllWellFormed(blocks)
  {
    header + table + PrintThen(blocks, [TRAILER])
  }

  // The data begins with this header, global colour table, blocks and trailer.
  ghost predicate StartsWith(data: seq<Byte>, header: seq<Byte>, table: seq<Byte>, blocks: seq<Block>) {
    && WellFormedHead(header, table)
    && AllWellFormed(blocks)
    && PrintGif(header, table, blocks) <= data
  }

  // ------------------------------------------------------------------ the walk

  // Where the sub-blocks starting here end, if they do.
  function SkipSubs(data: seq<Byte>, offset: nat): (end: Option<nat>)
    ensures end.Some? ==> offset < end.value <= |data|
    decreases |data| - offset
  {
    if offset >= |data| then None
    else if data[offset] == 0 then Some(offset + 1)
    else if offset + 1 + data[offset] > |data| then None
    else SkipSubs(data, offset + 1 + data[offset])
  }

  datatype Stepped = AtTrailer | Next(image: bool, end: nat) | Broken(error: GifError)

  function SkipFrom(data: seq<Byte>, offset: nat, image: bool): (r: Stepped)
    ensures r.Next? ==> offset < r.end <= |data|
  {
    var end := SkipSubs(data, offset);
    if end.None? then Broken(TruncatedSubBlock) else Next(image, end.value)
  }

  function StepImage(data: seq<Byte>, offset: nat): (r: Stepped)
    ensures r.Next? ==> offset < r.end <= |data|
  {
    if offset + DESCRIPTOR_LENGTH > |data| then Broken(TruncatedDescriptor)
    else
      var body := offset + DESCRIPTOR_LENGTH + TableSize(data[offset + 9]);
      if body >= |data| then Broken(TruncatedImageData) else SkipFrom(data, body + 1, true)
  }

  // Past the block at this offset.
  function Step(data: seq<Byte>, offset: nat): (r: Stepped)
    ensures r.Next? ==> offset < r.end <= |data|
  {
    if offset >= |data| then Broken(MissingTrailer)
    else if data[offset] == TRAILER then AtTrailer
    else if data[offset] == EXTENSION then SkipFrom(data, offset + 2, false)
    else if data[offset] == IMAGE then StepImage(data, offset)
    else Broken(UnknownBlock)
  }

  function Verdict(frames: nat): Result<nat, GifError> {
    if frames == 0 then Err(NoImageFrame) else Ok(frames)
  }

  function Walk(data: seq<Byte>, offset: nat, frames: nat): Result<nat, GifError>
    decreases |data| - offset
  {
    match Step(data, offset)
    case AtTrailer => Verdict(frames)
    case Broken(error) => Err(error)
    case Next(image, end) => Walk(data, end, if image then frames + 1 else frames)
  }

  function Count(data: seq<Byte>): Result<nat, GifError> {
    if !HasHeader(data) then Err(MissingHeader) else Walk(data, HEADER_LENGTH + TableSize(data[10]), 0)
  }

  method SkipSubBlocks(data: array<Byte>, start: nat) returns (r: Result<nat, GifError>)
    ensures r == match SkipSubs(data[..], start) case None => Err(TruncatedSubBlock) case Some(end) => Ok(end)
  {
    var offset := start;
    while true
      invariant SkipSubs(data[..], offset) == SkipSubs(data[..], start)
      decreases data.Length - offset
    {
      if offset >= data.Length {
        return Err(TruncatedSubBlock);
      }
      var size := data[offset];
      offset := offset + 1;
      if size == 0 {
        return Ok(offset);
      }
      if offset + size > data.Length {
        return Err(TruncatedSubBlock);
      }
      offset := offset + size;
    }
  }

  method CountFrames(data: array<Byte>) returns (r: Result<nat, GifError>)
    ensures r == Count(data[..])
  {
    if data.Length < HEADER_LENGTH || data[0] != 0x47 || data[1] != 0x49 || data[2] != 0x46 {
      return Err(MissingHeader);
    }
    var offset: nat := HEADER_LENGTH;
    offset := offset + TableSize(data[10]);
    var frames := 0;
    while offset < data.Length
      invariant Walk(data[..], offset, frames) == Count(data[..])
      decreases data.Length - offset
    {
      if data[offset] == TRAILER {
        return if frames == 0 then Err(NoImageFrame) else Ok(frames);
      } else if data[offset] == EXTENSION {
        offset := offset + 2;
      } else if data[offset] == IMAGE {
        frames := frames + 1;
        if offset + DESCRIPTOR_LENGTH > data.Length {
          return Err(TruncatedDescriptor);
        }
        offset := offset + DESCRIPTOR_LENGTH + TableSize(data[offset + 9]);
        if offset >= data.Length {
          return Err(TruncatedImageData);
        }
        offset := offset + 1;
      } else {
        return Err(UnknownBlock);
      }
      var skipped := SkipSubBlocks(data, offset);
      if skipped.Err? {
        return Err(skipped.error);
      }
      offset := skipped.value;
    }
    r := Err(MissingTrailer);
  }

  // ----------------------------------------------- the walk reads what is printed

  predicate Holds(data: seq<Byte>, offset: nat, part: seq<Byte>) {
    offset + |part| <= |data| && data[offset..offset + |part|] == part
  }

  lemma HoldsAt(data: seq<Byte>, offset: nat, part: seq<Byte>, i: nat)
    requires Holds(data, offset, part) && i < |part|
    ensures data[offset + i] == part[i]
  {
    assert data[offset..offset + |part|][i] == part[i];
  }

  lemma HoldsBoth(data: seq<Byte>, offset: nat, a: seq<Byte>, b: seq<Byte>)
    ensures Holds(data, offset, a + b) <==> Holds(data, offset, a) && Holds(data, offset + |a|, b)
  {
    if offset + |a| + |b| <= |data| {
      var whole := data[offset..offset + |a| + |b|];
      assert whole[..|a|] == data[offset..offset + |a|] && whole[|a|..] == data[offset + |a|..offset + |a| + |b|];
      assert whole == whole[..|a|] + whole[|a|..];
      assert (a + b)[..|a|] == a && (a + b)[|a|..] == b;
    }
  }

  lemma {:induction false} SkipPrinted(data: seq<Byte>, offset: nat, subs: seq<seq<Byte>>)
    requires WellFormedSubs(subs) && Holds(data, offset, PrintSubs(subs))
    ensures SkipSubs(data, offset) == Some(offset + |PrintSubs(subs)|)
    decreases |subs|
  {
    HoldsAt(data, offset, PrintSubs(subs), 0);
    if subs != [] {
      HoldsBoth(data, offset, [|subs[0]|] + subs[0], PrintSubs(subs[1..]));
      SkipPrinted(data, offset + 1 + |subs[0]|, subs[1..]);
    }
  }

  lemma ImageHeadAt(data: seq<Byte>, offset: nat, block: Block)
    requires WellFormed(block) && block.Image? && Holds(data, offset, BlockHead(block))
    ensures offset + |BlockHead(block)| <= |data|
    ensures data[offset] == IMAGE && data[offset + 9] == block.descriptor[8]
    ensures |BlockHead(block)| == DESCRIPTOR_LENGTH + TableSize(data[offset + 9]) + 1
  {
    HoldsAt(data, offset, BlockHead(block), 0);
    HoldsAt(data, offset, BlockHead(block), 9);
  }

  lemma StepReadsBlock(data: seq<Byte>, offset: nat, block: Block)
    requires WellFormed(block) && Holds(data, offset, PrintBlock(block))
    ensures Step(data, offset) == Next(block.Image?, offset + |PrintBlock(block)|)
  {
    HoldsBoth(data, offset, BlockHead(block), PrintSubs(block.data));
    SkipPrinted(data, offset + |BlockHead(block)|, block.data);
    if block.Image? {
      ImageHeadAt(data, offset, block);
    } else {
      HoldsAt(data, offset, BlockHead(block), 0);
    }
  }

  lemma Regroup(a: seq<Byte>, b: seq<Byte>, c: seq<Byte>)
    ensures a + b + c == a + (b + c)
  {
  }

  // The blocks, printed here, with the tail after them.
  ghost predicate BlocksAt(data: seq<Byte>, offset: nat, blocks: seq<Block>, tail: seq<Byte>) {
    AllWellFormed(blocks) && Holds(data, offset, PrintThen(blocks, tail))
  }

  lemma PrintThenIs(blocks: seq<Block>, first: Block, rest: seq<Block>, tail: seq<Byte>)
    requires blocks != [] && first == blocks[0] && rest == blocks[1..] && AllWellFormed(blocks)
    ensures PrintThen(blocks, tail) == PrintBlock(first) + PrintThen(rest, tail)
  {
    Regroup(PrintBlock(first), PrintBlocks(rest), tail);
  }

  lemma FirstBlock(data: seq<Byte>, offset: nat, blocks: seq<Block>, first: Block, rest: seq<Block>, tail: seq<Byte>)
    returns (end: nat)
    requires blocks != [] && first == blocks[0] && rest == blocks[1..] && BlocksAt(data, offset, blocks, tail)
    ensures Step(data, offset) == Next(first.Image?, end) && BlocksAt(data, end, rest, tail)
    ensures end + |PrintThen(rest, tail)| == offset + |PrintThen(blocks, tail)|
  {
    var block := PrintBlock(first);
    PrintThenIs(blocks, first, rest, tail);
    HoldsBoth(data, offset, block, PrintThen(rest, tail));
    StepReadsBlock(data, offset, first);
    end := offset + |block|;
  }

  // Stepping from here passes these blocks, in order, and then stops so.
  predicate Passes(data: seq<Byte>, offset: nat, blocks: seq<Block>, stop: Stepped)
    decreases |blocks|
  {
    if blocks == [] then Step(data, offset) == stop
    else
      var step := Step(data, offset);
      step.Next? && step.image == blocks[0].Image? && Passes(data, step.end, blocks[1..], stop)
  }

  // What stepping does where the tail starts.
  ghost predicate StopsAt(data: seq<Byte>, tail: seq<Byte>, stop: Stepped, after: nat) {
    forall offset: nat :: offset + |tail| == after && Holds(data, offset, tail) ==> Step(data, offset) == stop
  }

  lemma {:induction false} PrintedPasses(
    data: seq<Byte>, offset: nat, blocks: seq<Block>, tail: seq<Byte>, stop: Stepped, after: nat)
    requires BlocksAt(data, offset, blocks, tail) && offset + |PrintThen(blocks, tail)| == after
    requires StopsAt(data, tail, stop, after)
    ensures Passes(data, offset, blocks, stop)
    decreases |blocks|
  {
    if blocks == [] {
      assert PrintThen(blocks, tail) == tail;
      assert Holds(data, offset, tail);
    } else {
      var rest := blocks[1..];
      var end := FirstBlock(data, offset, blocks, blocks[0], rest, tail);
      PrintedPasses(data, end, rest, tail, stop, after);
    }
  }

  function Outcome(stop: Stepped, frames: nat): Result<nat, GifError> {
    if stop.Broken? then Err(stop.error) else Verdict(frames)
  }

  lemma {:induction false} PassedIsCounted(data: seq<Byte>, offset: nat, blocks: seq<Block>, frames: nat, stop: Stepped)
    requires Passes(data, offset, blocks, stop) && !stop.Next?
    ensures Walk(data, offset, frames) == Outcome(stop, frames + Images(blocks))
    decreases |blocks|
  {
    if blocks != [] {
      var step := Step(data, offset);
      PassedIsCounted(data, step.end, blocks[1..], if step.image then frames + 1 else frames, stop);
    }
  }

  // Data beginning with a printed GIF counts as many frames as it has images,
  // whatever follows its trailer; one without images is refused.
  lemma PrintedIsCounted(data: seq<Byte>, header: seq<Byte>, table: seq<Byte>, blocks: seq<Block>)
    requires StartsWith(data, header, table, blocks)
    ensures Count(data) == if Images(blocks) > 0 then Ok(Images(blocks)) else Err(NoImageFrame)
    ensures data[0] as char == 'G' && data[1] as char == 'I' && data[2] as char == 'F'
  {
    var start := |header| + |table|;
    BodyStarts(data, header, table, blocks, [TRAILER], start);
    TrailerStops(data, start + |PrintThen(blocks, [TRAILER])|);
    PrintedPasses(data, start, blocks, [TRAILER], AtTrailer, start + |PrintThen(blocks, [TRAILER])|);
    BodyIsCounted(data, start, blocks, AtTrailer);
  }

  lemma TrailerStops(data: seq<Byte>, after: nat)
    ensures StopsAt(data, [TRAILER], AtTrailer, after)
  {
    forall offset: nat | offset + 1 == after && Holds(data, offset, [TRAILER])
      ensures Step(data, offset) == AtTrailer
    {
      HoldsAt(data, offset, [TRAILER], 0);
    }
  }

  lemma BodyIsCounted(data: seq<Byte>, start: nat, blocks: seq<Block>, stop: Stepped)
    requires HasHeader(data) && start == HEADER_LENGTH + TableSize(data[10]) && Passes(data, start, blocks, stop) && !stop.Next?
    ensures Count(data) == Outcome(stop, Images(blocks))
  {
    PassedIsCounted(data, start, blocks, 0, stop);
  }

  lemma BodyStarts(data: seq<Byte>, header: seq<Byte>, table: seq<Byte>, blocks: seq<Block>, tail: seq<Byte>, start: nat)
    requires WellFormedHead(header, table) && AllWellFormed(blocks) && start == |header| + |table|
    requires header + table + PrintThen(blocks, tail) <= data
    ensures HasHeader(data) && start == HEADER_LENGTH + TableSize(data[10]) && BlocksAt(data, start, blocks, tail)
  {
    PrefixHolds(data, header + table + PrintThen(blocks, tail));
    HoldsBoth(data, 0, header + table, PrintThen(blocks, tail));
    HeaderHolds(data, header, table);
  }

  lemma PrefixHolds(data: seq<Byte>, part: seq<Byte>)
    requires part <= data
    ensures Holds(data, 0, part)
  {
  }

  lemma HeaderHolds(data: seq<Byte>, header: seq<Byte>, table: seq<Byte>)
    requires WellFormedHead(header, table) && Holds(data, 0, header + table)
    ensures HasHeader(data) && data[10] == header[10]
  {
    HoldsAt(data, 0, header + table, 0);
    HoldsAt(data, 0, header + table, 1);
    HoldsAt(data, 0, header + table, 2);
    HoldsAt(data, 0, header + table, 10);
  }

  // ------------------------------------------- what is counted was so printed

  lemma {:induction false} SubsPrint(data: seq<Byte>, offset: nat) returns (subs: seq<seq<Byte>>)
    requires SkipSubs(data, offset).Some?
    ensures WellFormedSubs(subs) && Holds(data, offset, PrintSubs(subs))
    ensures SkipSubs(data, offset) == Some(offset + |PrintSubs(subs)|)
    decreases |data| - offset
  {
    if data[offset] == 0 {
      subs := [];
    } else {
      var next := offset + 1 + data[offset];
      var first := data[offset + 1..next];
      var others := SubsPrint(data, next);
      subs := [first] + others;
      assert subs[1..] == others;
      assert Holds(data, offset, [|first|] + first);
      HoldsBoth(data, offset, [|first|] + first, PrintSubs(others));
    }
  }

  lemma ImageHeadHolds(data: seq<Byte>, offset: nat, body: nat)
    requires offset + DESCRIPTOR_LENGTH <= body < |data|
    ensures Holds(data, offset, [data[offset]] + data[offset + 1..offset + 10] + data[offset + 10..body] + [data[body]])
  {
    HoldsBoth(data, offset, [data[offset]], data[offset + 1..offset + 10]);
    HoldsBoth(data, offset, [data[offset]] + data[offset + 1..offset + 10], data[offset + 10..body]);
    HoldsBoth(data, offset, [data[offset]] + data[offset + 1..offset + 10] + data[offset + 10..body], [data[body]]);
  }

  lemma BlockPrints(data: seq<Byte>, offset: nat) returns (block: Block)
    requires Step(data, offset).Next?
    ensures WellFormed(block) && Holds(data, offset, PrintBlock(block))
    ensures Step(data, offset) == Next(block.Image?, offset + |PrintBlock(block)|)
  {
    if data[offset] == EXTENSION {
      var subs := SubsPrint(data, offset + 2);
      block := Extension(data[offset + 1], subs);
      assert Holds(data, offset, BlockHead(block));
    } else {
      var body := offset + DESCRIPTOR_LENGTH + TableSize(data[offset + 9]);
      var subs := SubsPrint(data, body + 1);
      block := Image(data[offset + 1..offset + 10], data[offset + 10..body], data[body], subs);
      ImageHeadHolds(data, offset, body);
    }
    HoldsBoth(data, offset, BlockHead(block), PrintSubs(block.data));
  }

  lemma TrailerAt(data: seq<Byte>, offset: nat)
    requires offset < |data| && data[offset] == TRAILER
    ensures BlocksAt(data, offset, [], [TRAILER])
  {
    assert PrintThen([], [TRAILER]) == [TRAILER] && data[offset..offset + 1] == [data[offset]];
  }

  lemma OneMoreBlock(data: seq<Byte>, offset: nat, block: Block, end: nat, others: seq<Block>, blocks: seq<Block>)
    requires WellFormed(block) && Holds(data, offset, PrintBlock(block)) && end == offset + |PrintBlock(block)|
    requires BlocksAt(data, end, others, [TRAILER]) && blocks == [block] + others
    ensures BlocksAt(data, offset, blocks, [TRAILER])
  {
    assert blocks[0] == block && blocks[1..] == others;
    PrintThenIs(blocks, block, others, [TRAILER]);
    HoldsBoth(data, offset, PrintBlock(block), PrintThen(others, [TRAILER]));
  }

  lemma {:induction false} WalkIsPrinted(data: seq<Byte>, offset: nat, frames: nat) returns (blocks: seq<Block>)
    requires Walk(data, offset, frames).Ok? || Walk(data, offset, frames) == Err(NoImageFrame)
    ensures BlocksAt(data, offset, blocks, [TRAILER])
    decreases |data| - offset
  {
    var step := Step(data, offset);
    if step.AtTrailer? {
      blocks := [];
      TrailerAt(data, offset);
    } else {
      var block := BlockPrints(data, offset);
      var others := WalkIsPrinted(data, step.end, if step.image then frames + 1 else frames);
      blocks := [block] + others;
      OneMoreBlock(data, offset, block, step.end, others, blocks);
    }
  }

  lemma HeadHolds(data: seq<Byte>, header: seq<Byte>, table: seq<Byte>, start: nat)
    requires HEADER_LENGTH <= start <= |data| && header == data[..HEADER_LENGTH] && table == data[HEADER_LENGTH..start]
    ensures Holds(data, 0, header + table) && |header + table| == start
  {
    assert data[0..start] == header + table;
  }

  lemma HoldsIsPrefix(data: seq<Byte>, part: seq<Byte>)
    requires Holds(data, 0, part)
    ensures part <= data
  {
  }

  // A count, or a refusal for want of images, comes from data that begins with a
  // printed GIF with that many of them.
  lemma CountedIsPrinted(data: seq<Byte>) returns (header: seq<Byte>, table: seq<Byte>, blocks: seq<Block>)
    requires Count(data).Ok? || Count(data) == Err(NoImageFrame)
    ensures StartsWith(data, header, table, blocks)
    ensures Images(blocks) == if Count(data).Ok? then Count(data).value else 0
  {
    var start := HEADER_LENGTH + TableSize(data[10]);
    blocks := WalkIsPrinted(data, start, 0);
    header, table := data[..HEADER_LENGTH], data[HEADER_LENGTH..start];
    HeadHolds(data, header, table, start);
    HoldsBoth(data, 0, header + table, PrintThen(blocks, [TRAILER]));
    HoldsIsPrefix(data, PrintGif(header, table, blocks));
    PrintedIsCounted(data, header, table, blocks);
  }

  // -------------------------------------------------------- why data is refused

  // What is wrong with data that goes on with neither a trailer nor a whole block.
  function WhatIsWrong(tail: seq<Byte>): GifError {
    if tail == [] then MissingTrailer
    else if tail[0] == 0x21 then TruncatedSubBlock
    else if tail[0] != 0x2c then UnknownBlock
    else if |tail| < 10 then TruncatedDescriptor
    else if |tail| <= 10 + TableSize(tail[9]) then TruncatedImageData
    else TruncatedSubBlock
  }

  // No whole block is printed at the start.
  ghost predicate NoWholeBlock(tail: seq<Byte>) {
    forall block :: WellFormed(block) ==> !(PrintBlock(block) <= tail)
  }

  lemma BreaksAt(data: seq<Byte>, offset: nat, tail: seq<Byte>)
    requires offset <= |data| && data[offset..] == tail && NoWholeBlock(tail) && (tail == [] || tail[0] != TRAILER)
    ensures Step(data, offset) == Broken(WhatIsWrong(tail))
  {
    if Step(data, offset).Next? {
      var block := BlockPrints(data, offset);
      HeldIsPrefix(data, offset, PrintBlock(block), tail);
    }
    assert tail != [] ==> data[offset] == tail[0];
    assert |tail| >= 10 ==> data[offset + 9] == tail[9];
  }

  lemma HeldIsPrefix(data: seq<Byte>, offset: nat, part: seq<Byte>, tail: seq<Byte>)
    requires offset <= |data| && data[offset..] == tail && Holds(data, offset, part)
    ensures part <= tail
  {
    assert tail[..|part|] == data[offset..offset + |part|];
  }

  lemma BrokenStops(data: seq<Byte>, tail: seq<Byte>)
    requires NoWholeBlock(tail) && (tail == [] || tail[0] != TRAILER)
    ensures StopsAt(data, tail, Broken(WhatIsWrong(tail)), |data|)
  {
    forall offset: nat | offset + |tail| == |data| && Holds(data, offset, tail)
      ensures Step(data, offset) == Broken(WhatIsWrong(tail))
    {
      assert data[offset..] == tail;
      BreaksAt(data, offset, tail);
    }
  }

  // Data that is a printed header and any number of printed blocks, and goes on
  // with neither a trailer nor a whole block, is refused for what is wrong with
  // what follows.
  lemma BrokenIsReported(data: seq<Byte>, header: seq<Byte>, table: seq<Byte>, blocks: seq<Block>, tail: seq<Byte>)
    requires WellFormedHead(header, table) && AllWellFormed(blocks)
    requires data == header + table + PrintThen(blocks, tail)
    requires NoWholeBlock(tail) && (tail == [] || tail[0] != TRAILER)
    ensures Count(data) == Err(WhatIsWrong(tail))
  {
    var start, stop := |header| + |table|, Broken(WhatIsWrong(tail));
    BodyStarts(data, header, table, blocks, tail, start);
    BrokenStops(data, tail);
    PrintedPasses(data, start, blocks, tail, stop, |data|);
    BodyIsCounted(data, start, blocks, stop);
  }

  // Without the thirteen bytes of a header, or the whole colour table after them,
  // data is refused as such.
  lemma HeadlessIsReported(data: seq<Byte>)
    ensures |data| < 13 || data[..3] != [0x47, 0x49, 0x46] ==> Count(data) == Err(MissingHeader)
    ensures |data| >= 13 && data[..3] == [0x47, 0x49, 0x46] && |data| <= 13 + TableSize(data[10]) ==>
              Count(data) == Err(MissingTrailer)
  {
    if |data| >= 13 {
      assert data[..3] == [data[0], data[1], data[2]];
    }
  }
}
