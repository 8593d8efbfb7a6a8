/**
 The media service worker: one entry per media id with an append-only history of chunks, and
 response streams that each read it through a cursor of their own.
 */
module ServiceWorker {
  import opened Basics
  import F = Frames
  import W = WireFormat

  /** A chunk of the history, or the null that marks its end. */
  datatype Item = Data(bytes: Bytes) | End

  /** The bytes of a history, up to its end mark. */
  function History(items: seq<Item>): Bytes {
    if items == [] || items[0].End? then [] else items[0].bytes + History(items[1..])
  }

  predicate Ended(items: seq<Item>) {
    End in items
  }

  /** Chunks in a row, each as it came. */
  function Items(chunks: seq<Bytes>): seq<Item> {
    if chunks == [] then [] else [Data(chunks[0])] + Items(chunks[1..])
  }

  /** The sizes of all chunks, those after an end mark too. */
  function Buffered(items: seq<Item>): nat {
    if items == [] then 0 else (if items[0].Data? then |items[0].bytes| else 0) + Buffered(items[1..])
  }

  lemma {:induction false} BufferedSnoc(items: seq<Item>, item: Item)
    ensures Buffered(items + [item]) == Buffered(items) + (if item.Data? then |item.bytes| else 0)
  {
    if items == [] {
      assert items + [item] == [item] && [item][1..] == [];
    } else {
      BufferedSnoc(items[1..], item);
      assert (items + [item])[1..] == items[1..] + [item];
    }
  }

  lemma {:induction false} HistorySplit(a: seq<Item>, b: seq<Item>)
    requires !Ended(a)
    ensures History(a + b) == History(a) + History(b)
  {
    if a == [] {
      assert a + b == b;
    } else {
      assert a[0] in a && !a[0].End?;
      assert forall x :: x in a[1..] ==> x in a;
      HistorySplit(a[1..], b);
      assert (a + b)[0] == a[0] && (a + b)[1..] == a[1..] + b;
    }
  }

  /** A history of chunks is their bytes in order. */
  lemma {:induction false} HistoryOfChunks(chunks: seq<Bytes>)
    ensures History(Items(chunks)) == Concat(chunks) && !Ended(Items(chunks))
  {
    if chunks != [] {
      HistoryOfChunks(chunks[1..]);
      assert Items(chunks)[1..] == Items(chunks[1..]);
    }
  }

  /** An end mark hides whatever comes after it. */
  lemma HistoryEnds(chunks: seq<Bytes>, late: seq<Item>)
    ensures History(Items(chunks) + ([End] + late)) == Concat(chunks)
  {
    HistoryOfChunks(chunks);
    HistorySplit(Items(chunks), [End] + late);
    assert ([End] + late)[0].End?;
    assert Concat(chunks) + [] == Concat(chunks);
  }

  lemma {:induction false} HistoryIgnoresTail(a: seq<Item>, b: seq<Item>)
    requires Ended(a)
    ensures History(a + b) == History(a)
  {
    assert (a + b)[0] == a[0];
    if !a[0].End? {
      assert a == [a[0]] + a[1..];
      HistoryIgnoresTail(a[1..], b);
      assert (a + b)[1..] == a[1..] + b;
    }
  }

  // ----- what a cursor still has to deliver

  /** What a stream with this cursor will still read from the history. */
  function Future(items: seq<Item>, cursor: nat, skip: nat): Bytes
    requires cursor <= |items|
  {
    Drop(History(items[cursor..]), skip)
  }

  /** The first byte, within this generation's data, that a response from `start` should hold. */
  function Effective(start: nat, base: Option<nat>): nat {
    Max(0, start - (if base.Some? then base.value else 0))
  }

  /** Whether a cursor has delivered `enqueued` and is in the right place to deliver the rest: while
      the history can still grow, its position must account for every byte. */
  predicate Tracks(items: seq<Item>, cursor: nat, skip: nat, enqueued: Bytes, effective: nat) {
    && cursor <= |items| && !Ended(items[..cursor])
    && enqueued + Future(items, cursor, skip) == Drop(History(items), effective)
    && (!Ended(items) ==> |History(items[..cursor])| + skip == effective + |enqueued|)
  }

  lemma DropSplit(a: Bytes, b: Bytes, n: nat)
    ensures n <= |a| ==> Drop(a + b, n) == Drop(a, n) + b
    ensures n >= |a| ==> Drop(a + b, n) == Drop(b, n - |a|)
  {
    if n <= |a| {
      assert (a + b)[n..] == a[n..] + b;
    }
    if |a| <= n <= |a + b| {
      assert (a + b)[n..] == b[n - |a|..];
    }
  }

  /** Appending to the history keeps every cursor right, whatever arrives and however it is cut. */
  lemma AppendKeepsTrack(items: seq<Item>, item: Item, cursor: nat, skip: nat, enqueued: Bytes, effective: nat)
    requires Tracks(items, cursor, skip, enqueued, effective)
    ensures Tracks(items + [item], cursor, skip, enqueued, effective)
  {
    var rest := items[cursor..];
    assert (items + [item])[..cursor] == items[..cursor];
    assert (items + [item])[cursor..] == rest + [item];
    assert items == items[..cursor] + rest;
    if Ended(items) {
      assert Ended(rest) by { assert End in items[..cursor] + rest; }
      HistoryIgnoresTail(items, [item]);
      HistoryIgnoresTail(rest, [item]);
    } else {
      assert !Ended(rest);
      HistorySplit(items, [item]);
      HistorySplit(rest, [item]);
      HistorySplit(items[..cursor], rest);
      var more := History([item]);
      DropSplit(History(items), more, effective);
      DropSplit(History(rest), more, skip);
      AppendArithmetic(History(items[..cursor]), History(rest), more, skip, enqueued, effective);
    }
  }

  lemma AppendArithmetic(seen: Bytes, rest: Bytes, more: Bytes, skip: nat, enqueued: Bytes, effective: nat)
    requires enqueued + Drop(rest, skip) == Drop(seen + rest, effective)
    requires |seen| + skip == effective + |enqueued|
    ensures enqueued + Drop(rest + more, skip) == Drop((seen + rest) + more, effective)
  {
    DropSplit(rest, more, skip);
    DropSplit(seen + rest, more, effective);
    if skip <= |rest| {
      Associative(enqueued, Drop(rest, skip), more);
    } else {
      NothingYet(|seen|, |rest|, skip, |enqueued|, effective, |Drop(seen + rest, effective)|);
      assert enqueued == [];
    }
  }

  lemma NothingYet(seen: nat, rest: nat, skip: nat, enqueued: nat, effective: nat, dropped: nat)
    requires skip > rest && seen + skip == effective + enqueued && enqueued == dropped
    requires dropped == if effective <= seen + rest then seen + rest - effective else 0
    ensures enqueued == 0 && effective > seen + rest && skip - rest == effective - (seen + rest)
  {
  }

  lemma PositionAtEnd(items: seq<Item>, i: nat, effective: nat)
    requires i < |items| && items[i].End? && !Ended(items[..i]) && |History(items[..i])| <= effective
    ensures Tracks(items, i, 0, [], effective)
  {
    assert items == items[..i] + items[i..];
    HistorySplit(items[..i], items[i..]);
    assert End in items;
  }

  lemma PositionInside(items: seq<Item>, i: nat, skip: nat, effective: nat)
    requires i < |items| && items[i].Data? && !Ended(items[..i])
    requires |History(items[..i])| + skip == effective && skip < |items[i].bytes|
    ensures Tracks(items, i, skip, [], effective)
  {
    assert items == items[..i] + items[i..];
    HistorySplit(items[..i], items[i..]);
    DropSplit(History(items[..i]), History(items[i..]), effective);
    assert [] + Future(items, i, skip) == Future(items, i, skip);
  }

  lemma PositionAfter(items: seq<Item>, effective: nat)
    requires !Ended(items) && |History(items)| <= effective
    ensures Tracks(items, |items|, effective - |History(items)|, [], effective)
  {
    assert items[..|items|] == items && items[|items|..] == [];
  }

  /** Reading one chunk past the cursor, trimmed by what is still to be skipped. */
  lemma NextItem(items: seq<Item>, cursor: nat, skip: nat, enqueued: Bytes, effective: nat)
    requires Tracks(items, cursor, skip, enqueued, effective) && cursor < |items| && items[cursor].Data?
    ensures var b := items[cursor].bytes;
      if skip > 0 && skip >= |b| then Tracks(items, cursor + 1, skip - |b|, enqueued, effective)
      else Tracks(items, cursor + 1, 0, enqueued + b[skip..], effective)
  {
    var b := items[cursor].bytes;
    var rest := History(items[cursor + 1..]);
    assert items[cursor..] == [items[cursor]] + items[cursor + 1..];
    assert items[..cursor + 1] == items[..cursor] + [items[cursor]];
    HistorySplit(items[..cursor], [items[cursor]]);
    assert History([items[cursor]]) == b;
    DropSplit(b, rest, skip);
    if skip <= |b| {
      assert Drop(b, skip) == b[skip..];
      assert enqueued + (b[skip..] + rest) == (enqueued + b[skip..]) + rest;
      if skip == |b| {
        assert b[skip..] == [] && enqueued + [] == enqueued;
      }
    }
  }

  /** At the end of a history nothing is left to deliver. */
  lemma AllRead(items: seq<Item>, cursor: nat, skip: nat, enqueued: Bytes, effective: nat)
    requires Tracks(items, cursor, skip, enqueued, effective)
    requires cursor == |items| || items[cursor].End?
    ensures enqueued == Drop(History(items), effective)
    ensures cursor == |items| ==> !Ended(items)
  {
    assert Future(items, cursor, skip) == [];
    assert enqueued + [] == enqueued;
    if cursor == |items| {
      assert items[..cursor] == items;
    }
  }

  // ----- in terms of the file

  /** The response is the part of the file from its start on, as far as the data goes: the history is the
      file's bytes from the generation's offset on (from 0 until there is an offset), and a start before
      that offset gets all of them. */
  ghost predicate ServesFile(enqueued: Bytes, start: nat, history: Bytes, offset: Option<nat>) {
    forall file: Bytes, b: nat :: IsPart(history, file, b) && b == (match offset case Some(o) => o case None => 0)
      ==> enqueued == if start <= b then file[b..b + |history|]
                      else if start <= b + |history| then file[start..b + |history|]
                      else []
  }

  predicate IsPart(history: Bytes, file: Bytes, b: nat) {
    b + |history| <= |file| && history == file[b..b + |history|]
  }

  lemma DropServesFile(start: nat, history: Bytes, offset: Option<nat>)
    ensures ServesFile(Drop(history, Effective(start, offset)), start, history, offset)
  {
    forall file: Bytes, b: nat | IsPart(history, file, b) && b == (match offset case Some(o) => o case None => 0)
      ensures Drop(history, Effective(start, offset)) == if start <= b then file[b..b + |history|]
                      else if start <= b + |history| then file[start..b + |history|]
                      else []
    {
      if b < start <= b + |history| {
        assert file[b..b + |history|][start - b..] == file[start..b + |history|];
      }
    }
  }

  // ----- MP4 initialisation segment

  function ReadBoxSize(bytes: Bytes, offset: nat): nat
    requires offset + 8 <= |bytes|
  {
    var b0: int, b1: int, b2: int, b3: int := bytes[offset], bytes[offset + 1], bytes[offset + 2], bytes[offset + 3];
    b0 * 0x100_0000 + b1 * 0x1_0000 + b2 * 0x100 + b3
  }

  const MOOV: Bytes := [109, 111, 111, 118]

  /** The end of the moov box, if every box up to it is there. */
  function Scan(bytes: Bytes, offset: nat): Option<nat>
    requires offset <= |bytes|
    decreases |bytes| - offset
  {
    if offset + 8 > |bytes| then None
    else
      var size := ReadBoxSize(bytes, offset);
      if size < 8 || offset + size > |bytes| then None
      else if bytes[offset + 4..offset + 8] == MOOV then Some(offset + size)
      else Scan(bytes, offset + size)
  }

  lemma {:induction false} ScanExtended(bytes: Bytes, more: Bytes, offset: nat)
    requires offset <= |bytes| && Scan(bytes, offset).Some?
    ensures Scan(bytes + more, offset) == Scan(bytes, offset) && Scan(bytes, offset).value <= |bytes|
    decreases |bytes| - offset
  {
    assert (bytes + more)[offset + 4..offset + 8] == bytes[offset + 4..offset + 8];
    if bytes[offset + 4..offset + 8] != MOOV {
      ScanExtended(bytes, more, offset + ReadBoxSize(bytes, offset));
    }
  }

  // ----- boxes

  /** A box: its size in four bytes, its type, its body. */
  function Box(kind: Bytes, body: Bytes): Bytes {
    W.Four(8 + |body|) + kind + body
  }

  /** Boxes that are not the moov box, of sizes that four bytes can hold. */
  predicate Ordinary(boxes: seq<(Bytes, Bytes)>) {
    forall i :: 0 <= i < |boxes| ==> IsOrdinary(boxes[i].0, boxes[i].1)
  }

  predicate IsOrdinary(kind: Bytes, body: Bytes) {
    |kind| == 4 && kind != [109, 111, 111, 118] && |body| < 0x1_0000_0000 - 8
  }

  function BytesOf(boxes: seq<(Bytes, Bytes)>): Bytes {
    if boxes == [] then [] else Box(boxes[0].0, boxes[0].1) + BytesOf(boxes[1..])
  }

  lemma SizeOfFour(bytes: Bytes, offset: nat, n: nat)
    requires n < 0x1_0000_0000 && offset + 8 <= |bytes| && bytes[offset..offset + 4] == W.Four(n)
    ensures ReadBoxSize(bytes, offset) == n
  {
    var four := bytes[offset..offset + 4];
    assert four[0] == bytes[offset] && four[1] == bytes[offset + 1] && four[2] == bytes[offset + 2] && four[3] == bytes[offset + 3];
    FourOf(four);
    W.FourBytes(n);
    F.Pow256Values();
    F.FromTo(n, 4);
  }

  lemma FourOf(four: Bytes)
    requires |four| == 4
    ensures var a: int, b: int, c: int, d: int := four[0], four[1], four[2], four[3];
      F.FromBigEndian(four) == a * 0x100_0000 + b * 0x1_0000 + c * 0x100 + d
  {
    assert four[..3][..2] == four[..2] && four[..2][..1] == four[..1] && four[..1][..0] == [];
    var a: int, b: int, c: int := four[0], four[1], four[2];
    assert F.FromBigEndian(four[..1]) == a;
    assert F.FromBigEndian(four[..2]) == 256 * a + b;
    assert F.FromBigEndian(four[..3]) == 256 * (256 * a + b) + c;
  }

  /** A box is read with its size and its type. */
  lemma BoxIsRead(bytes: Bytes, offset: nat, kind: Bytes, body: Bytes, rest: Bytes)
    requires offset <= |bytes| && bytes[offset..] == Box(kind, body) + rest
    requires |kind| == 4 && |body| < 0x1_0000_0000 - 8
    ensures var next := offset + 8 + |body|;
      && next <= |bytes| && bytes[next..] == rest
      && ReadBoxSize(bytes, offset) == 8 + |body| && bytes[offset + 4..offset + 8] == kind
  {
    var tail := bytes[offset..];
    assert |tail| == 8 + |body| + |rest|;
    assert tail[..4] == W.Four(8 + |body|) && bytes[offset..offset + 4] == tail[..4];
    assert tail[4..8] == kind && bytes[offset + 4..offset + 8] == tail[4..8];
    assert tail[8 + |body|..] == rest && bytes[offset + 8 + |body|..] == tail[8 + |body|..];
    SizeOfFour(bytes, offset, 8 + |body|);
  }

  /** The scan goes on behind an ordinary box. */
  lemma PassBox(bytes: Bytes, offset: nat, kind: Bytes, body: Bytes, rest: Bytes) returns (next: nat)
    requires offset <= |bytes| && bytes[offset..] == Box(kind, body) + rest && IsOrdinary(kind, body)
    ensures Reaches(bytes, offset, next, rest)
  {
    BoxIsRead(bytes, offset, kind, body, rest);
    next := offset + 8 + |body|;
  }

  lemma ReachesOn(bytes: Bytes, offset: nat, middle: nat, next: nat, between: Bytes, last: Bytes)
    requires Reaches(bytes, offset, middle, between) && Reaches(bytes, middle, next, last)
    ensures Reaches(bytes, offset, next, last)
  {
  }

  lemma PassFirst(bytes: Bytes, offset: nat, boxes: seq<(Bytes, Bytes)>, last: Bytes) returns (next: nat)
    requires boxes != [] && Ordinary(boxes)
    requires offset <= |bytes| && bytes[offset..] == BytesOf(boxes) + last
    ensures Reaches(bytes, offset, next, BytesOf(boxes[1..]) + last)
  {
    var kind, body := boxes[0].0, boxes[0].1;
    Associative(Box(kind, body), BytesOf(boxes[1..]), last);
    next := PassBox(bytes, offset, kind, body, BytesOf(boxes[1..]) + last);
  }

  /** The scan passes every ordinary box. */
  lemma {:induction false} ScanBoxes(bytes: Bytes, offset: nat, boxes: seq<(Bytes, Bytes)>, last: Bytes)
    requires Ordinary(boxes) && offset <= |bytes| && bytes[offset..] == BytesOf(boxes) + last
    ensures |last| <= |bytes| && Reaches(bytes, offset, |bytes| - |last|, last)
    decreases |boxes|
  {
    if boxes == [] {
      assert bytes[offset..] == last;
      assert offset == |bytes| - |last|;
    } else {
      var next := PassFirst(bytes, offset, boxes, last);
      ScanBoxes(bytes, next, boxes[1..], last);
      ReachesOn(bytes, offset, next, |bytes| - |last|, BytesOf(boxes[1..]) + last, last);
    }
  }

  predicate Reaches(bytes: Bytes, offset: nat, next: nat, last: Bytes) {
    && offset <= |bytes| && next <= |bytes| && bytes[next..] == last
    && Rest(bytes, offset) == Rest(bytes, next)
  }

  /** What the scan finds from here on. */
  function Rest(bytes: Bytes, offset: nat): Option<nat>
    requires offset <= |bytes|
  {
    Scan(bytes, offset)
  }

  /** Of a file of boxes, everything up to and including the moov box is captured, whatever follows and
      however it was cut into chunks (CaptureIgnoresChunking). */
  lemma MoovIsCaptured(boxes: seq<(Bytes, Bytes)>, moov: Bytes, rest: Bytes)
    requires Ordinary(boxes) && |moov| < 0x1_0000_0000 - 8
    ensures var head := BytesOf(boxes) + Box([109, 111, 111, 118], moov);
      Captured(head + rest) == (Some(head), None)
  {
    var head := BytesOf(boxes) + Box(MOOV, moov);
    var all := head + rest;
    Associative(BytesOf(boxes), Box(MOOV, moov), rest);
    var last := Box(MOOV, moov) + rest;
    assert all[0..] == BytesOf(boxes) + last;
    ScanBoxes(all, 0, boxes, last);
    BoxIsRead(all, |all| - |last|, MOOV, moov, rest);
    assert all[..|head|] == head;
  }

  /** The captured segment, and the bytes kept while looking for it, after these bytes in all. */
  function Captured(all: Bytes): (Option<Bytes>, Option<Bytes>) {
    match Scan(all, 0)
    case Some(end) => (if end <= |all| then Some(all[..end]) else None, None)
    case None => (None, if all == [] then None else Some(all))
  }

  /** One more chunk: nothing changes once a segment is there, or for an empty chunk. */
  function Offer(segment: Option<Bytes>, capture: Option<Bytes>, chunk: Bytes): (Option<Bytes>, Option<Bytes>) {
    if segment.Some? || chunk == [] then (segment, capture)
    else
      var bytes := if capture.Some? then capture.value + chunk else chunk;
      match Scan(bytes, 0)
      case Some(end) => (if end <= |bytes| then Some(bytes[..end]) else None, None)
      case None => (None, Some(bytes))
  }

  lemma OfferKeeps(all: Bytes, chunk: Bytes)
    ensures Offer(Captured(all).0, Captured(all).1, chunk) == Captured(all + chunk)
  {
    if chunk == [] {
      assert all + chunk == all;
    } else if Scan(all, 0).Some? {
      ScanExtended(all, chunk, 0);
      assert (all + chunk)[..Scan(all, 0).value] == all[..Scan(all, 0).value];
    } else if all == [] {
      assert all + chunk == chunk;
    }
  }

  function OfferAll(segment: Option<Bytes>, capture: Option<Bytes>, chunks: seq<Bytes>): (Option<Bytes>, Option<Bytes>)
    decreases |chunks|
  {
    if chunks == [] then (segment, capture)
    else
      var (s, c) := Offer(segment, capture, chunks[0]);
      OfferAll(s, c, chunks[1..])
  }

  /** What has been captured after any chunks is a function of their bytes, not of the cuts. */
  lemma {:induction false} CaptureIgnoresChunking(all: Bytes, chunks: seq<Bytes>)
    ensures OfferAll(Captured(all).0, Captured(all).1, chunks) == Captured(all + Concat(chunks))
    decreases |chunks|
  {
    if chunks == [] {
      assert all + [] == all;
    } else {
      OfferKeeps(all, chunks[0]);
      CaptureIgnoresChunking(all + chunks[0], chunks[1..]);
      assert (all + chunks[0]) + Concat(chunks[1..]) == all + Concat(chunks);
    }
  }

  // ----- streams and entries

  class MediaStream {
    const startOffset: nat
    const createdGeneration: nat
    var generation: nat
    var readCursor: nat
    var skipBytes: nat
    var closed: bool
    ghost var enqueued: Bytes   // bytes enqueued in the stream's present generation

    constructor (startOffset: nat, generation: nat)
      ensures this.startOffset == startOffset && createdGeneration == generation && this.generation == generation
      ensures readCursor == 0 && skipBytes == 0 && !closed && enqueued == []
    {
      this.startOffset, createdGeneration, this.generation := startOffset, generation, generation;
      readCursor, skipBytes, closed, enqueued := 0, 0, false, [];
    }
  }

  class Entry {
    var streams: set<MediaStream>
    var chunks: seq<Item>
    var isDone: bool
    var totalSize: nat
    var streamStartOffset: Option<nat>
    var generation: nat
    var totalBufferedBytes: nat
    var initSegment: Option<Bytes>
    var initCapture: Option<Bytes>
    ghost var captured: Bytes   // bytes offered to the init capture

    ghost predicate Valid()
      reads this, streams
    {
      && (forall s :: s in streams ==> s.generation == generation && !s.closed)
      && (initSegment, initCapture) == Captured(captured)
      && totalBufferedBytes == Buffered(chunks)
    }

    /** Stream s has delivered, and will deliver, exactly the history from its offset on. */
    ghost predicate Right(s: MediaStream)
      reads this, s
    {
      Tracks(chunks, s.readCursor, s.skipBytes, s.enqueued, Effective(s.startOffset, streamStartOffset))
    }

    ghost predicate AllRight()
      reads this, streams
    {
      forall s :: s in streams ==> Right(s)
    }

    constructor ()
      ensures Valid() && AllRight() && streams == {} && chunks == [] && generation == 0 && captured == []
      ensures streamStartOffset == Some(0) && !isDone
    {
      streams, chunks, isDone, totalSize := {}, [], false, 0;
      streamStartOffset, generation, totalBufferedBytes := Some(0), 0, 0;
      initSegment, initCapture, captured := None, None, [];
    }

    /** Where a stream from `startOffset` starts reading. */
    method ComputeStreamPosition(startOffset: nat) returns (readCursor: nat, skipBytes: nat)
      ensures Tracks(chunks, readCursor, skipBytes, [], Effective(startOffset, streamStartOffset))
    {
      readCursor, skipBytes := 0, 0;
      var base := if streamStartOffset.Some? then streamStartOffset.value else 0;
      var effectiveStart := startOffset - base;
      if effectiveStart < 0 {
        effectiveStart := 0;
      }
      if effectiveStart > 0 {
        var bytesSeen := 0;
        var i := 0;
        while i < |chunks|
          invariant 0 <= i <= |chunks| && readCursor == i && skipBytes == 0
          invariant !Ended(chunks[..i]) && bytesSeen == |History(chunks[..i])| <= effectiveStart
        {
          assert chunks[i] in chunks;
          if chunks[i].End? {
            PositionAtEnd(chunks, i, effectiveStart);
            return;
          }
          var size := |chunks[i].bytes|;
          HistorySplit(chunks[..i], [chunks[i]]);
          assert chunks[..i + 1] == chunks[..i] + [chunks[i]];
          if bytesSeen + size > effectiveStart {
            skipBytes := effectiveStart - bytesSeen;
            PositionInside(chunks, i, skipBytes, effectiveStart);
            return;
          }
          bytesSeen := bytesSeen + size;
          i := i + 1;
          readCursor := i;
        }
        assert chunks[..|chunks|] == chunks;
        PositionAfter(chunks, effectiveStart);
        skipBytes := effectiveStart - bytesSeen;
      } else {
        assert chunks[0..] == chunks && chunks[..0] == [];
      }
    }

    method RebaseStream(s: MediaStream, gen: nat)
      modifies s`readCursor, s`skipBytes, s`generation
      ensures s.generation == gen
      ensures Tracks(chunks, s.readCursor, s.skipBytes, [], Effective(s.startOffset, streamStartOffset))
    {
      var cursor, skip := ComputeStreamPosition(s.startOffset);
      s.readCursor, s.skipBytes := cursor, skip;
      s.generation := gen;
    }

    /** A fetch, at whatever moment of a generation it comes. */
    method CreateStream(startOffset: nat) returns (s: MediaStream)
      requires Valid()
      modifies this`streams
      ensures Valid() && fresh(s) && streams == old(streams) + {s}
      ensures s.startOffset == startOffset && s.createdGeneration == generation
      ensures s.enqueued == [] && Right(s) && (old(AllRight()) ==> AllRight())
    {
      s := new MediaStream(startOffset, generation);
      RebaseStream(s, generation);
      streams := streams + {s};
    }

    /** The pull loop: everything the history holds beyond the cursor is enqueued, up to the end mark.
        The original's cursor has moved past the mark when it closes the stream. */
    method ReadOn(s: MediaStream) returns (mark: bool)
      requires Right(s)
      modifies s`readCursor, s`skipBytes, s`enqueued
      ensures Right(s)
      ensures if mark then s.readCursor < |chunks| && chunks[s.readCursor].End? else s.readCursor == |chunks|
    {
      while s.readCursor < |chunks|
        invariant Right(s)
        decreases |chunks| - s.readCursor
      {
        var item := chunks[s.readCursor];
        if item.End? {
          return true;
        }
        NextItem(chunks, s.readCursor, s.skipBytes, s.enqueued, Effective(s.startOffset, streamStartOffset));
        s.readCursor := s.readCursor + 1;
        if s.skipBytes > 0 && s.skipBytes >= |item.bytes| {
          s.skipBytes := s.skipBytes - |item.bytes|;
          continue;
        }
        s.enqueued := s.enqueued + item.bytes[s.skipBytes..];
        s.skipBytes := 0;
      }
      mark := false;
    }

    /** A stream that reads the end mark, or has read all of a finished history, is closed, and has
        then delivered exactly what it should. */
    method Pull(s: MediaStream)
      requires Valid() && s in streams && Right(s)
      modifies this`streams, s
      ensures Valid() && Right(s) && s.generation == old(s.generation) && (old(AllRight()) ==> AllRight())
      ensures streams == if s.closed then old(streams) - {s} else old(streams)
      ensures s.enqueued == Drop(History(chunks), Effective(s.startOffset, streamStartOffset))
      ensures ServesFile(s.enqueued, s.startOffset, History(chunks), streamStartOffset)
      ensures s.closed <==> isDone || Ended(chunks)
    {
      var mark := ReadOn(s);
      DropServesFile(s.startOffset, History(chunks), streamStartOffset);
      AllRead(chunks, s.readCursor, s.skipBytes, s.enqueued, Effective(s.startOffset, streamStartOffset));
      if mark || isDone {
        streams := streams - {s};
        s.closed := true;
      }
    }

    method Cancel(s: MediaStream)
      requires Valid()
      modifies this`streams
      ensures Valid() && streams == old(streams) - {s} && (old(AllRight()) ==> AllRight())
    {
      streams := streams - {s};
    }

    // ----- messages from the page

    /** The start of a preview: everything begins anew. */
    method FreshPreview(gen: nat, size: int, startOffset: Option<nat>)
      requires Valid()
      modifies this, streams
      ensures Valid() && AllRight() && streams == {} && chunks == [] && generation == gen && captured == []
      ensures !isDone && totalSize == Max(size, 0) && totalBufferedBytes == 0 && initSegment == None
      ensures forall s :: s in old(streams) ==> s.closed
      ensures streamStartOffset == Some(if startOffset.Some? then startOffset.value else 0)
    {
      CloseAll(streams);
      streams := {};
      chunks, isDone := [], false;
      totalSize := if size > 0 then size else 0;
      streamStartOffset := Some(if startOffset.Some? then startOffset.value else 0);
      generation, totalBufferedBytes := gen, 0;
      initSegment, initCapture, captured := None, None, [];
    }

    method CloseAll(ss: set<MediaStream>)
      modifies ss`closed
      ensures forall s :: s in ss ==> s.closed
    {
      var todo := ss;
      while todo != {}
        invariant todo <= ss
        invariant forall s :: s in ss ==> s in todo || s.closed
      {
        var s :| s in todo;
        s.closed := true;
        todo := todo - {s};
      }
    }

    /** The start of a seek: a new generation with no data and no offset yet. Streams created in the
        generation before move over to it; if there are none, the ones that had moved before do. */
    method Reset(gen: nat)
      requires Valid()
      modifies this, streams
      ensures Valid() && streams <= old(streams)
      ensures gen <= old(generation) ==>
        generation == old(generation) && chunks == old(chunks) && streams == old(streams)
        && streamStartOffset == old(streamStartOffset)
        && forall s :: s in streams ==> unchanged(s)
      ensures gen > old(generation) ==>
        && generation == gen && chunks == [] && streamStartOffset == None && !isDone && AllRight()
        && (forall s :: s in streams ==> s.enqueued == [])
        && totalBufferedBytes == 0 && initSegment == old(initSegment) && initCapture == None && totalSize == old(totalSize)
        && (var created := set s | s in old(streams) && s.createdGeneration == old(generation);
            streams == if created != {} then created else old(streams))
        && (forall s :: s in old(streams) ==> (s.closed <==> s !in streams))
    {
      if gen <= generation {
        return;
      }
      var previous := generation;
      chunks, isDone, streamStartOffset := [], false, None;
      generation, totalBufferedBytes := gen, 0;
      initCapture := None;
      if initSegment.None? {
        captured := [];
      }
      var previousStreams := set s | s in streams && s.generation == previous;
      var freshStreams := set s | s in previousStreams && s.createdGeneration == previous;
      var keep := if freshStreams != {} then freshStreams else previousStreams;
      MoveStreams(keep);
    }

    /** Streams in `keep` move to the present, still empty generation; the others are closed. */
    method MoveStreams(keep: set<MediaStream>)
      requires keep <= streams && chunks == [] && forall s :: s in streams ==> !s.closed
      modifies this`streams, streams
      ensures streams == keep
      ensures forall s :: s in old(streams) && s !in keep ==> s.closed
      ensures forall s :: s in keep ==> s.generation == generation && !s.closed && s.enqueued == [] && Right(s)
    {
      var todo := streams;
      while todo != {}
        modifies this`streams, streams
        invariant keep <= streams && todo <= streams <= old(streams)
        invariant forall s :: s in streams ==> !s.closed && (s in todo || s in keep)
        invariant forall s :: s in old(streams) && s !in streams ==> s !in keep && s.closed
        invariant forall s :: s in streams && s !in todo ==> s.generation == generation && s.enqueued == [] && Right(s)
      {
        var s :| s in todo;
        todo := todo - {s};
        if s !in keep {
          streams := streams - {s};
          s.closed := true;
        } else {
          RebaseStream(s, generation);
          s.enqueued := [];
        }
      }
    }

    /** The offset at which this generation's data starts. Every stream is positioned anew; a stream
        is then right exactly when nothing of this generation has been enqueued to it yet. */
    method StartOffset(offset: nat, gen: Option<nat>)
      requires Valid()
      modifies this`streamStartOffset, streams
      ensures Valid()
      ensures gen.Some? && gen.value != generation ==>
        streamStartOffset == old(streamStartOffset) && forall s :: s in streams ==> unchanged(s)
      ensures gen.None? || gen.value == generation ==>
        && streamStartOffset == Some(offset)
        && forall s :: s in streams ==>
             && s.enqueued == old(s.enqueued) && (Right(s) <==> s.enqueued == [])
             && Tracks(chunks, s.readCursor, s.skipBytes, [], Effective(s.startOffset, streamStartOffset))
    {
      if gen.Some? && gen.value != generation {
        return;
      }
      streamStartOffset := Some(offset);
      var todo := streams;
      while todo != {}
        modifies streams`readCursor, streams`skipBytes, streams`generation
        invariant todo <= streams
        invariant forall s :: s in streams ==> s.generation == generation && !s.closed
        invariant forall s :: s in streams && s !in todo ==>
          Tracks(chunks, s.readCursor, s.skipBytes, [], Effective(s.startOffset, streamStartOffset))
      {
        var s :| s in todo;
        todo := todo - {s};
        RebaseStream(s, generation);
      }
      forall s | s in streams ensures Right(s) <==> s.enqueued == [] {
        RebasedIsRight(chunks, s.readCursor, s.skipBytes, s.enqueued, Effective(s.startOffset, streamStartOffset));
      }
    }

    /** The page's order: the offset of a generation comes before its first chunk. Then every stream
        stays right. */
    method StartOffsetInOrder(offset: nat, gen: Option<nat>)
      requires Valid() && AllRight() && chunks == []
      modifies this`streamStartOffset, streams
      ensures Valid() && AllRight()
    {
      forall s | s in streams ensures s.enqueued == [] {
        assert Right(s);
      }
      StartOffset(offset, gen);
    }

    method Size(size: nat)
      requires Valid()
      modifies this`totalSize
      ensures Valid() && (old(AllRight()) ==> AllRight())
      ensures totalSize == if old(totalSize) == 0 then size else old(totalSize)
    {
      if size > 0 && totalSize == 0 {
        totalSize := size;
      }
    }

    /** The end of the data. The size of what was received stands in for a size never sent. */
    method EndOfData()
      requires Valid()
      modifies this`isDone, this`chunks, this`totalSize
      ensures Valid() && isDone && chunks == old(chunks) + [End] && (old(AllRight()) ==> AllRight())
      ensures totalSize == if old(totalSize) == 0 then |History(chunks)| else old(totalSize)
    {
      forall s | s in streams && Right(s)
        ensures Tracks(chunks + [End], s.readCursor, s.skipBytes, s.enqueued, Effective(s.startOffset, streamStartOffset))
      {
        AppendKeepsTrack(chunks, End, s.readCursor, s.skipBytes, s.enqueued, Effective(s.startOffset, streamStartOffset));
      }
      BufferedSnoc(chunks, End);
      isDone := true;
      chunks := chunks + [End];
      if totalSize == 0 {
        totalSize := ReceivedSize();
      }
    }

    /** The bytes received before the end mark. */
    method ReceivedSize() returns (total: nat)
      ensures total == |History(chunks)|
    {
      total := 0;
      var i := 0;
      while i < |chunks| && chunks[i].Data?
        invariant 0 <= i <= |chunks| && total + |History(chunks[i..])| == |History(chunks)|
      {
        assert chunks[i..] == [chunks[i]] + chunks[i + 1..];
        total := total + |chunks[i].bytes|;
        i := i + 1;
      }
    }

    /** A chunk of the current generation joins the history; a stale one is dropped. */
    method Chunk(bytes: Bytes, gen: Option<nat>)
      requires Valid()
      modifies this`chunks, this`totalBufferedBytes, this`initSegment, this`initCapture, this`captured
      ensures Valid() && (old(AllRight()) ==> AllRight())
      ensures chunks == if gen.Some? && gen.value != generation then old(chunks) else old(chunks) + [Data(bytes)]
      ensures captured == if (gen.None? || gen.value == generation) && generation == 0 && streamStartOffset == Some(0)
                          then old(captured) + bytes else old(captured)
    {
      if gen.Some? && gen.value != generation {
        return;
      }
      forall s | s in streams && Right(s)
        ensures Tracks(chunks + [Data(bytes)], s.readCursor, s.skipBytes, s.enqueued, Effective(s.startOffset, streamStartOffset))
      {
        AppendKeepsTrack(chunks, Data(bytes), s.readCursor, s.skipBytes, s.enqueued, Effective(s.startOffset, streamStartOffset));
      }
      BufferedSnoc(chunks, Data(bytes));
      CaptureInitSegment(bytes);
      chunks := chunks + [Data(bytes)];
      totalBufferedBytes := totalBufferedBytes + |bytes|;
    }

    /** Looks for the end of the moov box in everything captured so far. */
    method CaptureInitSegment(chunk: Bytes)
      requires (initSegment, initCapture) == Captured(captured)
      modifies this`initSegment, this`initCapture, this`captured
      ensures (initSegment, initCapture) == Captured(captured)
      ensures captured == if generation == 0 && streamStartOffset == Some(0) then old(captured) + chunk else old(captured)
    {
      if generation != 0 || streamStartOffset != Some(0) {
        return;
      }
      OfferKeeps(captured, chunk);
      captured := captured + chunk;
      if initSegment.Some? || |chunk| == 0 {
        return;
      }
      LookForMoov(if initCapture.Some? then initCapture.value + chunk else chunk);
    }

    method LookForMoov(bytes: Bytes)
      requires initSegment == None
      modifies this`initSegment, this`initCapture
      ensures (initSegment, initCapture) ==
        match Scan(bytes, 0)
        case Some(end) => (if end <= |bytes| then Some(bytes[..end]) else None, None)
        case None => (None, Some(bytes))
    {
      initCapture := Some(bytes);
      var offset := 0;
      while offset + 8 <= |bytes|
        invariant offset <= |bytes| && Scan(bytes, offset) == Scan(bytes, 0)
        invariant initSegment == None && initCapture == Some(bytes)
        decreases |bytes| - offset
      {
        var size := ReadBoxSize(bytes, offset);
        if size < 8 { return; }
        if offset + size > |bytes| { return; }
        var box := bytes[offset + 4..offset + 8];
        offset := offset + size;
        if box == MOOV {
          initSegment := Some(bytes[..offset]);
          initCapture := None;
          return;
        }
      }
    }
  }

  /** A new entry with one stream from its start, and one chunk. */
  method OneStream(chunk: Bytes) returns (e: Entry, s: MediaStream)
    ensures fresh(e) && fresh(s) && e.Valid() && e.streams == {s} && e.Right(s) && s.startOffset == 0
    ensures e.chunks == [Data(chunk)] && e.streamStartOffset == Some(0) && !e.isDone
  {
    e := new Entry();
    s := e.CreateStream(0);
    e.Chunk(chunk, None);
  }

  /** A stream from the start of a new entry that has been given its first chunk. */
  method GivenOneChunk(chunk: Bytes) returns (e: Entry, s: MediaStream)
    ensures fresh(e) && fresh(s) && e.Valid() && e.streams == {s} && s.startOffset == 0
    ensures e.chunks == [Data(chunk)] && s.enqueued == chunk
  {
    e, s := OneStream(chunk);
    OneChunk(e.chunks, chunk);
    e.Pull(s);
  }

  /** An offset that comes after data: the stream has been given the chunk, and would be given it again. */
  method OffsetTooLate(chunk: Bytes) returns (e: Entry, s: MediaStream)
    requires chunk != []
    ensures s in e.streams && s.enqueued == chunk && !e.Right(s) && s.readCursor <= |e.chunks|
    ensures s.enqueued + Future(e.chunks, s.readCursor, s.skipBytes) == chunk + chunk
  {
    e, s := GivenOneChunk(chunk);
    e.StartOffset(0, None);
    OneChunk(e.chunks, chunk);
    Repeats(e.chunks, s.readCursor, s.skipBytes, chunk);
  }

  lemma Repeats(items: seq<Item>, cursor: nat, skip: nat, chunk: Bytes)
    requires Tracks(items, cursor, skip, [], 0) && History(items) == chunk
    ensures Future(items, cursor, skip) == chunk
  {
    assert [] + Future(items, cursor, skip) == Future(items, cursor, skip);
  }

  lemma OneChunk(items: seq<Item>, chunk: Bytes)
    requires items == [Data(chunk)]
    ensures History(items) == chunk && !Ended(items)
  {
    assert items[1..] == [];
    assert chunk + [] == chunk;
  }

  /** A cursor positioned from scratch suits a stream exactly when nothing has been enqueued. */
  lemma RebasedIsRight(items: seq<Item>, cursor: nat, skip: nat, enqueued: Bytes, effective: nat)
    requires Tracks(items, cursor, skip, [], effective)
    ensures Tracks(items, cursor, skip, enqueued, effective) <==> enqueued == []
  {
    var future := Future(items, cursor, skip);
    assert [] + future == future;
    if enqueued + future == future {
      assert |enqueued| + |future| == |future|;
    }
  }
}
