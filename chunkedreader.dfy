/**
 * The chunked reader: an ordinary reader over a remote object that can only
 * be opened by byte range. It reads the object one chunk at a time, with
 * chunk sizes taken from a chunk-size iterator, and reopens the object (or
 * seeks its open stream in place) at every chunk boundary and after a seek.
 *
 * The remote object and its streams are values: an object is its content
 * together with how it answers the calls the reader makes (whether an open,
 * a close, an in-place seek or a read fails, and where an in-place seek
 * lands), each answer a function of the call's arguments. A stream is a
 * cursor over the part of the content it was opened for.
 */
module ChunkedReaders {
  import opened Wrappers
  import opened Int64
  import opened SizeIterators
  import opened MultiplierLists

  newtype byte = x: int | 0 <= x < 0x100

  /** The errors a chunked reader reports, its own and those of the streams below it. */
  datatype Error =
    | FileClosed      // "file already closed"
    | InvalidSeek     // "invalid seek position"
    | EOF
    | UnexpectedEOF
    | OpenFailed
    | CloseFailed
    | ReadFailed

  /** The `whence` values of a seek. */
  const SeekStart: int := 0
  const SeekCurrent: int := 1
  const SeekEnd: int := 2

  /** An open request for bytes start..end, both inclusive; a negative end means "to the end". */
  datatype RangeOption = RangeOption(start: int, end: int)

  /** An open stream: the next byte it delivers and the end (exclusive) of what it delivers. */
  datatype Stream = Stream(pos: nat, end: nat, seekable: bool)

  /**
   * A remote object: its bytes, whether the streams it opens can seek in
   * place, and how it answers an open, a close, an in-place seek and a read.
   */
  datatype RemoteObject = RemoteObject(
    content: seq<byte>,
    seekable: bool,
    openFails: Option<RangeOption> -> bool,
    closeFails: Stream -> bool,
    seekLands: (Stream, int, int) -> Option<nat>,
    readFails: Stream -> bool)
  {
    function Size(): nat {
      |content|
    }
  }

  /** An object none of whose opens, closes or reads fails. */
  ghost predicate NeverFails(o: RemoteObject) {
    (forall r :: !o.openFails(r)) && (forall s :: !o.closeFails(s)) && (forall s :: !o.readFails(s))
  }

  // ---------------------------------------------------------------------------
  // The chunk-size iterator interface

  /** A chunk-size iterator: one of the two strategies, as the object that holds its state. */
  datatype SizeIterator = MinMaxIter(mm: MinMaxIterator) | ListIter(li: MultiplierListIter)
  {
    function Obj(): object {
      match this
      case MinMaxIter(m) => m
      case ListIter(l) => l
    }

    ghost predicate Valid()
      reads Obj()
    {
      match this
      case MinMaxIter(m) => m.Valid()
      case ListIter(l) => l.Valid()
    }

    ghost function State(): (r: IterState)
      requires Valid()
      reads Obj()
      ensures IterStateValid(r)
    {
      match this
      case MinMaxIter(m) => MinMaxAt(m.State())
      case ListIter(l) => ListAt(l.list, l.Cursor())
    }
  }

  /** The state of a chunk-size iterator, whichever strategy it follows. */
  datatype IterState = MinMaxAt(mm: MinMaxState) | ListAt(list: MultiplierList, cursor: ListCursor)

  predicate IterStateValid(s: IterState) {
    match s
    case MinMaxAt(m) => MinMaxValid(m)
    case ListAt(l, c) => CursorValid(l, c)
  }

  /** One `NextChunkSize` call: the size and the new state. */
  function IterNext(s: IterState): (r: (int, IterState))
    requires IterStateValid(s)
    ensures IterStateValid(r.1)
  {
    match s
    case MinMaxAt(m) => (MinMaxNext(m).0, MinMaxAt(MinMaxNext(m).1))
    case ListAt(l, c) => (ListNext(l, c).0, ListAt(l, ListNext(l, c).1))
  }

  /** `Reset`: both strategies start over and ignore the length they are given. */
  function IterReset(s: IterState): (r: IterState)
    requires IterStateValid(s)
    ensures IterStateValid(r)
  {
    match s
    case MinMaxAt(m) => MinMaxAt(MinMaxReset(m))
    case ListAt(l, c) => ListAt(l, ListCursor(0, 0))
  }

  method NextChunkSize(it: SizeIterator) returns (size: int)
    requires it.Valid()
    modifies it.Obj()
    ensures it.Valid()
    ensures (size, it.State()) == IterNext(old(it.State()))
  {
    match it
    case MinMaxIter(m) => size := m.NextChunkSize();
    case ListIter(l) => size := l.NextChunkSize();
  }

  method ResetIterator(it: SizeIterator, length: int)
    requires it.Valid()
    modifies it.Obj()
    ensures it.Valid()
    ensures it.State() == IterReset(old(it.State()))
  {
    match it
    case MinMaxIter(m) => m.Reset(length);
    case ListIter(l) => l.Reset(length);
  }

  // ---------------------------------------------------------------------------
  // Chunk bounds, open requests and streams

  /** `fixNeg`: every non-positive size becomes -1 ("to the end"); a positive size is kept. */
  function FixNeg(size: int): (r: int)
    ensures r == -1 || r > 0
    ensures r > 0 <==> size > 0
    ensures r > 0 ==> r == size
  {
    if size <= 0 then -1 else size
  }

  /** Where the data of the chunk at chunkOffset of chunkSize bytes ends in an object of `size` bytes. */
  function ChunkEnd(chunkOffset: int, chunkSize: int, size: nat): (r: nat)
    ensures r <= size
    ensures chunkOffset <= size && chunkOffset >= 0 && chunkSize > 0 ==> chunkOffset < r || chunkOffset == size
  {
    if chunkSize > 0 && 0 <= chunkOffset + chunkSize < size then chunkOffset + chunkSize else size
  }

  /**
   * The options `openRange` passes to `Open` for a chunk: none for the whole
   * object, an open-ended range from a non-zero offset, and otherwise the
   * inclusive range of `length` bytes from `offset`.
   */
  function OpenRequest(offset: int, length: int): (r: Option<RangeOption>)
    ensures r.None? <==> length <= 0 && offset == 0
    ensures r.Some? ==> r.value.start == offset
    ensures r.Some? && length <= 0 ==> r.value.end == -1
    ensures length > 0 ==> r.Some? && r.value.end - r.value.start + 1 == length
  {
    if length <= 0 then
      if offset == 0 then None else Some(RangeOption(offset, -1))
    else Some(RangeOption(offset, offset + length - 1))
  }

  /** The stream an object opens for a request: from its start up to its end, clipped to the object. */
  function OpenStream(o: RemoteObject, req: Option<RangeOption>): (s: Stream)
    requires req.Some? ==> req.value.start >= 0
    ensures s.end <= o.Size() && s.seekable == o.seekable
  {
    match req
    case None => Stream(0, o.Size(), o.seekable)
    case Some(r) => Stream(r.start, if r.end < 0 || r.end + 1 > o.Size() then o.Size() else r.end + 1, o.seekable)
  }

  /** A stream moved in place to n for the range of `length` bytes from there. */
  function SeekStream(o: RemoteObject, s: Stream, n: nat, length: int): (r: Stream)
    ensures r.end <= o.Size()
  {
    Stream(n, ChunkEnd(n, length, o.Size()), s.seekable)
  }

  /** The stream a reader holds after `openRange` tried to seek it in place. */
  function AfterSeekAttempt(o: RemoteObject, rc: Option<Stream>, offset: int, length: int): (r: Option<Stream>)
    ensures rc.None? ==> r.None?
    ensures rc.Some? && rc.value.end <= o.Size() ==> r.Some? && r.value.end <= o.Size()
  {
    if rc.Some? && rc.value.seekable then
      match o.seekLands(rc.value, offset, length)
      case Some(n) => Some(SeekStream(o, rc.value, n, length))
      case None => rc
    else rc
  }

  /** The open stream can serve the chunk: it seeks in place and lands exactly at its start. */
  predicate ReusesStream(o: RemoteObject, rc: Option<Stream>, offset: int, length: int) {
    rc.Some? && rc.value.seekable &&
    o.seekLands(rc.value, offset, length).Some? && o.seekLands(rc.value, offset, length).value == offset
  }

  /**
   * Opening a chunk, by whichever request `openRange` makes, yields a stream
   * that starts at the chunk and ends where the chunk's data ends.
   */
  lemma OpenRequestCoversChunk(o: RemoteObject, offset: nat, length: int)
    ensures OpenStream(o, OpenRequest(offset, length)) == Stream(offset, ChunkEnd(offset, length, o.Size()), o.seekable)
  {
  }

  /** What `io.ReadFull` returns: the bytes, the error and the stream afterwards. */
  datatype ReadResult = ReadResult(data: seq<byte>, err: Option<Error>, after: Stream)

  /**
   * `io.ReadFull` on a stream: an empty request succeeds at once; otherwise
   * either the read fails, or it delivers as much as is wanted and left,
   * reporting EOF when nothing was left and UnexpectedEOF when only part was.
   */
  function ReadFull(o: RemoteObject, s: Stream, want: nat): (r: ReadResult)
    requires s.end <= o.Size()
    ensures |r.data| <= want && r.after == s.(pos := s.pos + |r.data|)
    ensures r.err.None? <==> |r.data| == want
    ensures r.err.Some? ==> r.err.value in {EOF, UnexpectedEOF, ReadFailed}
    ensures r.err == Some(ReadFailed) <==> want > 0 && o.readFails(s)
    ensures r.err == Some(EOF) || r.err == Some(UnexpectedEOF) ==> s.pos + |r.data| >= s.end
    ensures |r.data| > 0 ==> s.pos + |r.data| <= s.end && r.data == o.content[s.pos..s.pos + |r.data|]
  {
    if want == 0 then ReadResult([], None, s)
    else if o.readFails(s) then ReadResult([], Some(ReadFailed), s)
    else
      var left := if s.end > s.pos then s.end - s.pos else 0;
      var k := if want < left then want else left;
      var data := if k == 0 then [] else o.content[s.pos..s.pos + k];
      ReadResult(data, if k == want then None else if k == 0 then Some(EOF) else Some(UnexpectedEOF), s.(pos := s.pos + k))
  }

  // ---------------------------------------------------------------------------
  // Seeking

  /** Where the next Read starts: the open position, or the pending chunk while a reopen is due. */
  function ReaderPosition(offset: int, chunkOffset: int): int {
    if offset == -1 then chunkOffset else offset
  }

  /** What a seek is relative to, as the source computes it: for SeekCurrent the raw offset field, -1 included. */
  function SeekBaseAsWritten(whence: int, offset: int, size: nat): int {
    if whence == SeekStart then 0 else if whence == SeekEnd then size else offset
  }

  /** What a seek is relative to: the start, the end, or (any other whence) the reader's position. */
  function SeekBase(whence: int, offset: int, chunkOffset: int, size: nat): (r: int)
    ensures whence != SeekStart && whence != SeekEnd ==> r == ReaderPosition(offset, chunkOffset)
    ensures offset != -1 ==> r == SeekBaseAsWritten(whence, offset, size)
  {
    if whence == SeekStart then 0 else if whence == SeekEnd then size else ReaderPosition(offset, chunkOffset)
  }

  /** The result of a seek to `target`: accepted inside the object, otherwise rejected with position 0. */
  function SeekResult(target: int, size: nat): (r: (int, Option<Error>))
    ensures r.1.None? <==> 0 <= target < size
    ensures r.1.None? ==> r.0 == target
    ensures r.1.Some? ==> r == (0, Some(InvalidSeek))
  {
    if target < 0 || target >= size then (0, Some(InvalidSeek)) else (target, None)
  }

  /**
   * As written, SeekCurrent from a reader that is waiting to reopen counts
   * from -1: a fresh reader over a 10-byte object rejects Seek(0, SeekCurrent)
   * and sends Seek(5, SeekCurrent) to 4; counting from the reader's position
   * accepts the first at 0 and the second at 5.
   */
  lemma SeekCurrentAsWrittenCountsFromMinusOne()
    ensures SeekResult(SeekBaseAsWritten(SeekCurrent, -1, 10) + 0, 10) == (0, Some(InvalidSeek))
    ensures SeekResult(SeekBase(SeekCurrent, -1, 0, 10) + 0, 10) == (0, None)
    ensures SeekResult(SeekBaseAsWritten(SeekCurrent, -1, 10) + 5, 10) == (4, None)
    ensures SeekResult(SeekBase(SeekCurrent, -1, 0, 10) + 5, 10) == (5, None)
  {
  }

  /** Seeking by 0 from the current position keeps the position, for every position inside the object. */
  lemma SeekCurrentZeroKeepsPosition(offset: int, chunkOffset: int, size: nat)
    requires 0 <= ReaderPosition(offset, chunkOffset) < size
    ensures SeekResult(SeekBase(SeekCurrent, offset, chunkOffset, size) + 0, size) == (ReaderPosition(offset, chunkOffset), None)
  {
  }

  // ---------------------------------------------------------------------------
  // The reader

  class ChunkedReader {
    const o: RemoteObject             // the object read from
    var rc: Option<Stream>            // the stream of the current chunk, if one is open
    var offset: int                   // where the next Read starts; -1 forces a reopen
    var chunkOffset: int              // the start of the current or next chunk
    var chunkSize: int                // its length; -1 reads to the end of the object
    const sizeIter: SizeIterator      // where the chunk sizes come from
    var closed: bool                  // has Close been called?
    ghost var opens: seq<Option<RangeOption>>   // the requests made to the object so far

    ghost predicate Valid()
      reads this, sizeIter.Obj()
    {
      sizeIter.Valid() &&
      chunkOffset >= 0 && (chunkSize > 0 || chunkSize == -1) && offset >= -1 &&
      (rc.Some? ==> rc.value.end <= o.Size()) &&
      (offset == -1 ==> chunkOffset <= o.Size()) &&
      (!closed && offset != -1 ==> rc.Some?) &&
      (!closed && offset != -1 && chunkSize > 0 ==> chunkOffset <= offset <= chunkOffset + chunkSize)
    }

    /** The open stream sits at `offset` and ends where the current chunk's data ends. */
    ghost predicate Coherent()
      reads this
    {
      rc.Some? && rc.value.pos == offset && offset <= rc.value.end &&
      rc.value.end == ChunkEnd(chunkOffset, chunkSize, o.Size())
    }

    /** The next Read delivers the object's bytes: a reopen is due or the stream is coherent. */
    ghost predicate ReadyToRead()
      reads this
    {
      !closed && (offset == -1 || Coherent())
    }

    ghost function Position(): int
      reads this
    {
      ReaderPosition(offset, chunkOffset)
    }

    constructor (o: RemoteObject, sizeIter: SizeIterator, chunkSize: int)
      requires sizeIter.Valid() && (chunkSize > 0 || chunkSize == -1)
      ensures Valid() && ReadyToRead()
      ensures this.o == o && this.sizeIter == sizeIter && this.chunkSize == chunkSize
      ensures rc.None? && offset == -1 && chunkOffset == 0 && !closed && opens == []
    {
      this.o := o;
      this.sizeIter := sizeIter;
      this.chunkSize := chunkSize;
      rc := None;
      offset := -1;
      chunkOffset := 0;
      closed := false;
      opens := [];
    }

    /** `resetReader`: close the old stream, then switch to the new one; a failed close switches nothing. */
    method ResetReader(newRc: Option<Stream>, newOffset: int) returns (err: Option<Error>)
      modifies this
      ensures closed == old(closed) && chunkOffset == old(chunkOffset) && chunkSize == old(chunkSize) && opens == old(opens)
      ensures old(rc).Some? && o.closeFails(old(rc).value) ==>
                err == Some(CloseFailed) && rc == old(rc) && offset == old(offset)
      ensures !(old(rc).Some? && o.closeFails(old(rc).value)) ==>
                err.None? && rc == newRc && offset == newOffset
    {
      if rc.Some? && o.closeFails(rc.value) {
        return Some(CloseFailed);
      }
      rc := newRc;
      offset := newOffset;
      return None;
    }

    /**
     * The first half of `openRange`: a stream that can seek in place is
     * moved to the chunk, and kept if it lands exactly at the chunk's start.
     */
    method SeekInPlace() returns (reused: bool)
      modifies this
      ensures reused == ReusesStream(o, old(rc), chunkOffset, chunkSize)
      ensures reused ==> offset == chunkOffset && rc == Some(SeekStream(o, old(rc).value, chunkOffset, chunkSize))
      ensures !reused ==> offset == old(offset) && rc == AfterSeekAttempt(o, old(rc), chunkOffset, chunkSize)
      ensures closed == old(closed) && chunkOffset == old(chunkOffset) && chunkSize == old(chunkSize) && opens == old(opens)
    {
      reused := false;
      if rc.Some? && rc.value.seekable {
        var landing := o.seekLands(rc.value, chunkOffset, chunkSize);
        if landing.Some? {
          rc := Some(SeekStream(o, rc.value, landing.value, chunkSize));
          if landing.value == chunkOffset {
            offset := chunkOffset;
            reused := true;
          }
        }
      }
    }

    /**
     * The second half of `openRange`: open the object for the chunk and
     * switch to the new stream; a failed open changes nothing.
     */
    method OpenChunk() returns (err: Option<Error>)
      requires chunkOffset >= 0
      modifies this
      ensures opens == old(opens) + [OpenRequest(chunkOffset, chunkSize)]
      ensures closed == old(closed) && chunkOffset == old(chunkOffset) && chunkSize == old(chunkSize)
      ensures o.openFails(OpenRequest(chunkOffset, chunkSize)) ==>
                err == Some(OpenFailed) && offset == old(offset) && rc == old(rc)
      ensures !o.openFails(OpenRequest(chunkOffset, chunkSize)) && old(rc).Some? && o.closeFails(old(rc).value) ==>
                err == Some(CloseFailed) && offset == old(offset) && rc == old(rc)
      ensures !o.openFails(OpenRequest(chunkOffset, chunkSize)) && !(old(rc).Some? && o.closeFails(old(rc).value)) ==>
                err.None? && offset == chunkOffset && rc == Some(OpenStream(o, OpenRequest(chunkOffset, chunkSize)))
      ensures err.None? ==> rc.Some? && rc.value == Stream(chunkOffset, ChunkEnd(chunkOffset, chunkSize, o.Size()), o.seekable)
    {
      var req := OpenRequest(chunkOffset, chunkSize);
      opens := opens + [req];
      if o.openFails(req) {
        return Some(OpenFailed);
      }
      OpenRequestCoversChunk(o, chunkOffset, chunkSize);
      err := ResetReader(Some(OpenStream(o, req)), chunkOffset);
    }

    /**
     * `openRange`: make the stream serve the current chunk, by an in-place
     * seek of the open stream if it lands exactly at the chunk, otherwise by
     * opening the object for the chunk and switching to the new stream.
     */
    method OpenRange() returns (err: Option<Error>)
      requires Valid()
      modifies this
      ensures Valid()
      ensures closed == old(closed) && chunkOffset == old(chunkOffset) && chunkSize == old(chunkSize)
      ensures old(closed) ==> err == Some(FileClosed) && unchanged(this)
      ensures !old(closed) && ReusesStream(o, old(rc), chunkOffset, chunkSize) ==>
                err.None? && opens == old(opens) && rc == Some(SeekStream(o, old(rc).value, chunkOffset, chunkSize))
      ensures !old(closed) && !ReusesStream(o, old(rc), chunkOffset, chunkSize) ==>
                opens == old(opens) + [OpenRequest(chunkOffset, chunkSize)] &&
                (err.Some? ==> offset == old(offset) && rc == AfterSeekAttempt(o, old(rc), chunkOffset, chunkSize)) &&
                (err.None? ==> rc == Some(OpenStream(o, OpenRequest(chunkOffset, chunkSize))))
      ensures !old(closed) && !ReusesStream(o, old(rc), chunkOffset, chunkSize) ==>
                (err == Some(OpenFailed) <==> o.openFails(OpenRequest(chunkOffset, chunkSize)))
      ensures !old(closed) && !ReusesStream(o, old(rc), chunkOffset, chunkSize) ==>
                var moved := AfterSeekAttempt(o, old(rc), chunkOffset, chunkSize);
                (err == Some(CloseFailed) <==>
                  !o.openFails(OpenRequest(chunkOffset, chunkSize)) && moved.Some? && o.closeFails(moved.value))
      ensures err.None? ==> offset == chunkOffset && rc.Some? && rc.value.pos == chunkOffset &&
                            rc.value.end == ChunkEnd(chunkOffset, chunkSize, o.Size())
      ensures err.None? && chunkOffset <= o.Size() ==> Coherent()
      ensures !old(closed) && err.Some? ==> err == Some(OpenFailed) || err == Some(CloseFailed)
    {
      if closed {
        return Some(FileClosed);
      }
      var reused := SeekInPlace();
      if reused {
        return None;
      }
      err := OpenChunk();
    }

    /** `io.ReadFull(rc, p[at..at+want])`: the bytes read land in p from `at` on, the stream moves past them. */
    method ReadFullInto(p: array<byte>, at: nat, want: nat) returns (rn: nat, err: Option<Error>)
      requires rc.Some? && rc.value.end <= o.Size() && at + want <= p.Length
      modifies this, p
      ensures var r := ReadFull(o, old(rc).value, want);
                rn == |r.data| && err == r.err && rc == Some(r.after) && p[at..at + rn] == r.data
      ensures p[..at] == old(p[..at]) && p[at + rn..] == old(p[at + rn..])
      ensures offset == old(offset) && chunkOffset == old(chunkOffset) && chunkSize == old(chunkSize)
      ensures closed == old(closed) && opens == old(opens)
      ensures err == Some(ReadFailed) <==> want > 0 && o.readFails(old(rc).value)
    {
      var r := ReadFull(o, rc.value, want);
      forall i | 0 <= i < |r.data| {
        p[at + i] := r.data[i];
      }
      rc := Some(r.after);
      return |r.data|, r.err;
    }

    /**
     * The first half of a Read step: at the end of a chunk the next chunk
     * starts where it ended, sized by the iterator, and is opened; a reader
     * waiting to reopen opens its pending chunk; otherwise nothing happens.
     */
    method NextChunk() returns (err: Option<Error>)
      requires Valid() && !closed
      modifies this, sizeIter.Obj()
      ensures Valid() && !closed
      ensures var atEnd := old(chunkSize) > 0 && old(offset) == old(chunkOffset) + old(chunkSize);
              (atEnd ==> chunkOffset == old(offset) && chunkSize == FixNeg(IterNext(old(sizeIter.State())).0) &&
                         sizeIter.State() == IterNext(old(sizeIter.State())).1) &&
              (!atEnd && old(offset) != -1 ==> err.None? && unchanged(this) && unchanged(sizeIter.Obj())) &&
              (!atEnd ==> chunkOffset == old(chunkOffset) && chunkSize == old(chunkSize) &&
                          sizeIter.State() == old(sizeIter.State()))
      ensures chunkOffset >= old(chunkOffset)
      ensures err.Some? ==> offset == old(offset) && (err == Some(OpenFailed) || err == Some(CloseFailed))
      ensures err.None? ==> offset == ReaderPosition(old(offset), old(chunkOffset)) && rc.Some?
      ensures err.None? && chunkSize > 0 ==> chunkOffset <= offset < chunkOffset + chunkSize
      ensures old(ReadyToRead()) && err.None? ==> Coherent()
      ensures var atEnd := old(chunkSize) > 0 && old(offset) == old(chunkOffset) + old(chunkSize);
              opens == old(opens) ||
              ((atEnd || old(offset) == -1) && opens == old(opens) + [OpenRequest(chunkOffset, chunkSize)])
      ensures var atEnd := old(chunkSize) > 0 && old(offset) == old(chunkOffset) + old(chunkSize);
              (atEnd || old(offset) == -1) && ReusesStream(o, old(rc), chunkOffset, chunkSize) ==> err.None?
      ensures var atEnd := old(chunkSize) > 0 && old(offset) == old(chunkOffset) + old(chunkSize);
              (atEnd || old(offset) == -1) && !ReusesStream(o, old(rc), chunkOffset, chunkSize) ==>
                var moved := AfterSeekAttempt(o, old(rc), chunkOffset, chunkSize);
                (err == Some(OpenFailed) <==> o.openFails(OpenRequest(chunkOffset, chunkSize))) &&
                (err == Some(CloseFailed) <==>
                  !o.openFails(OpenRequest(chunkOffset, chunkSize)) && moved.Some? && o.closeFails(moved.value))
      ensures NeverFails(o) ==> err.None?
    {
      var chunkEnd := chunkOffset + chunkSize;
      if chunkSize > 0 && offset == chunkEnd {
        chunkOffset := offset;
        var next := NextChunkSize(sizeIter);
        chunkSize := FixNeg(next);
        err := OpenRange();
      } else if offset == -1 {
        err := OpenRange();
      } else {
        err := None;
      }
    }

    /**
     * The second half of a Read step: one `io.ReadFull` into p from `at`,
     * stopped at the end of the chunk when chunks are on; the offset moves
     * by the bytes read.
     */
    method Fill(p: array<byte>, at: nat, ghost start: int) returns (rn: nat, err: Option<Error>)
      requires Valid() && !closed && at < p.Length && offset != -1 && rc.Some?
      requires chunkSize > 0 ==> chunkOffset <= offset < chunkOffset + chunkSize
      modifies this, p
      ensures Valid() && !closed
      ensures chunkOffset == old(chunkOffset) && chunkSize == old(chunkSize) && opens == old(opens)
      ensures offset == old(offset) + rn && at + rn <= p.Length
      ensures p[..at] == old(p[..at]) && p[at + rn..] == old(p[at + rn..])
      ensures err.None? ==> rn > 0
      ensures err.Some? ==> at + rn < p.Length && err.value in {EOF, UnexpectedEOF, ReadFailed}
      ensures chunkSize > 0 ==> offset <= chunkOffset + chunkSize
      ensures err == Some(ReadFailed) <==> o.readFails(old(rc).value)
      ensures old(Coherent()) ==> offset <= o.Size() && p[at..at + rn] == o.content[old(offset)..offset]
      ensures old(Coherent()) ==> Coherent()
      ensures old(Coherent()) && (err == Some(EOF) || err == Some(UnexpectedEOF)) ==> offset == o.Size()
      ensures old(Coherent()) && old(offset) == start + at && Delivers(o, old(p[..]), start, at) ==>
                Delivers(o, p[..], start, at + rn)
    {
      var chunkRest := chunkOffset + chunkSize - offset;
      var want := if p.Length - at > chunkRest && chunkSize > 0 then chunkRest else p.Length - at;
      ghost var before := p[..];
      rn, err := ReadFullInto(p, at, want);
      offset := offset + rn;
      if old(Coherent()) && old(offset) == start + at && Delivers(o, before, start, at) {
        assert p[..at] == before[..at];
        JoinSlices(p[..], o.content, start, at, rn);
      }
    }

    /** One pass of Read's loop: move on to the next chunk if due, then read within the chunk into p from `at`. */
    method ReadStep(p: array<byte>, at: nat, ghost start: int) returns (rn: nat, err: Option<Error>)
      requires Valid() && !closed && at < p.Length
      modifies this, sizeIter.Obj(), p
      ensures Valid() && !closed
      ensures at + rn <= p.Length && p[..at] == old(p[..at]) && p[at + rn..] == old(p[at + rn..])
      ensures err.None? ==> rn > 0
      ensures err.Some? ==> at + rn < p.Length && err.value in {OpenFailed, CloseFailed, EOF, UnexpectedEOF, ReadFailed}
      ensures NeverFails(o) && err.Some? ==> err.value in {EOF, UnexpectedEOF}
      ensures (err.Some? && offset == old(offset) && rn == 0) || offset == old(Position()) + rn
      ensures old(offset) != -1 ==> offset != -1
      ensures chunkOffset >= old(chunkOffset)
      ensures old(ReadyToRead()) && err.None? ==> Coherent()
      ensures old(ReadyToRead()) && !(err.Some? && err.value in {OpenFailed, CloseFailed} && offset != -1) ==> ReadyToRead()
      ensures old(ReadyToRead()) && (err == Some(EOF) || err == Some(UnexpectedEOF)) ==> old(Position()) + rn == o.Size()
      ensures old(ReadyToRead()) && old(Position()) == start + at && Delivers(o, old(p[..]), start, at) ==>
                Delivers(o, p[..], start, at + rn)
      ensures var atEnd := old(chunkSize) > 0 && old(offset) == old(chunkOffset) + old(chunkSize);
              opens == old(opens) ||
              ((atEnd || old(offset) == -1) && opens == old(opens) + [OpenRequest(chunkOffset, chunkSize)])
      ensures old(chunkSize) == -1 && old(offset) != -1 ==> chunkSize == -1 && opens == old(opens)
      ensures var atEnd := old(chunkSize) > 0 && old(offset) == old(chunkOffset) + old(chunkSize);
              !atEnd ==> chunkOffset == old(chunkOffset) && chunkSize == old(chunkSize) &&
                         sizeIter.State() == old(sizeIter.State())
    {
      err := NextChunk();
      if err.Some? {
        return 0, err;
      }
      rn, err := Fill(p, at, start);
    }

    /**
     * The loop of `Read` on an open reader: fill p chunk by chunk until it is
     * full or a step fails. From a state ready to read, the bytes delivered
     * are the object's bytes from the reader's position on, and a short read
     * means the object's end was reached.
     */
    method ReadLoop(p: array<byte>) returns (n: int, err: Option<Error>)
      requires Valid() && !closed
      modifies this, sizeIter.Obj(), p
      ensures Valid() && !closed
      ensures 0 <= n <= p.Length && p[n..] == old(p[n..])
      ensures err.None? <==> n == p.Length
      ensures err != Some(UnexpectedEOF)
      ensures NeverFails(o) ==> err.None? || err == Some(EOF)
      ensures (offset == -1 && n == 0) || offset == old(Position()) + n
      ensures chunkOffset >= old(chunkOffset)
      ensures old(ReadyToRead()) ==> Delivers(o, p[..], old(Position()), n)
      ensures old(ReadyToRead()) && (err.None? || err == Some(EOF) || err == Some(ReadFailed)) ==> ReadyToRead()
      ensures old(ReadyToRead()) && err == Some(EOF) ==> old(Position()) + n == o.Size()
      ensures p.Length == 0 ==> n == 0 && err.None? && unchanged(this) && unchanged(sizeIter.Obj())
      ensures old(chunkSize) == -1 && old(offset) != -1 ==> opens == old(opens)
      ensures old(offset) != -1 && old(chunkSize) > 0 && old(Position()) + n < old(chunkOffset) + old(chunkSize) ==>
                chunkOffset == old(chunkOffset) && chunkSize == old(chunkSize) && opens == old(opens) &&
                sizeIter.State() == old(sizeIter.State())
    {
      n, err := 0, None;
      ghost var start := Position();
      ghost var ready := ReadyToRead();
      while n < p.Length
        invariant Valid() && !closed && err.None?
        invariant 0 <= n <= p.Length && p[n..] == old(p[n..])
        invariant (offset == -1 && n == 0 && chunkOffset == start) || offset == start + n
        invariant chunkOffset >= old(chunkOffset)
        invariant ready ==> offset == -1 || Coherent()
        invariant ready ==> Delivers(o, p[..], start, n)
        invariant old(chunkSize) == -1 && old(offset) != -1 ==> chunkSize == -1 && offset != -1 && opens == old(opens)
        invariant p.Length == 0 ==> unchanged(this) && unchanged(sizeIter.Obj())
        invariant old(offset) != -1 ==> offset != -1
        invariant old(offset) != -1 && old(chunkSize) > 0 && start + n <= old(chunkOffset) + old(chunkSize) ==>
                    chunkOffset == old(chunkOffset) && chunkSize == old(chunkSize) && opens == old(opens) &&
                    sizeIter.State() == old(sizeIter.State())
        decreases p.Length - n
      {
        ghost var rest := p[n..];
        var rn;
        rn, err := ReadStep(p, n, start);
        assert p[n + rn..] == rest[rn..];
        n := n + rn;
        if err.Some? {
          assert NeverFails(o) ==> err.value in {EOF, UnexpectedEOF};
          if err == Some(UnexpectedEOF) {
            err := Some(EOF);
          }
          return;
        }
      }
    }

    /** `Read`: a closed reader refuses and changes nothing; an open one runs the loop. */
    method Read(p: array<byte>) returns (n: int, err: Option<Error>)
      requires Valid()
      modifies this, sizeIter.Obj(), p
      ensures Valid()
      ensures old(closed) ==> n == 0 && err == Some(FileClosed) && unchanged(this) && unchanged(sizeIter.Obj()) && unchanged(p)
      ensures closed == old(closed)
      ensures 0 <= n <= p.Length && p[n..] == old(p[n..])
      ensures !old(closed) ==> (err.None? <==> n == p.Length)
      ensures err != Some(UnexpectedEOF)
      ensures !old(closed) && NeverFails(o) ==> err.None? || err == Some(EOF)
      ensures !old(closed) ==> (offset == -1 && n == 0) || offset == old(Position()) + n
      ensures chunkOffset >= old(chunkOffset)
      ensures old(ReadyToRead()) ==> Delivers(o, p[..], old(Position()), n)
      ensures old(ReadyToRead()) && (err.None? || err == Some(EOF) || err == Some(ReadFailed)) ==> ReadyToRead()
      ensures old(ReadyToRead()) && err == Some(EOF) ==> old(Position()) + n == o.Size()
      ensures p.Length == 0 && !old(closed) ==> n == 0 && err.None? && unchanged(this) && unchanged(sizeIter.Obj())
      ensures !old(closed) && old(chunkSize) == -1 && old(offset) != -1 ==> opens == old(opens)
      ensures old(offset) != -1 && old(chunkSize) > 0 && old(Position()) + n < old(chunkOffset) + old(chunkSize) ==>
                chunkOffset == old(chunkOffset) && chunkSize == old(chunkSize) && opens == old(opens) &&
                sizeIter.State() == old(sizeIter.State())
    {
      if closed {
        return 0, Some(FileClosed);
      }
      n, err := ReadLoop(p);
    }

    /** `Close`: mark the reader closed and drop its stream; only the first Close does anything. */
    method Close() returns (err: Option<Error>)
      requires Valid()
      modifies this
      ensures Valid()
      ensures old(closed) ==> err == Some(FileClosed) && unchanged(this)
      ensures closed
      ensures chunkOffset == old(chunkOffset) && chunkSize == old(chunkSize) && opens == old(opens)
      ensures !old(closed) && old(rc).Some? && o.closeFails(old(rc).value) ==>
                err == Some(CloseFailed) && rc == old(rc) && offset == old(offset)
      ensures !old(closed) && !(old(rc).Some? && o.closeFails(old(rc).value)) ==>
                err.None? && rc.None? && offset == 0
    {
      if closed {
        return Some(FileClosed);
      }
      closed := true;
      err := ResetReader(None, 0);
    }

    /**
     * `RangeSeek`: aim the next chunk at the target and force a reopen. The
     * iterator restarts; a positive length is the next chunk's size, and
     * otherwise the iterator gives it. A target outside the object is
     * rejected, leaving the next chunk at 0. The base of a SeekCurrent is the
     * offset field as it stands, the sentinel -1 included (see `SeekBase`
     * for the base counted from the reader's position).
     */
    method RangeSeek(offset: int, whence: int, length: int) returns (pos: int, err: Option<Error>)
      requires Valid()
      modifies this, sizeIter.Obj()
      ensures Valid()
      ensures old(closed) ==> pos == 0 && err == Some(FileClosed) && unchanged(this) && unchanged(sizeIter.Obj())
      ensures !old(closed) ==>
                var target := SeekBaseAsWritten(whence, old(this.offset), o.Size()) + offset;
                var restarted := IterReset(old(sizeIter.State()));
                !closed && rc == old(rc) && opens == old(opens) && this.offset == -1 &&
                (pos, err) == SeekResult(target, o.Size()) && chunkOffset == pos && Position() == pos &&
                (length > 0 ==> chunkSize == length && sizeIter.State() == restarted) &&
                (length <= 0 ==> chunkSize == FixNeg(IterNext(restarted).0) && sizeIter.State() == IterNext(restarted).1)
      ensures ReadyToRead() == !closed
    {
      if closed {
        return 0, Some(FileClosed);
      }
      var size := o.Size();
      var base := this.offset;
      if whence == SeekStart {
        base := 0;
      } else if whence == SeekEnd {
        base := size;
      }
      chunkOffset := base + offset;
      this.offset := -1;
      ResetIterator(sizeIter, length);
      if length > 0 {
        chunkSize := length;
      } else {
        var next := NextChunkSize(sizeIter);
        chunkSize := FixNeg(next);
      }
      if chunkOffset < 0 || chunkOffset >= size {
        chunkOffset := 0;
        return 0, Some(InvalidSeek);
      }
      return chunkOffset, None;
    }

    /** `Seek`: a RangeSeek whose next chunk size comes from the iterator. */
    method Seek(offset: int, whence: int) returns (pos: int, err: Option<Error>)
      requires Valid()
      modifies this, sizeIter.Obj()
      ensures Valid()
      ensures old(closed) ==> pos == 0 && err == Some(FileClosed) && unchanged(this) && unchanged(sizeIter.Obj())
      ensures !old(closed) ==>
                var target := SeekBaseAsWritten(whence, old(this.offset), o.Size()) + offset;
                var restarted := IterReset(old(sizeIter.State()));
                !closed && rc == old(rc) && opens == old(opens) && this.offset == -1 &&
                (pos, err) == SeekResult(target, o.Size()) && chunkOffset == pos &&
                chunkSize == FixNeg(IterNext(restarted).0) && sizeIter.State() == IterNext(restarted).1
    {
      pos, err := RangeSeek(offset, whence, -1);
    }

    /** `Open`: keep a stream that is open and in use, otherwise open the current chunk now. */
    method Open() returns (r: ChunkedReader, err: Option<Error>)
      requires Valid()
      modifies this
      ensures Valid() && r == this
      ensures old(rc).Some? && old(offset) != -1 ==> err.None? && unchanged(this)
      ensures !(old(rc).Some? && old(offset) != -1) && old(closed) ==> err == Some(FileClosed) && unchanged(this)
      ensures closed == old(closed) && chunkOffset == old(chunkOffset) && chunkSize == old(chunkSize)
      ensures err.None? ==> rc.Some? && offset != -1
      ensures err.None? && !(old(rc).Some? && old(offset) != -1) && chunkOffset <= o.Size() ==>
                Coherent() && offset == chunkOffset
      ensures !(old(rc).Some? && old(offset) != -1) && !old(closed) && ReusesStream(o, old(rc), chunkOffset, chunkSize) ==>
                err.None? && opens == old(opens) && rc == Some(SeekStream(o, old(rc).value, chunkOffset, chunkSize))
      ensures !(old(rc).Some? && old(offset) != -1) && !old(closed) && !ReusesStream(o, old(rc), chunkOffset, chunkSize) ==>
                opens == old(opens) + [OpenRequest(chunkOffset, chunkSize)] &&
                (err.Some? ==> offset == old(offset) && rc == AfterSeekAttempt(o, old(rc), chunkOffset, chunkSize)) &&
                (err.None? ==> rc == Some(OpenStream(o, OpenRequest(chunkOffset, chunkSize))))
      ensures !(old(rc).Some? && old(offset) != -1) && !old(closed) && err.Some? ==>
                err == Some(OpenFailed) || err == Some(CloseFailed)
      ensures !(old(rc).Some? && old(offset) != -1) && !old(closed) && !ReusesStream(o, old(rc), chunkOffset, chunkSize) ==>
                var moved := AfterSeekAttempt(o, old(rc), chunkOffset, chunkSize);
                (err == Some(OpenFailed) <==> o.openFails(OpenRequest(chunkOffset, chunkSize))) &&
                (err == Some(CloseFailed) <==>
                  !o.openFails(OpenRequest(chunkOffset, chunkSize)) && moved.Some? && o.closeFails(moved.value))
      ensures !old(closed) && NeverFails(o) ==> err.None?
    {
      if rc.Some? && offset != -1 {
        return this, None;
      }
      err := OpenRange();
      return this, err;
    }
  }

  /** The first n bytes of q are the object's bytes from `start` on. */
  ghost predicate Delivers(o: RemoteObject, q: seq<byte>, start: int, n: int) {
    0 <= start && 0 <= n <= |q| && start + n <= o.Size() && q[..n] == o.content[start..start + n]
  }

  /** Two adjacent pieces of q that match adjacent pieces of c match together. */
  lemma JoinSlices(q: seq<byte>, c: seq<byte>, start: nat, n: nat, rn: nat)
    requires n + rn <= |q| && start + n + rn <= |c|
    requires q[..n] == c[start..start + n] && q[n..n + rn] == c[start + n..start + n + rn]
    ensures q[..n + rn] == c[start..start + n + rn]
  {
    assert q[..n + rn] == q[..n] + q[n..n + rn];
    assert c[start..start + n + rn] == c[start..start + n] + c[start + n..start + n + rn];
  }

  /** `NewWithChunkSizeIterator`: a reader that reopens on its first Read, its first chunk sized by the iterator. */
  method NewWithChunkSizeIterator(o: RemoteObject, sizeIter: SizeIterator) returns (cr: ChunkedReader)
    requires sizeIter.Valid()
    modifies sizeIter.Obj()
    ensures fresh(cr) && cr.Valid() && cr.ReadyToRead()
    ensures cr.o == o && cr.sizeIter == sizeIter
    ensures cr.rc.None? && cr.offset == -1 && cr.chunkOffset == 0 && !cr.closed && cr.opens == []
    ensures cr.chunkSize == FixNeg(IterNext(old(sizeIter.State())).0)
    ensures sizeIter.State() == IterNext(old(sizeIter.State())).1
  {
    var first := NextChunkSize(sizeIter);
    cr := new ChunkedReader(o, sizeIter, FixNeg(first));
  }

  /** `New`: a reader whose chunks start at initialChunkSize and double up to maxChunkSize. */
  method New(o: RemoteObject, initialChunkSize: int, maxChunkSize: int) returns (cr: ChunkedReader)
    requires IsInt64(initialChunkSize) && IsInt64(maxChunkSize)
    ensures fresh(cr) && fresh(cr.sizeIter.Obj()) && cr.Valid() && cr.ReadyToRead()
    ensures cr.o == o && cr.rc.None? && cr.offset == -1 && cr.chunkOffset == 0 && !cr.closed
    ensures cr.chunkSize == FixNeg(MinMaxNext(IteratorFromMinMax(initialChunkSize, maxChunkSize)).0)
    ensures cr.sizeIter.State() == MinMaxAt(MinMaxNext(IteratorFromMinMax(initialChunkSize, maxChunkSize)).1)
  {
    var mm := new MinMaxIterator(IteratorFromMinMax(initialChunkSize, maxChunkSize));
    cr := NewWithChunkSizeIterator(o, MinMaxIter(mm));
  }

  /** The first chunk of a reader made by New is the initial size, or the whole object when it is not positive. */
  lemma NewFirstChunkSize(initialChunkSize: int, maxChunkSize: int)
    requires IsInt64(initialChunkSize) && IsInt64(maxChunkSize)
    ensures initialChunkSize > 0 ==> FixNeg(MinMaxNext(IteratorFromMinMax(initialChunkSize, maxChunkSize)).0) == initialChunkSize
    ensures initialChunkSize <= 0 ==> FixNeg(MinMaxNext(IteratorFromMinMax(initialChunkSize, maxChunkSize)).0) == -1
  {
  }
}
