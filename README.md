# Chunked reading and the mount ioctl interface of rclone, in Dafny

This project models three parts of rclone and proves properties of each.

**The chunked reader** (`fs/chunkedreader/chunkedreader.go`, module
`ChunkedReaders`, file `chunkedreader.dfy`). A `ChunkedReader` turns a remote
object that can only be opened by byte range into an ordinary reader with
`Read`, `Seek`, `RangeSeek`, `Open` and `Close`. It reads the object one chunk
at a time. The chunk sizes come from a chunk-size iterator. At every chunk
boundary and after every seek, it either seeks the open stream in place or
reopens the object.

- The reader is a `class` whose fields (`rc`, `offset`, `chunkOffset`,
  `chunkSize`, `closed`) its methods update step by step.
- The remote object is a value: its bytes, whether its streams can seek in
  place, and how it answers each open, close, in-place seek and read.
- A stream is a cursor over the part of the object it was opened for.
- A ghost log `opens` records every open request the reader makes.

**The chunk-size strategies.**

- The doubling `minMaxIterator` (module `SizeIterators`, file
  `chunksize.dfy`).
- The multiplier schedule `MultiplierList` (module `MultiplierLists`, file
  `multiplierlist.dfy`). It covers:
  - the parser for texts such as `2k,x3,20k,x2`;
  - the printer `String`;
  - `Set`, `Empty` and `Iter`;
  - the iterator that steps from anchor to anchor, multiplying toward the
    next anchor where a multiplier is given.

Each iterator is a class. Its `NextChunkSize` and `Reset` methods are proved
against a step function on the iterator's state. The properties are lemmas
about that function.

The reader reaches both iterators through the `SizeIterator` datatype, which
stands in for the `ChunkSizeIterator` interface.

**The mount ioctl interface** (`cmd/mount/ioctl.go`, module `Ioctl`, file
`ioctl.dfy`). It packs and unpacks ioctl command numbers in the Linux `_IOC`
layout, on 32-bit bit-vectors:

- number in bits 0-7;
- type in bits 8-15;
- size in bits 16-29;
- direction in bits 30-31.

It also covers the magic check on the 64-bit argument and the refresh
dispatch of files and directories.

Three supporting modules:

- `Wrappers`: `Option`.
- `Int64`: int64 range and two's-complement wrap-around.
- `Text`: Go's `strings.Split` on commas, `strings.TrimSpace` on Unicode
  white space (`unicode.IsSpace`), and `strconv.ParseInt` in base 10.

## Model

| member | source | states |
|---|---|---|
| SizeIterators.IteratorFromMinMax | fs/chunkedreader/chunkedreader.go:64-81 | a minimum <= 0 disables chunking (min = -1); otherwise max -1 becomes MaxInt64, a max below min is raised to min, and the state starts at cur = 0 |
| SizeIterators.MinMaxNext | fs/chunkedreader/chunkedreader.go:44-56 | corrected step: disabled yields -1; otherwise the value lies in [min, max], and the first call after construction or Reset yields min |
| SizeIterators.MinMaxNextAsWritten | fs/chunkedreader/chunkedreader.go:44-56 | the step as written, with `cur *= 2` wrapping at 64 bits; min and max never change |
| SizeIterators.MinMaxReset | fs/chunkedreader/chunkedreader.go:57-59 | Reset ignores the length and restarts the sequence: cur = 0, min and max kept |
| SizeIterators.MinMaxSizes | fs/chunkedreader/chunkedreader.go:44-59 | the first k sizes are the k successive results of the step |
| SizeIterators.DoublingClosedForm | fs/chunkedreader/chunkedreader.go:44-59 | the k-th size after a start is min * 2^k capped at max |
| SizeIterators.DisabledYieldsMinusOne | fs/chunkedreader/chunkedreader.go:44-48 | a disabled iterator yields -1 on every call, before and after Reset |
| SizeIterators.DoublingExample | fs/chunkedreader/chunkedreader.go:44-59 | (2, 16) yields 2, 4, 8, 16, 16, 16 |
| SizeIterators.DoublingAsWrittenClosedForm | fs/chunkedreader/chunkedreader.go:44-56 | as written, while min * 2^k fits in int64, the k-th size is min * 2^k capped at max |
| SizeIterators.DoublingAsWrittenOverflows | fs/chunkedreader/chunkedreader.go:49-55 | as written, (128M, 1G) yields MinInt64 as its 37th size |
| SizeIterators.CorrectedAgreesWithAsWritten | fs/chunkedreader/chunkedreader.go:44-56 | while min * 2^k fits in int64, the k-th size of the corrected step equals the k-th size as written |
| SizeIterators.CorrectedStaysInRange | fs/chunkedreader/chunkedreader.go:44-56 | with the corrected step, every size of an enabled iterator lies in [min, max] |
| SizeIterators.MinMaxIterator.constructor | fs/chunkedreader/chunkedreader.go:77-80 | the object holds the given state |
| SizeIterators.MinMaxIterator.NextChunkSize | fs/chunkedreader/chunkedreader.go:44-56 | returns the step's size and moves the fields to the step's new state |
| SizeIterators.MinMaxIterator.Reset | fs/chunkedreader/chunkedreader.go:57-59 | the fields become the reset state |
| Text.Split | fs/chunkedreader/multiplierlist.go:30 | splitting on commas gives at least one segment, none holding a comma, whose join is the text |
| Text.SplitJoin | fs/chunkedreader/multiplierlist.go:30 | splitting the join of comma-free segments gives the segments back |
| Text.TrimSpace | fs/chunkedreader/multiplierlist.go:42 | the result is a slice of the text with only white space cut on either side; it is empty exactly when the text is all white space, and otherwise neither starts nor ends with white space |
| Text.ParseInt10 | fs/chunkedreader/multiplierlist.go:58 | accepted exactly when the text is digits, or '+' or '-' followed by digits, and the value fits in int64; the result is the digits' decimal value, negated after '-' |
| Text.DecimalRoundTrip | fs/chunkedreader/multiplierlist.go:160 | printing an int64 in decimal and parsing it gives it back |
| MultiplierLists.ScanSegment | fs/chunkedreader/multiplierlist.go:42-77 | one trimmed segment keeps the anchors and multipliers of equal length |
| MultiplierLists.ParseParts | fs/chunkedreader/multiplierlist.go:36-83 | a successful parse is well formed: equal lengths, anchors > 0, multipliers 0 or in [2, MaxInt64] |
| MultiplierLists.AsWritten | fs/chunkedreader/multiplierlist.go:58-64 | the source's outcome is a list exactly when parsing succeeds, and neither list nor error exactly when the multiplier is below 2 |
| MultiplierLists.ParseMultiplierListParts | fs/chunkedreader/multiplierlist.go:36-83 | the loop returns the as-written outcome of the segment-by-segment parse |
| MultiplierLists.ParseMultiplierList | fs/chunkedreader/multiplierlist.go:29-31 | parses the comma-separated segments of the text |
| MultiplierLists.Set | fs/chunkedreader/multiplierlist.go:167-174 | on an error the list is kept and the error reported; otherwise the list becomes the well-formed parse |
| MultiplierLists.ScanKeepsWellFormed | fs/chunkedreader/multiplierlist.go:65-82 | parsing segments onto a well-formed list gives a well-formed list |
| MultiplierLists.ScanKeepsAnchorOrder | fs/chunkedreader/multiplierlist.go:75-76 | the anchors are the parsed sizes in input order |
| MultiplierLists.RejectedSegmentFailsParse | fs/chunkedreader/multiplierlist.go:41-74 | a segment that is rejected whatever comes before it (empty, bad multiplier text, bad or non-positive size) fails the whole parse |
| MultiplierLists.MultiplierFirstFails | fs/chunkedreader/multiplierlist.go:52-54 | a multiplier in first position is an error |
| MultiplierLists.ConsecutiveMultipliersFail | fs/chunkedreader/multiplierlist.go:55-57 | two multipliers in a row fail the parse |
| MultiplierLists.MultiplierSegmentThenMultiplier | fs/chunkedreader/multiplierlist.go:55-57 | a multiplier directly after an accepted multiplier is "multiple multipliers in a row" |
| MultiplierLists.EntrySegments | fs/chunkedreader/multiplierlist.go:153-161 | an anchor prints as its size, followed by an `xN` segment exactly when its multiplier is > 1 |
| MultiplierLists.String | fs/chunkedreader/multiplierlist.go:151-164 | the buffer ends up as the comma-join of the entries' segments, in order |
| MultiplierLists.PrintThenParse | fs/chunkedreader/multiplierlist.go:151-164 | when the size printer and parser agree on every anchor, parsing the printed list gives the list back |
| MultiplierLists.Empty | fs/chunkedreader/multiplierlist.go:133-135 | true exactly when there are no anchors |
| MultiplierLists.ListNext | fs/chunkedreader/multiplierlist.go:92-127 | an empty list yields -1 and stays put; otherwise the yield is the new last value, and the first call from the start yields anchors[0] |
| MultiplierLists.ListNextKeepsReached | fs/chunkedreader/multiplierlist.go:104-126 | on a parsed list without overflow the cursor stays consistent and every yield is positive |
| MultiplierLists.PastLastAnchorRepeats | fs/chunkedreader/multiplierlist.go:97-103 | once past the last anchor the last anchor repeats forever |
| MultiplierLists.MultiplyStopsAtNextAnchor | fs/chunkedreader/multiplierlist.go:118-126 | a multiplying step never exceeds the next anchor, and snaps to it exactly when the cursor advances |
| MultiplierLists.NoMultiplierJumpsToNextAnchor | fs/chunkedreader/multiplierlist.go:109-116 | without a multiplier the next call yields the next anchor and moves the cursor to it |
| MultiplierLists.LastAnchorMultipliesForever | fs/chunkedreader/multiplierlist.go:118-126 | on the last anchor a multiplier keeps scaling the value, with int64 wrap-around |
| MultiplierLists.EmptyIffDisabled | fs/chunkedreader/multiplierlist.go:93-96 | a parsed list is Empty exactly when its iterator starts with -1 |
| MultiplierLists.AnchorsOnlyExample | fs/chunkedreader/multiplierlist_test.go:10-25 | 2M,10M,50M,200M yields 2M, 10M, 50M, 200M, 200M |
| MultiplierLists.TrailingMultiplierExample | fs/chunkedreader/multiplierlist_test.go:27-42 | 128M,1G,x2 yields 128M, 1G, 2G, 4G, 8G |
| MultiplierLists.BetweenAnchorsExample | fs/chunkedreader/multiplierlist_test.go:44-59 | 2k,x3,20k,x2 yields 2k, 6k, 18k, 20k, 40k |
| MultiplierLists.SizesOnlyScan | fs/chunkedreader/multiplierlist.go:66-72 | segments that are all positive sizes append exactly those sizes as anchors, each with multiplier 0 |
| MultiplierLists.AnchorsOnlyParses | fs/chunkedreader/multiplierlist_test.go:10-25 | the text "2M,10M,50M,200M" parses to anchors [2M, 10M, 50M, 200M] without multipliers, and its iterator yields 2M, 10M, 50M, 200M, 200M |
| MultiplierLists.TrailingMultiplierParses | fs/chunkedreader/multiplierlist_test.go:27-42 | the text "128M,1G,x2" parses to anchors [128M, 1G] with multipliers [0, 2], and its iterator yields 128M, 1G, 2G, 4G, 8G |
| MultiplierLists.BetweenAnchorsParses | fs/chunkedreader/multiplierlist_test.go:44-59 | the text "2k,x3,20k,x2" parses to anchors [2k, 20k] with multipliers [3, 2], and its iterator yields 2k, 6k, 18k, 20k, 40k |
| MultiplierLists.EmptySegmentExample | fs/chunkedreader/multiplierlist.go:43-45 | ",2M" fails with "empty segment" |
| MultiplierLists.LeadingMultiplierExample | fs/chunkedreader/multiplierlist.go:52-54 | "x2,2M" fails with "multiplier at first position" |
| MultiplierLists.MultipliersInARowExample | fs/chunkedreader/multiplierlist.go:55-57 | "2M,x2,x3,4M" fails with "multiple multipliers in a row" |
| MultiplierLists.SmallMultiplierExample | fs/chunkedreader/multiplierlist.go:62-64 | "2M,x1" is rejected by the corrected parse, and as written returns neither list nor error |
| MultiplierLists.MultiplierListIter.constructor | fs/chunkedreader/multiplierlist.go:86-90 | a new iterator holds the list with its cursor at the start |
| MultiplierLists.MultiplierListIter.NextChunkSize | fs/chunkedreader/multiplierlist.go:92-127 | returns the step's size and moves the cursor fields to the step's new cursor |
| MultiplierLists.MultiplierListIter.Reset | fs/chunkedreader/multiplierlist.go:128-130 | sliceIdx and lastVal return to 0, so the sequence replays |
| MultiplierLists.Iter | fs/chunkedreader/multiplierlist.go:86-90 | a fresh iterator over a copy of the list, at the start |
| ChunkedReaders.NextChunkSize | fs/chunkedreader/chunkedreader.go:31-38 | an interface call yields the chosen iterator's step and moves it to the step's state |
| ChunkedReaders.ResetIterator | fs/chunkedreader/chunkedreader.go:31-38 | an interface call moves the chosen iterator to its reset state |
| ChunkedReaders.FixNeg | fs/chunkedreader/chunkedreader.go:82-87 | every non-positive size becomes -1 and a positive size is kept |
| ChunkedReaders.OpenRequest | fs/chunkedreader/chunkedreader.go:258-268 | no range option exactly for length <= 0 at offset 0; otherwise it starts at the offset, ends at -1 for length <= 0, and covers exactly `length` bytes for length > 0 |
| ChunkedReaders.OpenRequestCoversChunk | fs/chunkedreader/chunkedreader.go:258-268 | the stream opened for a chunk starts at its offset and ends at the chunk end or the object end |
| ChunkedReaders.ReadFull | fs/chunkedreader/chunkedreader.go:149 | no error exactly when the whole buffer is filled; the bytes are the object's bytes at the stream position; EOF and unexpected EOF only at the stream end; the error is ReadFailed exactly when bytes are wanted and the object fails the read |
| ChunkedReaders.SeekBaseAsWritten | fs/chunkedreader/chunkedreader.go:196-204 | the seek base as written: 0, the size, or the offset field even when it is -1 |
| ChunkedReaders.SeekBase | fs/chunkedreader/chunkedreader.go:196-204 | the corrected base: SeekCurrent counts from the reader position, and it agrees with the as-written base whenever offset is not -1 |
| ChunkedReaders.SeekResult | fs/chunkedreader/chunkedreader.go:213-217 | a target in [0, size) is returned; any other target gives (0, invalid seek) |
| ChunkedReaders.SeekCurrentAsWrittenCountsFromMinusOne | fs/chunkedreader/chunkedreader.go:197-204 | as written, on a fresh reader Seek(0, SeekCurrent) is an invalid seek and Seek(5, SeekCurrent) lands at 4 |
| ChunkedReaders.SeekCurrentZeroKeepsPosition | fs/chunkedreader/chunkedreader.go:197-204 | corrected: Seek(0, SeekCurrent) returns the reader position |
| ChunkedReaders.ChunkedReader.constructor | fs/chunkedreader/chunkedreader.go:102-109 | no stream, offset -1, chunk offset 0, not closed, nothing opened |
| ChunkedReaders.ChunkedReader.ResetReader | fs/chunkedreader/chunkedreader.go:277-286 | if closing the old stream fails, rc and offset are unchanged and the error is returned; otherwise the new stream and offset are installed |
| ChunkedReaders.ChunkedReader.SeekInPlace | fs/chunkedreader/chunkedreader.go:245-256 | the stream is reused exactly when it can seek and lands at the chunk offset, and then offset = chunkOffset |
| ChunkedReaders.ChunkedReader.OpenChunk | fs/chunkedreader/chunkedreader.go:258-272 | logs one open request for the chunk; a failed open changes nothing; a failed close of the old stream keeps it; otherwise the new stream covers the chunk |
| ChunkedReaders.ChunkedReader.OpenRange | fs/chunkedreader/chunkedreader.go:237-273 | closed: refused, nothing changes; otherwise in-place reuse or reopen; on success offset = chunkOffset and the stream matches the chunk |
| ChunkedReaders.ChunkedReader.ReadFullInto | fs/chunkedreader/chunkedreader.go:140-151 | the bytes ReadFull delivers land at `p[at..]`, and nothing else in p changes; ReadFailed exactly when bytes are wanted and the read fails |
| ChunkedReaders.ChunkedReader.NextChunk | fs/chunkedreader/chunkedreader.go:121-138 | at a boundary the chunk moves to the offset with size fixNeg(next); with offset -1 the range is opened; otherwise nothing changes; away from a boundary chunkOffset, chunkSize and the iterator are kept; on success offset lies inside the chunk; at most one open request is logged, and only at a boundary or with offset -1; an error comes only from opening at a boundary or with offset -1: OpenFailed exactly when the object refuses the open request for the chunk, CloseFailed exactly when the open succeeds and closing the old stream fails, and none when the stream is reused in place; an object that never fails gives no error |
| ChunkedReaders.ChunkedReader.Fill | fs/chunkedreader/chunkedreader.go:140-157 | one fill never crosses the chunk end; offset grows by the bytes read, and those are the object's bytes; a coherent stream stays coherent whatever the read returns; ReadFailed exactly when the object fails the read on the open stream |
| ChunkedReaders.ChunkedReader.ReadStep | fs/chunkedreader/chunkedreader.go:121-157 | one loop pass: offset grows by the bytes read, and the bytes delivered so far stay the object's bytes from the start position; the reader stays ready to read unless a reopen after a boundary fails; away from a boundary chunkOffset, chunkSize and the iterator are kept; at most one open request, only at a boundary or with offset -1; an open stream with chunking off (size -1) is never reopened; over an object that never fails, the only errors are EOF and unexpected EOF |
| ChunkedReaders.ChunkedReader.ReadLoop | fs/chunkedreader/chunkedreader.go:120-159 | no error exactly when p is full; unexpected EOF is never reported; n bytes of the object from the start position are delivered; EOF only at the object end; after success, EOF or a read failure the reader is still ready to read; an empty p changes nothing; a Read that ends inside the open chunk keeps chunkOffset, chunkSize, the iterator and the open log; an open stream with chunking off is read without a reopen; over an object that never fails, the result is success or EOF, so p is filled unless the object ends first |
| ChunkedReaders.ChunkedReader.Read | fs/chunkedreader/chunkedreader.go:112-160 | closed: (0, file closed) and nothing changes; otherwise the ReadLoop guarantees (bytes delivered, readiness kept after success, EOF or a read failure, chunk state kept inside the open chunk), with offset = start + n; an empty p returns (0, nil) and changes nothing; on an open reader over an object that never fails, the result is success or EOF |
| ChunkedReaders.ChunkedReader.Close | fs/chunkedreader/chunkedreader.go:165-175 | a second close is file closed; the first sets closed even when closing the stream fails, and then returns that error |
| ChunkedReaders.ChunkedReader.RangeSeek | fs/chunkedreader/chunkedreader.go:186-218 | closed: refused; otherwise offset = -1, the iterator is reset, chunkSize = length or fixNeg(next), and (pos, err) and chunkOffset follow the seek result for the as-written base (SeekCurrent adds to the offset field, -1 included) |
| ChunkedReaders.ChunkedReader.Seek | fs/chunkedreader/chunkedreader.go:178-180 | RangeSeek with length -1, with the same as-written base: the next chunk size comes from the restarted iterator; the stream is kept and nothing is opened |
| ChunkedReaders.ChunkedReader.Open | fs/chunkedreader/chunkedreader.go:221-229 | an open stream in use is kept; otherwise the range is opened: an in-place reuse logs nothing, a reopen logs one request for the chunk, a failure (open or close failed) keeps offset and the stream as the seek attempt left it, and on success the stream matches the chunk; when a reopen is needed, OpenFailed exactly when the object refuses the open request for the chunk and CloseFailed exactly when the open succeeds and closing the old stream fails; on an open reader over an object that never fails, no error |
| ChunkedReaders.NewWithChunkSizeIterator | fs/chunkedreader/chunkedreader.go:102-109 | a fresh reader whose chunk size is fixNeg of the iterator's first size |
| ChunkedReaders.New | fs/chunkedreader/chunkedreader.go:95-97 | a fresh reader over a new min/max iterator, one step taken |
| ChunkedReaders.NewFirstChunkSize | fs/chunkedreader/chunkedreader.go:95-109 | the first chunk size is the initial size when positive, and -1 otherwise |
| Ioctl.MakeIoc | cmd/mount/ioctl.go:70-75 | number and type always land in bits 0-7 and 8-15; a size below 2^14 lands in bits 16-29; a direction below 4 lands in bits 30-31 |
| Ioctl.MakeIocN | cmd/mount/ioctl.go:77-79 | decodes to direction none, size 0 |
| Ioctl.MakeIocW | cmd/mount/ioctl.go:80-82 | decodes to direction write (1) for a size below 2^14 |
| Ioctl.MakeIocR | cmd/mount/ioctl.go:83-85 | decodes to direction read (2) for a size below 2^14 |
| Ioctl.DecodeIoc | cmd/mount/ioctl.go:86-91 | fields within their widths, and packing them again gives the number back |
| Ioctl.DecodeMakeIoc | cmd/mount/ioctl.go:70-91 | decoding a packed command gives its fields back when dir < 4 and size < 2^14 |
| Ioctl.MakeIocFieldsDisjoint | cmd/mount/ioctl.go:98-113 | the shifted fields do not overlap, so packing is their sum |
| Ioctl.MakeIocInjective | cmd/mount/ioctl.go:70-75 | distinct commands within the bounds pack to distinct numbers |
| Ioctl.LargeSizeSpillsIntoDir | cmd/mount/ioctl.go:70-91 | size bits 14-15 are OR-ed into the direction and dropped from the decoded size |
| Ioctl.IocRefreshValue | cmd/mount/ioctl.go:115-116 | IocRefresh is 0x7220: direction none, type 'r', number 0x20, size 0 |
| Ioctl.IocCheckMagic | cmd/mount/ioctl.go:93-96 | true exactly when bits 16-31 of the argument are 0x636C ('c','l') |
| Ioctl.CheckMagicOnlyBits16To31 | cmd/mount/ioctl.go:119-122 | arguments that agree on bits 16-31 agree on the check |
| Ioctl.RecursiveFlagKeepsMagic | cmd/mount/ioctl.go:93-96 | setting or clearing bit 0 never changes the check |
| Ioctl.FileIoctl | cmd/mount/ioctl.go:15-32 | ENOTTY exactly for another command or a bad magic; otherwise a one-level ReadDir whose failure gives result 1 |
| Ioctl.DirIoctl | cmd/mount/ioctl.go:35-60 | ENOTTY exactly for another command or a bad magic; bit 0 selects ReadDirTree; a failed refresh gives result 1 |
| Ioctl.FileIgnoresRecursiveFlag | cmd/mount/ioctl.go:15-32 | a file answers the same with or without bit 0 |
| Ioctl.DirRecursiveFlagSelectsTree | cmd/mount/ioctl.go:44-54 | bit 0 decides only which refresh a directory runs, not whether it is served |
| Ioctl.MagicRefreshIsServed | cmd/mount/ioctl.go:35-60 | the refresh command with the magic argument is served, recursively exactly when bit 0 is set |

## Left out

- Go strings are UTF-8 bytes and the model's strings are Unicode scalar
  values, so a flag value holding invalid UTF-8 is not modelled.
- The reader's `sync.Mutex` is left out. Every public method holds it for
  its whole body, so the reader is modelled sequentially.
- `fs.Debugf`, `fs.Logf` and `log.Trace` are left out; they only log.
- Sizes with unit suffixes (`fs.SizeSuffix` `Set` and `String`) are not part
  of this model. Their parser and printer are parameters.
  - MultiplierLists.PrintThenParse: proved only under the premise that the
    printer and parser agree on every anchor.
- `MultiplierList.Scan` and `Type` are left out. They are flag-library
  glue; `Scan` only trims its token and calls `Set`.
- MultiplierLists.Set: a function that returns the new list rather than
  assigning through the receiver. It reports a multiplier below 2 as an
  error. As written, that case makes `Set` dereference a nil list; see
  Findings.
- The remote object's `Open`, `Close`, in-place `RangeSeek` and `io.ReadFull`
  are external I/O. They are modelled as deterministic functions stored in
  the object.
  - A failed read is modelled as delivering no bytes.
  - `Size()` is the content length, so an unknown size (-1) is not
    modelled.
- The set of chunk-size iterators is closed: `SizeIterator` knows the
  min/max iterator and the multiplier-list iterator only.
- ChunkedReaders.ChunkedReader.Read: the delivered bytes are promised only
  when the reader starts in a consistent state (`ReadyToRead`). The source
  can leave that state in two ways:
  - a reopen at a chunk boundary fails;
  - an in-place seek lands wrong and the close that follows also fails.
  After either, a later Read may deliver bytes from the wrong place or end
  early.
- Reader arithmetic on `offset`, `chunkOffset + chunkSize` and
  `offset + length - 1` is unbounded. Go's int64 wrap-around there is not
  modelled. The multiplier-list iterator models wrap-around, with
  `Int64.Wrap64`; the min/max iterator class runs the corrected step (next
  line).
- SizeIterators.MinMaxIterator.NextChunkSize: runs the corrected step,
  which holds `cur` at `max` once the cap is reached. It agrees with the
  source while min * 2^k fits in int64 (`CorrectedAgreesWithAsWritten`),
  but does not reproduce the wrapped negative size the source returns
  after that; the source's behaviour is `MinMaxNextAsWritten` (Findings).
- ChunkedReaders.ChunkedReader.Open: models `Open` returning the reader
  itself. The in-use check does not look at `closed`, so a closed reader
  with a stream in use answers nil. The model keeps this.
- resetReader: when closing the old stream fails during a reopen, the
  newly opened stream is dropped without being closed. The model drops it
  the same way. It does not track leaked handles.
- MultiplierLists.ListNextKeepsReached: stated only while no
  multiplication overflows int64 (`NoOverflow`). The step function itself
  wraps as Go does.
- The FUSE request and response types are plain parameters and results.
  The real `ReadDir` and `ReadDirTree` are a success-or-failure input.
- `fs/prom`, `cmd/refresh`, the `all.go` registration files and the adb
  test harness are not part of this model. They are metrics I/O, a
  command-line tool, blank imports and a device test.
- The chunk-size iterator and the reader state are not shared between
  goroutines, so concurrency is not modelled.

## Findings

| source | as written | input that shows it | evidently intended | confidence | as-written member | corrected member |
|---|---|---|---|---|---|---|
| fs/chunkedreader/chunkedreader.go:49-55 | `cur *= 2` keeps doubling past the cap and wraps at 64 bits; the wrapped value is returned | IteratorFromMinMax(128M, 1G): the 37th NextChunkSize returns MinInt64, which fixNeg turns into "read to the end" | sizes stay at the cap once it is reached | not executed | SizeIterators.DoublingAsWrittenOverflows | SizeIterators.MinMaxNext |
| fs/chunkedreader/multiplierlist.go:62-64 | a multiplier below 2 returns `errors.Wrapf(err, …)` with `err == nil`, which is nil: no list and no error, and `Set` then dereferences the nil list | ParseMultiplierList("2M,x1") | an "invalid multiplier" error | not executed | MultiplierLists.ParseMultiplierListParts | MultiplierLists.ParseParts |
| fs/chunkedreader/chunkedreader.go:197-204 | SeekCurrent adds to the `offset` field, which is the sentinel -1 before the first Read and after every seek | a fresh reader over 10 bytes: Seek(0, SeekCurrent) is an invalid seek and Seek(5, SeekCurrent) lands at 4 | SeekCurrent counts from the reader's position (chunkOffset while offset is -1) | not executed | ChunkedReaders.SeekCurrentAsWrittenCountsFromMinusOne | ChunkedReaders.SeekCurrentZeroKeepsPosition |
