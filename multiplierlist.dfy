/**
 * The multiplier-list chunk-size schedule: a list of size anchors, each
 * optionally followed by a multiplier that scales the previous size until it
 * reaches the next anchor (or forever, after the last one). Its text form is
 * a comma-separated list such as "2k,x3,20k,x2".
 *
 * Sizes are written and read by the size type of the surrounding program,
 * which is not part of this model: its parser and printer are parameters
 * (`SizeParser`, `SizePrinter`).
 */
module MultiplierLists {
  import opened Wrappers
  import opened Int64
  import opened Text

  /** Parses one size with its unit suffix ("2k", "10M"); None is a parse error. */
  type SizeParser = string -> Option<int>

  /** Prints one size with its unit suffix. */
  type SizePrinter = int -> string

  /** Two parallel slices: the anchors and, for each anchor, its multiplier (0 = none). */
  datatype MultiplierList = MultiplierList(anchors: seq<int>, multipliers: seq<int>)

  /** What the parser produces: positive anchors, each multiplier 0 or an int64 of at least 2. */
  predicate WellFormed(l: MultiplierList) {
    |l.anchors| == |l.multipliers| &&
    (forall i | 0 <= i < |l.anchors| :: l.anchors[i] > 0) &&
    (forall i | 0 <= i < |l.multipliers| :: l.multipliers[i] == 0 || 2 <= l.multipliers[i] <= MaxInt64)
  }

  datatype ParseError =
    | EmptySegment
    | MultiplierAtFirstPosition
    | MultipleMultipliersInARow
    | InvalidMultiplier(text: string)
    | MultiplierTooSmall(text: string)
    | InvalidSize(text: string)

  /** The result of parsing, with every rejected input reported as an error. */
  datatype ParseResult = Ok(list: MultiplierList) | Err(error: ParseError)

  /**
   * What `ParseMultiplierListParts` returns as written: a list, an error, or
   * (for a multiplier below 2) neither a list nor an error.
   */
  datatype ParseOutcome = Parsed(list: MultiplierList) | Failed(error: ParseError) | NilNoError

  // ---------------------------------------------------------------------------
  // Parsing

  /** The effect of one trimmed segment on the lists built so far. */
  function ScanSegment(p: string, acc: MultiplierList, parseSize: SizeParser): (r: ParseResult)
    requires |acc.anchors| == |acc.multipliers|
    ensures r.Ok? ==> |r.list.anchors| == |r.list.multipliers|
  {
    if p == "" then Err(EmptySegment)
    else if p[0] == 'x' then
      var digits := p[1..];
      var n := |acc.multipliers|;
      if n == 0 then Err(MultiplierAtFirstPosition)
      else if acc.multipliers[n - 1] != 0 then Err(MultipleMultipliersInARow)
      else match ParseInt10(digits)
        case None => Err(InvalidMultiplier(digits))
        case Some(i) =>
          if i < 2 then Err(MultiplierTooSmall(digits))
          else Ok(acc.(multipliers := acc.multipliers[n - 1 := i]))
    else match parseSize(p)
      case None => Err(InvalidSize(p))
      case Some(size) =>
        if size <= 0 then Err(InvalidSize(p))
        else Ok(MultiplierList(acc.anchors + [size], acc.multipliers + [0]))
  }

  /** The parsing loop from the given segments on, starting from the lists built so far. */
  function ScanFrom(parts: seq<string>, parseSize: SizeParser, acc: MultiplierList): (r: ParseResult)
    requires |acc.anchors| == |acc.multipliers|
    ensures r.Ok? ==> |r.list.anchors| == |r.list.multipliers|
    decreases |parts|
  {
    if |parts| == 0 then Ok(acc)
    else match ScanSegment(TrimSpace(parts[0]), acc, parseSize)
      case Err(e) => Err(e)
      case Ok(next) => ScanFrom(parts[1..], parseSize, next)
  }

  /** Parsing of comma-separated segments, every rejection reported as an error. */
  function ParseParts(parts: seq<string>, parseSize: SizeParser): (r: ParseResult)
    ensures r.Ok? ==> WellFormed(r.list)
  {
    var empty := MultiplierList([], []);
    var r := ScanFrom(parts, parseSize, empty);
    if r.Ok? then ScanKeepsWellFormed(parts, parseSize, empty); r else r
  }

  /** How the source reports a parse: a multiplier below 2 wraps a nil error, which is nil. */
  function AsWritten(r: ParseResult): (o: ParseOutcome)
    ensures o.Parsed? <==> r.Ok?
    ensures r.Ok? ==> o.list == r.list
    ensures o.NilNoError? <==> r.Err? && r.error.MultiplierTooSmall?
  {
    match r
    case Ok(l) => Parsed(l)
    case Err(MultiplierTooSmall(_)) => NilNoError
    case Err(e) => Failed(e)
  }

  /** `ParseMultiplierListParts`, the loop as written. */
  method ParseMultiplierListParts(parts: seq<string>, parseSize: SizeParser) returns (r: ParseOutcome)
    ensures r == AsWritten(ParseParts(parts, parseSize))
  {
    var anchors: seq<int> := [];
    var multipliers: seq<int> := [];
    for k := 0 to |parts|
      invariant |anchors| == |multipliers|
      invariant ScanFrom(parts[k..], parseSize, MultiplierList(anchors, multipliers)) == ParseParts(parts, parseSize)
    {
      assert parts[k..][1..] == parts[k + 1..];
      var p := TrimSpace(parts[k]);
      if p == "" {
        return Failed(EmptySegment);
      }
      var mul := false;
      if p[0] == 'x' {
        p := p[1..];
        mul := true;
      }
      if mul {
        if |multipliers| == 0 {
          return Failed(MultiplierAtFirstPosition);
        }
        if multipliers[|multipliers| - 1] != 0 {
          return Failed(MultipleMultipliersInARow);
        }
        var i := ParseInt10(p);
        if i.None? {
          return Failed(InvalidMultiplier(p));
        }
        if i.value < 2 {
          // errors.Wrapf of a nil error is nil: no list and no error
          return NilNoError;
        }
        multipliers := multipliers[|multipliers| - 1 := i.value];
      } else {
        var size := parseSize(p);
        if size.None? {
          return Failed(InvalidSize(p));
        }
        if size.value <= 0 {
          return Failed(InvalidSize(p));
        }
        anchors := anchors + [size.value];
        multipliers := multipliers + [0];
      }
    }
    return Parsed(MultiplierList(anchors, multipliers));
  }

  /** `ParseMultiplierList`: split the text on commas and parse the segments. */
  method ParseMultiplierList(s: string, parseSize: SizeParser) returns (r: ParseOutcome)
    ensures r == AsWritten(ParseParts(Split(s), parseSize))
  {
    r := ParseMultiplierListParts(Split(s), parseSize);
  }

  /**
   * `Set`, with the parse that reports a multiplier below 2 as an error: the
   * list is replaced by the parsed one, or kept when parsing fails.
   */
  function Set(current: MultiplierList, s: string, parseSize: SizeParser): (r: (MultiplierList, Option<ParseError>))
    ensures r.1.Some? ==> r.0 == current && ParseParts(Split(s), parseSize) == Err(r.1.value)
    ensures r.1.None? ==> WellFormed(r.0) && ParseParts(Split(s), parseSize) == Ok(r.0)
  {
    match ParseParts(Split(s), parseSize)
    case Err(e) => (current, Some(e))
    case Ok(l) => (l, None)
  }

  // ---------------------------------------------------------------------------
  // Properties of the parser

  /** Running the loop over a prefix and then over the rest is running it over the whole. */
  lemma {:induction false} ScanFromSplitAt(parts: seq<string>, parseSize: SizeParser, acc: MultiplierList, k: nat)
    requires |acc.anchors| == |acc.multipliers|
    requires k <= |parts|
    ensures ScanFrom(parts, parseSize, acc) ==
      match ScanFrom(parts[..k], parseSize, acc)
      case Err(e) => Err(e)
      case Ok(mid) => ScanFrom(parts[k..], parseSize, mid)
    decreases k
  {
    if k == 0 {
      assert parts[k..] == parts;
    } else {
      assert parts[..k][1..] == parts[1..][..k - 1];
      assert parts[1..][k - 1..] == parts[k..];
      match ScanSegment(TrimSpace(parts[0]), acc, parseSize)
      case Err(e) =>
      case Ok(next) =>
        ScanFromSplitAt(parts[1..], parseSize, next, k - 1);
    }
  }

  /** A successful scan accepted its first segment and went on from there. */
  lemma ScanFromFirst(parts: seq<string>, parseSize: SizeParser, acc: MultiplierList)
    requires |acc.anchors| == |acc.multipliers| && |parts| > 0
    requires ScanFrom(parts, parseSize, acc).Ok?
    ensures ScanSegment(TrimSpace(parts[0]), acc, parseSize).Ok?
    ensures ScanFrom(parts, parseSize, acc) ==
            ScanFrom(parts[1..], parseSize, ScanSegment(TrimSpace(parts[0]), acc, parseSize).list)
  {
  }

  /** The anchor a trimmed segment contributes: its size when it is a size segment that parses. */
  function SegmentAnchor(p: string, parseSize: SizeParser): seq<int> {
    if p != "" && p[0] != 'x' && parseSize(p).Some? then [parseSize(p).value] else []
  }

  /** The sizes of the size segments, in input order (meaningful when they all parse). */
  function AnchorSizes(parts: seq<string>, parseSize: SizeParser): seq<int>
    decreases |parts|
  {
    if |parts| == 0 then []
    else SegmentAnchor(TrimSpace(parts[0]), parseSize) + AnchorSizes(parts[1..], parseSize)
  }

  /** One accepted segment appends its anchor, if it has one. */
  lemma ScanSegmentAnchors(p: string, parseSize: SizeParser, acc: MultiplierList)
    requires |acc.anchors| == |acc.multipliers|
    requires ScanSegment(p, acc, parseSize).Ok?
    ensures ScanSegment(p, acc, parseSize).list.anchors == acc.anchors + SegmentAnchor(p, parseSize)
  {
    var r := ScanSegment(p, acc, parseSize).list;
    if p[0] == 'x' {
      assert r.anchors == acc.anchors;
    } else {
      assert r.anchors == acc.anchors + [parseSize(p).value];
    }
  }

  /** One accepted segment keeps the lists well formed and appends its anchor, if it has one. */
  lemma ScanSegmentKeepsWellFormed(p: string, parseSize: SizeParser, acc: MultiplierList)
    requires WellFormed(acc)
    requires ScanSegment(p, acc, parseSize).Ok?
    ensures WellFormed(ScanSegment(p, acc, parseSize).list)
    ensures ScanSegment(p, acc, parseSize).list.anchors == acc.anchors + SegmentAnchor(p, parseSize)
  {
    ScanSegmentAnchors(p, parseSize, acc);
  }

  /**
   * A successful parse is well formed and its anchors are exactly the sizes
   * of the size segments, in input order.
   */
  lemma {:induction false} ScanKeepsWellFormed(parts: seq<string>, parseSize: SizeParser, acc: MultiplierList)
    requires WellFormed(acc)
    requires ScanFrom(parts, parseSize, acc).Ok?
    ensures WellFormed(ScanFrom(parts, parseSize, acc).list)
    decreases |parts|
  {
    if |parts| > 0 {
      var p := TrimSpace(parts[0]);
      ScanSegmentKeepsWellFormed(p, parseSize, acc);
      var next := ScanSegment(p, acc, parseSize).list;
      assert ScanFrom(parts, parseSize, acc) == ScanFrom(parts[1..], parseSize, next);
      ScanKeepsWellFormed(parts[1..], parseSize, next);
    }
  }

  /** The anchors of a successful parse are the sizes of its size segments, in input order. */
  lemma {:induction false} ScanKeepsAnchorOrder(parts: seq<string>, parseSize: SizeParser, acc: MultiplierList)
    requires |acc.anchors| == |acc.multipliers|
    requires ScanFrom(parts, parseSize, acc).Ok?
    ensures ScanFrom(parts, parseSize, acc).list.anchors == acc.anchors + AnchorSizes(parts, parseSize)
    decreases |parts|
  {
    if |parts| > 0 {
      var p := TrimSpace(parts[0]);
      var a, b, c := acc.anchors, SegmentAnchor(p, parseSize), AnchorSizes(parts[1..], parseSize);
      ScanFromFirst(parts, parseSize, acc);
      var next := ScanSegment(p, acc, parseSize).list;
      assert |next.anchors| == |next.multipliers| && next.anchors == a + b by {
        ScanSegmentAnchors(p, parseSize, acc);
      }
      assert ScanFrom(parts[1..], parseSize, next).list.anchors == (a + b) + c by {
        ScanKeepsAnchorOrder(parts[1..], parseSize, next);
      }
      assert AnchorSizes(parts, parseSize) == b + c;
      assert (a + b) + c == a + (b + c);
    }
  }

  /** A segment that is rejected whatever came before it. */
  predicate AlwaysRejected(p: string, parseSize: SizeParser) {
    p == "" ||
    (p[0] == 'x' && (ParseInt10(p[1..]).None? || ParseInt10(p[1..]).value < 2)) ||
    (p[0] != 'x' && (parseSize(p).None? || parseSize(p).value <= 0))
  }

  /**
   * An empty segment, an unparsable or too small multiplier, or an unparsable
   * or non-positive size anywhere in the input makes the whole parse fail.
   */
  lemma RejectedSegmentFailsParse(parts: seq<string>, parseSize: SizeParser, k: nat)
    requires k < |parts| && AlwaysRejected(TrimSpace(parts[k]), parseSize)
    ensures ParseParts(parts, parseSize).Err?
    ensures !AsWritten(ParseParts(parts, parseSize)).Parsed?
  {
    var empty := MultiplierList([], []);
    ScanFromSplitAt(parts, parseSize, empty, k);
    match ScanFrom(parts[..k], parseSize, empty)
    case Err(_) =>
    case Ok(mid) =>
      assert parts[k..][0] == parts[k];
  }

  /** A multiplier segment first in the input is rejected. */
  lemma MultiplierFirstFails(parts: seq<string>, parseSize: SizeParser)
    requires |parts| > 0
    requires var p := TrimSpace(parts[0]); p != "" && p[0] == 'x'
    ensures ParseParts(parts, parseSize) == Err(MultiplierAtFirstPosition)
  {
  }

  /** Two multiplier segments in a row anywhere in the input make the parse fail. */
  lemma ConsecutiveMultipliersFail(parts: seq<string>, parseSize: SizeParser, k: nat)
    requires k + 1 < |parts|
    requires var p := TrimSpace(parts[k]); p != "" && p[0] == 'x'
    requires var q := TrimSpace(parts[k + 1]); q != "" && q[0] == 'x'
    ensures ParseParts(parts, parseSize).Err?
  {
    var empty := MultiplierList([], []);
    ScanFromSplitAt(parts, parseSize, empty, k);
    var pre := ScanFrom(parts[..k], parseSize, empty);
    if pre.Ok? {
      var rest := parts[k..];
      assert rest[0] == parts[k] && rest[1..][0] == parts[k + 1];
      var seg := ScanSegment(TrimSpace(parts[k]), pre.list, parseSize);
      if seg.Ok? {
        assert ScanFrom(rest, parseSize, pre.list) == ScanFrom(rest[1..], parseSize, seg.list);
        MultiplierSegmentThenMultiplier(TrimSpace(parts[k]), TrimSpace(parts[k + 1]), pre.list, parseSize);
        assert ScanFrom(rest[1..], parseSize, seg.list).Err?;
      }
    }
  }

  /** After an accepted multiplier segment, another multiplier segment is rejected. */
  lemma MultiplierSegmentThenMultiplier(p: string, q: string, acc: MultiplierList, parseSize: SizeParser)
    requires |acc.anchors| == |acc.multipliers|
    requires p != "" && p[0] == 'x' && q != "" && q[0] == 'x'
    requires ScanSegment(p, acc, parseSize).Ok?
    ensures ScanSegment(q, ScanSegment(p, acc, parseSize).list, parseSize) == Err(MultipleMultipliersInARow)
  {
    var next := ScanSegment(p, acc, parseSize).list;
    assert next.multipliers[|next.multipliers| - 1] >= 2;
  }

  // ---------------------------------------------------------------------------
  // Printing

  /** The segments one anchor prints: the size, then ",xN" when its multiplier is above 1. */
  function EntrySegments(anchor: int, multiplier: int, printSize: SizePrinter): (r: seq<string>)
    ensures 1 <= |r| <= 2 && r[0] == printSize(anchor)
    ensures |r| == 2 <==> multiplier > 1
  {
    [printSize(anchor)] + (if multiplier > 1 then ["x" + Decimal(multiplier)] else [])
  }

  /** The segments of the whole list, anchor by anchor in order. */
  function FormatSegments(l: MultiplierList, printSize: SizePrinter): (r: seq<string>)
    requires |l.anchors| == |l.multipliers|
    ensures |r| >= |l.anchors|
    decreases |l.anchors|
  {
    if |l.anchors| == 0 then []
    else EntrySegments(l.anchors[0], l.multipliers[0], printSize) + FormatSegments(Rest(l), printSize)
  }

  /** The list without its first entry. */
  function Rest(l: MultiplierList): (r: MultiplierList)
    requires |l.anchors| == |l.multipliers| && |l.anchors| > 0
    ensures |r.anchors| == |r.multipliers| == |l.anchors| - 1
  {
    MultiplierList(l.anchors[1..], l.multipliers[1..])
  }

  /** The first k entries of a list. */
  function Prefix(l: MultiplierList, k: nat): (r: MultiplierList)
    requires |l.anchors| == |l.multipliers| && k <= |l.anchors|
    ensures |r.anchors| == |r.multipliers| == k
  {
    MultiplierList(l.anchors[..k], l.multipliers[..k])
  }

  /** The segments of the first i + 1 entries are those of the first i, then those of entry i. */
  lemma {:induction false} FormatSegmentsSnoc(l: MultiplierList, printSize: SizePrinter, i: nat)
    requires |l.anchors| == |l.multipliers| && i < |l.anchors|
    ensures FormatSegments(Prefix(l, i + 1), printSize)
         == FormatSegments(Prefix(l, i), printSize) + EntrySegments(l.anchors[i], l.multipliers[i], printSize)
    decreases i
  {
    var last := EntrySegments(l.anchors[i], l.multipliers[i], printSize);
    var first := EntrySegments(l.anchors[0], l.multipliers[0], printSize);
    if i == 0 {
      assert Rest(Prefix(l, 1)) == MultiplierList([], []);
      assert Prefix(l, 0) == MultiplierList([], []);
    } else {
      var r := Rest(l);
      assert Rest(Prefix(l, i + 1)) == Prefix(r, i);
      assert Rest(Prefix(l, i)) == Prefix(r, i - 1);
      assert r.anchors[i - 1] == l.anchors[i] && r.multipliers[i - 1] == l.multipliers[i];
      FormatSegmentsSnoc(r, printSize, i - 1);
      var a, b := FormatSegments(Prefix(r, i - 1), printSize), last;
      assert FormatSegments(Prefix(l, i + 1), printSize) == first + (a + b);
      assert FormatSegments(Prefix(l, i), printSize) == first + a;
      assert first + (a + b) == (first + a) + b;
    }
  }

  /** `String`: the buffer filled anchor by anchor. */
  method String(l: MultiplierList, printSize: SizePrinter) returns (s: string)
    requires |l.anchors| == |l.multipliers|
    ensures s == Join(FormatSegments(l, printSize))
  {
    var buf := "";
    for i := 0 to |l.anchors|
      invariant buf == Join(FormatSegments(Prefix(l, i), printSize))
    {
      var before := buf;
      if i != 0 {
        buf := buf + ",";
      }
      buf := buf + printSize(l.anchors[i]);
      var m := l.multipliers[i];
      if m > 1 {
        buf := buf + ",x" + Decimal(m);
      }
      FormatStep(l, printSize, i, before, buf);
    }
    assert Prefix(l, |l.anchors|) == l;
    s := buf;
  }

  /** The text of one entry: the size, then ",xN" when its multiplier is above 1. */
  lemma JoinEntry(anchor: int, multiplier: int, printSize: SizePrinter)
    ensures Join(EntrySegments(anchor, multiplier, printSize))
         == printSize(anchor) + (if multiplier > 1 then ",x" + Decimal(multiplier) else "")
  {
    var e := EntrySegments(anchor, multiplier, printSize);
    if multiplier > 1 {
      assert e[1..] == ["x" + Decimal(multiplier)];
      assert Join(e) == printSize(anchor) + "," + ("x" + Decimal(multiplier));
    }
  }

  /** One iteration of the `String` loop appends the text of entry i. */
  lemma FormatStep(l: MultiplierList, printSize: SizePrinter, i: nat, before: string, after: string)
    requires |l.anchors| == |l.multipliers| && i < |l.anchors|
    requires before == Join(FormatSegments(Prefix(l, i), printSize))
    requires after == (if i != 0 then before + "," else before) + printSize(l.anchors[i])
                      + (if l.multipliers[i] > 1 then ",x" + Decimal(l.multipliers[i]) else "")
    ensures after == Join(FormatSegments(Prefix(l, i + 1), printSize))
  {
    var entry := EntrySegments(l.anchors[i], l.multipliers[i], printSize);
    var front := FormatSegments(Prefix(l, i), printSize);
    var head := if i != 0 then before + "," else before;
    var size := printSize(l.anchors[i]);
    var mult := if l.multipliers[i] > 1 then ",x" + Decimal(l.multipliers[i]) else "";
    assert Join(entry) == size + mult by {
      JoinEntry(l.anchors[i], l.multipliers[i], printSize);
    }
    assert FormatSegments(Prefix(l, i + 1), printSize) == front + entry by {
      FormatSegmentsSnoc(l, printSize, i);
    }
    assert after == head + (size + mult);
    if i != 0 {
      assert Join(front + entry) == before + "," + Join(entry) by {
        JoinAppend(front, entry);
      }
    } else {
      assert front + entry == entry;
    }
  }

  /**
   * What the round trip assumes of the size printer for one anchor: the
   * printed text is non-empty, has no comma, does not start with 'x', is not
   * surrounded by white space, and parses back to the anchor.
   */
  predicate PrintsBack(parseSize: SizeParser, printSize: SizePrinter, anchor: int) {
    var t := printSize(anchor);
    |t| > 0 && t[0] != 'x' && !IsSpace(t[0]) && !IsSpace(t[|t| - 1]) && ',' !in t &&
    parseSize(t) == Some(anchor)
  }

  /**
   * Parsing the text `String` prints gives back the same anchors and
   * multipliers, for any non-empty well-formed list whose anchors the size
   * printer and parser round-trip.
   */
  lemma PrintThenParse(l: MultiplierList, parseSize: SizeParser, printSize: SizePrinter)
    requires WellFormed(l) && |l.anchors| > 0
    requires forall i | 0 <= i < |l.anchors| :: PrintsBack(parseSize, printSize, l.anchors[i])
    ensures ParseParts(Split(Join(FormatSegments(l, printSize))), parseSize) == Ok(l)
  {
    var segs := FormatSegments(l, printSize);
    var empty := MultiplierList([], []);
    assert Split(Join(segs)) == segs by {
      SegmentsHaveNoComma(l, printSize);
      SplitJoin(segs);
    }
    ScanFormatted(l, parseSize, printSize, empty);
    assert empty.anchors + l.anchors == l.anchors && empty.multipliers + l.multipliers == l.multipliers;
  }

  lemma {:induction false} SegmentsHaveNoComma(l: MultiplierList, printSize: SizePrinter)
    requires |l.anchors| == |l.multipliers|
    requires forall i | 0 <= i < |l.anchors| :: ',' !in printSize(l.anchors[i])
    ensures forall j | 0 <= j < |FormatSegments(l, printSize)| :: ',' !in FormatSegments(l, printSize)[j]
    decreases |l.anchors|
  {
    if |l.anchors| > 0 {
      var r := Rest(l);
      assert forall i | 0 <= i < |r.anchors| :: r.anchors[i] == l.anchors[i + 1];
      SegmentsHaveNoComma(r, printSize);
      var m := l.multipliers[0];
      if m > 1 {
        DigitsHaveNoSpaceOrComma(Decimal(m));
        assert ',' !in "x" + Decimal(m);
      }
    }
  }

  /** Scanning the segments of a list after `acc` appends exactly that list's entries. */
  lemma {:induction false} ScanFormatted(l: MultiplierList, parseSize: SizeParser, printSize: SizePrinter, acc: MultiplierList)
    requires WellFormed(l) && |acc.anchors| == |acc.multipliers|
    requires forall i | 0 <= i < |l.anchors| :: PrintsBack(parseSize, printSize, l.anchors[i])
    ensures ScanFrom(FormatSegments(l, printSize), parseSize, acc)
         == Ok(MultiplierList(acc.anchors + l.anchors, acc.multipliers + l.multipliers))
    decreases |l.anchors|
  {
    if |l.anchors| == 0 {
      assert acc.anchors + l.anchors == acc.anchors && acc.multipliers + l.multipliers == acc.multipliers;
    } else {
      var a, m := l.anchors[0], l.multipliers[0];
      var r := Rest(l);
      var rest := FormatSegments(r, printSize);
      var next := MultiplierList(acc.anchors + [a], acc.multipliers + [m]);
      ScanFormattedFirst(l, parseSize, printSize, acc);
      assert ScanFrom(rest, parseSize, next) == Ok(MultiplierList(next.anchors + r.anchors, next.multipliers + r.multipliers)) by {
        assert forall i | 0 <= i < |r.anchors| :: r.anchors[i] == l.anchors[i + 1];
        ScanFormatted(r, parseSize, printSize, next);
      }
      AppendFirst(acc.anchors, l.anchors);
      AppendFirst(acc.multipliers, l.multipliers);
    }
  }

  /** Scanning the segments of a list starts by appending its first entry. */
  lemma ScanFormattedFirst(l: MultiplierList, parseSize: SizeParser, printSize: SizePrinter, acc: MultiplierList)
    requires WellFormed(l) && |l.anchors| > 0 && |acc.anchors| == |acc.multipliers|
    requires PrintsBack(parseSize, printSize, l.anchors[0])
    ensures ScanFrom(FormatSegments(l, printSize), parseSize, acc)
         == ScanFrom(FormatSegments(Rest(l), printSize), parseSize,
                     MultiplierList(acc.anchors + [l.anchors[0]], acc.multipliers + [l.multipliers[0]]))
  {
    var entry := EntrySegments(l.anchors[0], l.multipliers[0], printSize);
    var rest := FormatSegments(Rest(l), printSize);
    var all := entry + rest;
    assert FormatSegments(l, printSize) == all;
    ScanFromSplitAt(all, parseSize, acc, |entry|);
    assert all[..|entry|] == entry && all[|entry|..] == rest;
    ScanEntry(acc, l.anchors[0], l.multipliers[0], parseSize, printSize);
  }

  lemma AppendFirst(x: seq<int>, y: seq<int>)
    requires |y| > 0
    ensures (x + [y[0]]) + y[1..] == x + y
  {
    assert y == [y[0]] + y[1..];
  }

  /** Scanning the segments of one entry appends that entry. */
  lemma ScanEntry(acc: MultiplierList, anchor: int, multiplier: int, parseSize: SizeParser, printSize: SizePrinter)
    requires |acc.anchors| == |acc.multipliers|
    requires anchor > 0 && (multiplier == 0 || 2 <= multiplier <= MaxInt64)
    requires PrintsBack(parseSize, printSize, anchor)
    ensures ScanFrom(EntrySegments(anchor, multiplier, printSize), parseSize, acc)
         == Ok(MultiplierList(acc.anchors + [anchor], acc.multipliers + [multiplier]))
  {
    var t := printSize(anchor);
    var added := MultiplierList(acc.anchors + [anchor], acc.multipliers + [0]);
    var segs := EntrySegments(anchor, multiplier, printSize);
    assert ScanSegment(TrimSpace(segs[0]), acc, parseSize) == Ok(added) by {
      TrimSpaceKeepsTrimmed(t);
    }
    assert ScanFrom(segs, parseSize, acc) == ScanFrom(segs[1..], parseSize, added);
    if multiplier > 1 {
      var x := "x" + Decimal(multiplier);
      assert segs[1..] == [x];
      var done := MultiplierList(acc.anchors + [anchor], acc.multipliers + [multiplier]);
      assert ScanSegment(TrimSpace(x), added, parseSize) == Ok(done) by {
        ScanMultiplierSegment(added, multiplier, parseSize);
        assert added.multipliers[|added.multipliers| - 1 := multiplier] == acc.multipliers + [multiplier];
      }
      assert ScanFrom([x], parseSize, added) == ScanFrom([x][1..], parseSize, done);
      assert [x][1..] == [];
    } else {
      assert segs[1..] == [];
    }
  }

  /** The segment "xN" that `String` prints for a multiplier N of at least 2 is read back as N. */
  lemma ScanMultiplierSegment(acc: MultiplierList, multiplier: int, parseSize: SizeParser)
    requires |acc.anchors| == |acc.multipliers| && |acc.multipliers| > 0
    requires acc.multipliers[|acc.multipliers| - 1] == 0
    requires 2 <= multiplier <= MaxInt64
    ensures ScanSegment(TrimSpace("x" + Decimal(multiplier)), acc, parseSize)
         == Ok(acc.(multipliers := acc.multipliers[|acc.multipliers| - 1 := multiplier]))
  {
    var d := Decimal(multiplier);
    var x := "x" + d;
    assert TrimSpace(x) == x by {
      DigitsHaveNoSpaceOrComma(d);
      assert x[|x| - 1] == d[|d| - 1];
      TrimSpaceKeepsTrimmed(x);
    }
    assert x[1..] == d;
    assert ParseInt10(d) == Some(multiplier) by {
      DecimalRoundTrip(multiplier);
    }
  }

  // ---------------------------------------------------------------------------
  // The iterator over a list

  /** `Empty`: the list has no anchors. */
  function Empty(l: MultiplierList): (r: bool)
    ensures r <==> |l.anchors| == 0
  {
    |l.anchors| == 0
  }

  /** The moving part of a multiplierListIter: the anchor index and the last size yielded. */
  datatype ListCursor = ListCursor(sliceIdx: int, lastVal: int)

  predicate CursorValid(l: MultiplierList, c: ListCursor) {
    |l.anchors| == |l.multipliers| && 0 <= c.sliceIdx
  }

  /**
   * One `NextChunkSize` call: the size yielded and the new cursor. The
   * products wrap around as Go's int64 arithmetic does.
   */
  function ListNext(l: MultiplierList, c: ListCursor): (r: (int, ListCursor))
    requires CursorValid(l, c)
    ensures CursorValid(l, r.1)
    ensures |l.anchors| == 0 ==> r == (-1, c)
    ensures |l.anchors| > 0 ==> r.0 == r.1.lastVal
    ensures |l.anchors| > 0 && c == ListCursor(0, 0) ==> r == (l.anchors[0], ListCursor(0, l.anchors[0]))
  {
    var n := |l.anchors|;
    if n == 0 then (-1, c)
    else if c.sliceIdx >= n then
      var m := l.multipliers[n - 1];
      var v := if m > 1 then Wrap64(c.lastVal * m) else c.lastVal;
      (v, c.(lastVal := v))
    else if c.lastVal == 0 then
      (l.anchors[0], c.(lastVal := l.anchors[0]))
    else
      var m := l.multipliers[c.sliceIdx];
      if m <= 1 then
        var i := c.sliceIdx + 1;
        var v := if i < n then l.anchors[i] else c.lastVal;
        (v, ListCursor(i, v))
      else
        var v := Wrap64(c.lastVal * m);
        if c.sliceIdx + 1 < n && v >= l.anchors[c.sliceIdx + 1] then
          (l.anchors[c.sliceIdx + 1], ListCursor(c.sliceIdx + 1, l.anchors[c.sliceIdx + 1]))
        else (v, c.(lastVal := v))
  }

  /** The cursor after k calls. */
  function ListAfter(l: MultiplierList, c: ListCursor, k: nat): (r: ListCursor)
    requires CursorValid(l, c)
    ensures CursorValid(l, r)
    decreases k
  {
    if k == 0 then c else ListNext(l, ListAfter(l, c, k - 1)).1
  }

  /** The first k sizes yielded from cursor c. */
  function ListSizes(l: MultiplierList, c: ListCursor, k: nat): (r: seq<int>)
    requires CursorValid(l, c)
    ensures |r| == k
    decreases k
  {
    if k == 0 then [] else ListSizes(l, c, k - 1) + [ListNext(l, ListAfter(l, c, k - 1)).0]
  }

  /**
   * The cursors reachable from a fresh or reset iterator (as long as no
   * product overflows): past the last anchor only when that anchor has no
   * multiplier, and then holding that anchor; otherwise holding at least the
   * current anchor, and exactly it when the anchor has no multiplier.
   */
  predicate Reached(l: MultiplierList, c: ListCursor)
    requires WellFormed(l)
  {
    var n := |l.anchors|;
    0 <= c.sliceIdx <= n && c.lastVal >= 0 &&
    (c.lastVal == 0 ==> c.sliceIdx == 0) &&
    (c.sliceIdx == n && n > 0 ==> l.multipliers[n - 1] <= 1 && c.lastVal == l.anchors[n - 1]) &&
    (c.sliceIdx < n && c.lastVal != 0 ==> c.lastVal >= l.anchors[c.sliceIdx]) &&
    (c.sliceIdx < n && c.lastVal != 0 && l.multipliers[c.sliceIdx] <= 1 ==> c.lastVal == l.anchors[c.sliceIdx])
  }

  /** The product the next call would compute does not overflow int64. */
  predicate NoOverflow(l: MultiplierList, c: ListCursor)
    requires WellFormed(l) && 0 <= c.sliceIdx
  {
    var n := |l.anchors|;
    var m := if c.sliceIdx < n then l.multipliers[c.sliceIdx] else if n > 0 then l.multipliers[n - 1] else 0;
    c.lastVal * m <= MaxInt64
  }

  /** Every call from a reached cursor yields a positive size and reaches a cursor again. */
  lemma ListNextKeepsReached(l: MultiplierList, c: ListCursor)
    requires WellFormed(l) && |l.anchors| > 0 && Reached(l, c) && NoOverflow(l, c)
    ensures Reached(l, ListNext(l, c).1)
    ensures ListNext(l, c).0 > 0
  {
    var n := |l.anchors|;
    if c.sliceIdx >= n {
      assert ListNext(l, c) == (l.anchors[n - 1], c);
    } else if c.lastVal == 0 {
      assert ListNext(l, c) == (l.anchors[0], ListCursor(0, l.anchors[0]));
    } else if l.multipliers[c.sliceIdx] <= 1 {
      var i := c.sliceIdx + 1;
      if i < n {
        assert ListNext(l, c) == (l.anchors[i], ListCursor(i, l.anchors[i]));
      } else {
        assert ListNext(l, c) == (c.lastVal, ListCursor(i, c.lastVal));
      }
    } else {
      var m := l.multipliers[c.sliceIdx];
      ProductGrows(c.lastVal, m);
      assert Wrap64(c.lastVal * m) == c.lastVal * m;
    }
  }

  /** Scaling a positive size by a multiplier of at least 2 at least doubles it. */
  lemma ProductGrows(v: int, m: int)
    requires v > 0 && m >= 2
    ensures v * m >= 2 * v
  {
  }

  /** Once past the last anchor the iterator repeats that anchor forever: the multiply branch there is never taken. */
  lemma PastLastAnchorRepeats(l: MultiplierList, c: ListCursor)
    requires WellFormed(l) && Reached(l, c) && |l.anchors| > 0 && c.sliceIdx >= |l.anchors|
    ensures ListNext(l, c) == (l.anchors[|l.anchors| - 1], c)
  {
  }

  /** Multiplying towards the next anchor never passes it, and lands on it exactly when the cursor advances. */
  lemma MultiplyStopsAtNextAnchor(l: MultiplierList, c: ListCursor)
    requires CursorValid(l, c) && c.sliceIdx + 1 < |l.anchors| && c.lastVal != 0
    requires l.multipliers[c.sliceIdx] >= 2
    ensures ListNext(l, c).0 <= l.anchors[c.sliceIdx + 1]
    ensures ListNext(l, c).0 == l.anchors[c.sliceIdx + 1] <==> ListNext(l, c).1.sliceIdx == c.sliceIdx + 1
    ensures ListNext(l, c).1.sliceIdx == c.sliceIdx + 1 ==> Wrap64(c.lastVal * l.multipliers[c.sliceIdx]) >= l.anchors[c.sliceIdx + 1]
  {
  }

  /** An anchor without a multiplier is followed directly by the next anchor. */
  lemma NoMultiplierJumpsToNextAnchor(l: MultiplierList, c: ListCursor)
    requires CursorValid(l, c) && c.sliceIdx + 1 < |l.anchors| && c.lastVal != 0
    requires l.multipliers[c.sliceIdx] <= 1
    ensures ListNext(l, c) == (l.anchors[c.sliceIdx + 1], ListCursor(c.sliceIdx + 1, l.anchors[c.sliceIdx + 1]))
  {
  }

  /** On the last anchor a multiplier keeps scaling the size on every call. */
  lemma LastAnchorMultipliesForever(l: MultiplierList, c: ListCursor)
    requires CursorValid(l, c) && |l.anchors| > 0 && c.sliceIdx == |l.anchors| - 1 && c.lastVal != 0
    requires l.multipliers[c.sliceIdx] >= 2
    ensures ListNext(l, c).0 == Wrap64(c.lastVal * l.multipliers[c.sliceIdx])
    ensures ListNext(l, c).1.sliceIdx == c.sliceIdx
  {
  }

  /** A list is empty exactly when its iterator turns chunking off from the first call. */
  lemma EmptyIffDisabled(l: MultiplierList)
    requires WellFormed(l)
    ensures Empty(l) <==> ListNext(l, ListCursor(0, 0)).0 == -1
  {
    if |l.anchors| > 0 {
      assert l.anchors[0] > 0;
    }
  }

  /** One more step of ListAfter and ListSizes, against an expected list of sizes. */
  lemma SizesStep(l: MultiplierList, c0: ListCursor, k: nat, ck: ListCursor, sizes: seq<int>)
    requires CursorValid(l, c0) && k < |sizes|
    requires ListAfter(l, c0, k) == ck && ListSizes(l, c0, k) == sizes[..k]
    requires ListNext(l, ck).0 == sizes[k]
    ensures ListAfter(l, c0, k + 1) == ListNext(l, ck).1
    ensures ListSizes(l, c0, k + 1) == sizes[..k + 1]
  {
    assert sizes[..k + 1] == sizes[..k] + [sizes[k]];
  }

  /** The first five sizes, given the first five steps. */
  lemma FiveSizes(l: MultiplierList, c0: ListCursor, c1: ListCursor, c2: ListCursor, c3: ListCursor, c4: ListCursor, sizes: seq<int>)
    requires CursorValid(l, c0) && |sizes| == 5
    requires ListNext(l, c0) == (sizes[0], c1) && ListNext(l, c1) == (sizes[1], c2)
    requires ListNext(l, c2) == (sizes[2], c3) && ListNext(l, c3) == (sizes[3], c4)
    requires ListNext(l, c4).0 == sizes[4]
    ensures ListSizes(l, c0, 5) == sizes
  {
    SizesStep(l, c0, 0, c0, sizes);
    SizesStep(l, c0, 1, c1, sizes);
    SizesStep(l, c0, 2, c2, sizes);
    SizesStep(l, c0, 3, c3, sizes);
    SizesStep(l, c0, 4, c4, sizes);
    assert sizes[..5] == sizes;
  }

  /** The schedule "2M,10M,50M,200M" yields 2M, 10M, 50M, 200M, 200M. */
  lemma AnchorsOnlyExample(l: MultiplierList)
    requires l == MultiplierList([2 * 0x10_0000, 10 * 0x10_0000, 50 * 0x10_0000, 200 * 0x10_0000], [0, 0, 0, 0])
    ensures ListSizes(l, ListCursor(0, 0), 5) == [2 * 0x10_0000, 10 * 0x10_0000, 50 * 0x10_0000, 200 * 0x10_0000, 200 * 0x10_0000]
  {
    FiveSizes(l, ListCursor(0, 0), ListCursor(0, 2 * 0x10_0000), ListCursor(1, 10 * 0x10_0000),
      ListCursor(2, 50 * 0x10_0000), ListCursor(3, 200 * 0x10_0000),
      [2 * 0x10_0000, 10 * 0x10_0000, 50 * 0x10_0000, 200 * 0x10_0000, 200 * 0x10_0000]);
  }

  /** The schedule "128M,1G,x2" yields 128M, 1G, 2G, 4G, 8G. */
  lemma TrailingMultiplierExample(l: MultiplierList)
    requires l == MultiplierList([128 * 0x10_0000, 0x4000_0000], [0, 2])
    ensures ListSizes(l, ListCursor(0, 0), 5) == [128 * 0x10_0000, 0x4000_0000, 2 * 0x4000_0000, 4 * 0x4000_0000, 8 * 0x4000_0000]
  {
    FiveSizes(l, ListCursor(0, 0), ListCursor(0, 128 * 0x10_0000), ListCursor(1, 0x4000_0000),
      ListCursor(1, 2 * 0x4000_0000), ListCursor(1, 4 * 0x4000_0000),
      [128 * 0x10_0000, 0x4000_0000, 2 * 0x4000_0000, 4 * 0x4000_0000, 8 * 0x4000_0000]);
  }

  /** The schedule "2k,x3,20k,x2" yields 2k, 6k, 18k, 20k, 40k. */
  lemma BetweenAnchorsExample(l: MultiplierList)
    requires l == MultiplierList([2 * 1024, 20 * 1024], [3, 2])
    ensures ListSizes(l, ListCursor(0, 0), 5) == [2 * 1024, 6 * 1024, 18 * 1024, 20 * 1024, 40 * 1024]
  {
    FiveSizes(l, ListCursor(0, 0), ListCursor(0, 2 * 1024), ListCursor(0, 6 * 1024),
      ListCursor(0, 18 * 1024), ListCursor(1, 20 * 1024),
      [2 * 1024, 6 * 1024, 18 * 1024, 20 * 1024, 40 * 1024]);
  }

  /** An accepted first segment: the loop goes on with the updated lists. */
  lemma ScanCons(p: string, rest: seq<string>, parseSize: SizeParser, acc: MultiplierList, next: MultiplierList)
    requires |acc.anchors| == |acc.multipliers|
    requires ScanSegment(TrimSpace(p), acc, parseSize) == Ok(next)
    ensures ScanFrom([p] + rest, parseSize, acc) == ScanFrom(rest, parseSize, next)
  {
    assert ([p] + rest)[0] == p && ([p] + rest)[1..] == rest;
  }

  /** A trimmed size segment with a positive size appends that anchor. */
  lemma ScanSizeText(p: string, acc: MultiplierList, parseSize: SizeParser, size: int)
    requires |acc.anchors| == |acc.multipliers|
    requires p != "" && p[0] != 'x' && TrimSpace(p) == p
    requires parseSize(p) == Some(size) && size > 0
    ensures ScanSegment(TrimSpace(p), acc, parseSize) == Ok(MultiplierList(acc.anchors + [size], acc.multipliers + [0]))
  {
  }

  /** A trimmed multiplier segment of at least 2 after an anchor without one sets that anchor's multiplier. */
  lemma ScanMultiplierText(p: string, acc: MultiplierList, parseSize: SizeParser, m: int)
    requires |acc.anchors| == |acc.multipliers| && |acc.multipliers| > 0
    requires acc.multipliers[|acc.multipliers| - 1] == 0
    requires p != "" && p[0] == 'x' && TrimSpace(p) == p
    requires ParseInt10(p[1..]) == Some(m) && m >= 2
    ensures ScanSegment(TrimSpace(p), acc, parseSize) == Ok(acc.(multipliers := acc.multipliers[|acc.multipliers| - 1 := m]))
  {
  }

  /** A size segment followed by a multiplier segment appends one anchor with its multiplier. */
  lemma ScanAnchorWithMultiplier(p: string, x: string, rest: seq<string>, parseSize: SizeParser, acc: MultiplierList, size: int, m: int)
    requires |acc.anchors| == |acc.multipliers|
    requires p != "" && p[0] != 'x' && TrimSpace(p) == p
    requires parseSize(p) == Some(size) && size > 0
    requires x != "" && x[0] == 'x' && TrimSpace(x) == x
    requires ParseInt10(x[1..]) == Some(m) && m >= 2
    ensures ScanFrom([p, x] + rest, parseSize, acc)
         == ScanFrom(rest, parseSize, MultiplierList(acc.anchors + [size], acc.multipliers + [m]))
  {
    var mid := MultiplierList(acc.anchors + [size], acc.multipliers + [0]);
    ScanSizeText(p, acc, parseSize, size);
    ScanMultiplierText(x, mid, parseSize, m);
    assert mid.multipliers[|mid.multipliers| - 1 := m] == acc.multipliers + [m];
    ScanCons(p, [x] + rest, parseSize, acc, mid);
    ScanCons(x, rest, parseSize, mid, MultiplierList(acc.anchors + [size], acc.multipliers + [m]));
    assert [p, x] + rest == [p] + ([x] + rest);
  }

  /**
   * Segments that are all sizes (trimmed, positive, none a multiplier)
   * append exactly those sizes as anchors, each without a multiplier.
   */
  lemma {:induction false} SizesOnlyScan(parts: seq<string>, parseSize: SizeParser, acc: MultiplierList, sizes: seq<int>)
    requires |acc.anchors| == |acc.multipliers| && |parts| == |sizes|
    requires forall i | 0 <= i < |parts| :: parts[i] != "" && parts[i][0] != 'x' && TrimSpace(parts[i]) == parts[i]
    requires forall i | 0 <= i < |parts| :: parseSize(parts[i]) == Some(sizes[i]) && sizes[i] > 0
    ensures ScanFrom(parts, parseSize, acc) ==
            Ok(MultiplierList(acc.anchors + sizes, acc.multipliers + seq(|sizes|, i => 0)))
    decreases |parts|
  {
    if |parts| == 0 {
      assert acc.anchors + sizes == acc.anchors;
      assert acc.multipliers + seq(0, i => 0) == acc.multipliers;
    } else {
      var next := MultiplierList(acc.anchors + [sizes[0]], acc.multipliers + [0]);
      ScanSizeText(parts[0], acc, parseSize, sizes[0]);
      assert ScanFrom(parts, parseSize, acc) == ScanFrom(parts[1..], parseSize, next);
      SizesOnlyScan(parts[1..], parseSize, next, sizes[1..]);
      AppendFirst(acc.anchors, sizes);
      assert [0] + seq(|sizes| - 1, i => 0) == seq(|sizes|, i => 0);
    }
  }

  /** A size written as a number and a unit letter is already trimmed and is not a multiplier. */
  lemma SizeLiteral(p: string)
    requires p == "2M" || p == "10M" || p == "50M" || p == "200M" || p == "128M" || p == "4M" ||
             p == "2k" || p == "20k" || p == "1G"
    ensures p != "" && p[0] != 'x' && TrimSpace(p) == p
  {
    TrimSpaceKeepsTrimmed(p);
  }

  /** The segments of "2M,10M,50M,200M" parse to those four anchors, none with a multiplier. */
  lemma AnchorsOnlySegments(parseSize: SizeParser, a: string, b: string, c: string, d: string)
    requires a == "2M" && b == "10M" && c == "50M" && d == "200M"
    requires parseSize(a) == Some(2 * 0x10_0000) && parseSize(b) == Some(10 * 0x10_0000)
    requires parseSize(c) == Some(50 * 0x10_0000) && parseSize(d) == Some(200 * 0x10_0000)
    ensures ParseParts([a, b, c, d], parseSize) ==
            Ok(MultiplierList([2 * 0x10_0000, 10 * 0x10_0000, 50 * 0x10_0000, 200 * 0x10_0000], [0, 0, 0, 0]))
  {
    var parts := [a, b, c, d];
    var sizes := [2 * 0x10_0000, 10 * 0x10_0000, 50 * 0x10_0000, 200 * 0x10_0000];
    SizeLiteral(a);
    SizeLiteral(b);
    SizeLiteral(c);
    SizeLiteral(d);
    forall i | 0 <= i < 4
      ensures parts[i] != "" && parts[i][0] != 'x' && TrimSpace(parts[i]) == parts[i]
      ensures parseSize(parts[i]) == Some(sizes[i]) && sizes[i] > 0
    {
    }
    SizesOnlyScan(parts, parseSize, MultiplierList([], []), sizes);
    assert [] + sizes == sizes && [] + seq(4, i => 0) == [0, 0, 0, 0];
  }

  /**
   * The text "2M,10M,50M,200M" parses to anchors 2M, 10M, 50M and 200M,
   * and the iterator over it yields 2M, 10M, 50M, 200M, 200M.
   */
  lemma AnchorsOnlyParses(parseSize: SizeParser, s: string)
    requires s == "2M,10M,50M,200M"
    requires parseSize("2M") == Some(2 * 0x10_0000) && parseSize("10M") == Some(10 * 0x10_0000)
    requires parseSize("50M") == Some(50 * 0x10_0000) && parseSize("200M") == Some(200 * 0x10_0000)
    ensures ParseParts(Split(s), parseSize) ==
            Ok(MultiplierList([2 * 0x10_0000, 10 * 0x10_0000, 50 * 0x10_0000, 200 * 0x10_0000], [0, 0, 0, 0]))
    ensures ListSizes(ParseParts(Split(s), parseSize).list, ListCursor(0, 0), 5) ==
            [2 * 0x10_0000, 10 * 0x10_0000, 50 * 0x10_0000, 200 * 0x10_0000, 200 * 0x10_0000]
  {
    SplitText(s, ["2M", "10M", "50M", "200M"]);
    AnchorsOnlySegments(parseSize, "2M", "10M", "50M", "200M");
    AnchorsOnlyExample(ParseParts(Split(s), parseSize).list);
  }

  /** The last two segments of "128M,1G,x2" complete the list. */
  lemma TrailingMultiplierTail(parseSize: SizeParser, b: string, x2: string)
    requires b == "1G" && x2 == "x2"
    requires parseSize(b) == Some(0x4000_0000)
    ensures ScanFrom([b, x2], parseSize, MultiplierList([128 * 0x10_0000], [0]))
         == Ok(MultiplierList([128 * 0x10_0000, 0x4000_0000], [0, 2]))
  {
    var l1 := MultiplierList([128 * 0x10_0000], [0]);
    AnchorMultiplierText(b, x2, 2);
    ScanAnchorWithMultiplier(b, x2, [], parseSize, l1, 0x4000_0000, 2);
    assert [b, x2] == [b, x2] + [];
    assert l1.anchors + [0x4000_0000] == [128 * 0x10_0000, 0x4000_0000] && l1.multipliers + [2] == [0, 2];
  }

  /** The segments of "128M,1G,x2" parse to anchors 128M and 1G, the last with multiplier 2. */
  lemma TrailingMultiplierSegments(parseSize: SizeParser, a: string, b: string, x2: string)
    requires a == "128M" && b == "1G" && x2 == "x2"
    requires parseSize(a) == Some(128 * 0x10_0000) && parseSize(b) == Some(0x4000_0000)
    ensures ParseParts([a, b, x2], parseSize) == Ok(MultiplierList([128 * 0x10_0000, 0x4000_0000], [0, 2]))
  {
    TrailingMultiplierHead(parseSize, a, [b, x2]);
    assert [a, b, x2] == [a] + [b, x2];
    TrailingMultiplierTail(parseSize, b, x2);
  }

  /** "128M" at the start of a text gives the anchor 128M without a multiplier. */
  lemma TrailingMultiplierHead(parseSize: SizeParser, a: string, rest: seq<string>)
    requires a == "128M"
    requires parseSize(a) == Some(128 * 0x10_0000)
    ensures ScanFrom([a] + rest, parseSize, MultiplierList([], []))
         == ScanFrom(rest, parseSize, MultiplierList([128 * 0x10_0000], [0]))
  {
    var l0 := MultiplierList([], []);
    SizeLiteral(a);
    ScanSizeText(a, l0, parseSize, 128 * 0x10_0000);
    assert l0.anchors + [128 * 0x10_0000] == [128 * 0x10_0000] && l0.multipliers + [0] == [0];
    ScanCons(a, rest, parseSize, l0, MultiplierList([128 * 0x10_0000], [0]));
  }

  /**
   * The text "128M,1G,x2" parses to anchors 128M and 1G with multipliers 0
   * and 2, and the iterator over it yields 128M, 1G, 2G, 4G, 8G.
   */
  lemma TrailingMultiplierParses(parseSize: SizeParser, s: string)
    requires s == "128M,1G,x2"
    requires parseSize("128M") == Some(128 * 0x10_0000) && parseSize("1G") == Some(0x4000_0000)
    ensures ParseParts(Split(s), parseSize) == Ok(MultiplierList([128 * 0x10_0000, 0x4000_0000], [0, 2]))
    ensures ListSizes(ParseParts(Split(s), parseSize).list, ListCursor(0, 0), 5) ==
            [128 * 0x10_0000, 0x4000_0000, 2 * 0x4000_0000, 4 * 0x4000_0000, 8 * 0x4000_0000]
  {
    SplitText(s, ["128M", "1G", "x2"]);
    TrailingMultiplierSegments(parseSize, "128M", "1G", "x2");
    TrailingMultiplierExample(ParseParts(Split(s), parseSize).list);
  }

  /** A text that is its comma-free segments joined by commas splits back into them. */
  lemma SplitText(s: string, parts: seq<string>)
    requires |parts| >= 1 && forall i | 0 <= i < |parts| :: ',' !in parts[i]
    requires Join(parts) == s
    ensures Split(s) == parts
  {
    SplitJoin(parts);
  }

  /** A trimmed size segment followed by a trimmed multiplier segment "x" + digit. */
  lemma AnchorMultiplierText(p: string, x: string, m: int)
    requires (p == "2k" || p == "20k" || p == "1G" || p == "2M") && (x == "x3" || x == "x2")
    requires m == if x == "x3" then 3 else 2
    ensures p != "" && p[0] != 'x' && TrimSpace(p) == p
    ensures x != "" && x[0] == 'x' && TrimSpace(x) == x
    ensures ParseInt10(x[1..]) == Some(m)
  {
    SizeLiteral(p);
    TrimSpaceKeepsTrimmed(x);
    if x == "x3" {
      assert x[1..] == "3" && ParseInt10("3") == Some(3);
    } else {
      assert x[1..] == "2" && ParseInt10("2") == Some(2);
    }
  }

  /** The last two segments of "2k,x3,20k,x2" complete the list. */
  lemma BetweenAnchorsTail(parseSize: SizeParser, b: string, x2: string)
    requires b == "20k" && x2 == "x2"
    requires parseSize(b) == Some(20 * 1024)
    ensures ScanFrom([b, x2], parseSize, MultiplierList([2 * 1024], [3]))
         == Ok(MultiplierList([2 * 1024, 20 * 1024], [3, 2]))
  {
    var l2 := MultiplierList([2 * 1024], [3]);
    AnchorMultiplierText(b, x2, 2);
    ScanAnchorWithMultiplier(b, x2, [], parseSize, l2, 20 * 1024, 2);
    assert [b, x2] == [b, x2] + [];
    assert l2.anchors + [20 * 1024] == [2 * 1024, 20 * 1024] && l2.multipliers + [2] == [3, 2];
  }

  /** The segments of "2k,x3,20k,x2" parse to anchors 2k, 20k with multipliers 3, 2. */
  lemma BetweenAnchorsSegments(parseSize: SizeParser, a: string, x3: string, b: string, x2: string)
    requires a == "2k" && x3 == "x3" && b == "20k" && x2 == "x2"
    requires parseSize(a) == Some(2 * 1024) && parseSize(b) == Some(20 * 1024)
    ensures ParseParts([a, x3, b, x2], parseSize) == Ok(MultiplierList([2 * 1024, 20 * 1024], [3, 2]))
  {
    var l0 := MultiplierList([], []);
    AnchorMultiplierText(a, x3, 3);
    ScanAnchorWithMultiplier(a, x3, [b, x2], parseSize, l0, 2 * 1024, 3);
    assert l0.anchors + [2 * 1024] == [2 * 1024] && l0.multipliers + [3] == [3];
    assert [a, x3, b, x2] == [a, x3] + [b, x2];
    BetweenAnchorsTail(parseSize, b, x2);
  }

  /**
   * The text "2k,x3,20k,x2" parses to anchors 2k, 20k with multipliers 3, 2,
   * and the iterator over it yields 2k, 6k, 18k, 20k, 40k.
   */
  lemma BetweenAnchorsParses(parseSize: SizeParser, s: string)
    requires s == "2k,x3,20k,x2"
    requires parseSize("2k") == Some(2 * 1024) && parseSize("20k") == Some(20 * 1024)
    ensures ParseParts(Split(s), parseSize) == Ok(MultiplierList([2 * 1024, 20 * 1024], [3, 2]))
    ensures ListSizes(ParseParts(Split(s), parseSize).list, ListCursor(0, 0), 5) ==
            [2 * 1024, 6 * 1024, 18 * 1024, 20 * 1024, 40 * 1024]
  {
    SplitText(s, ["2k", "x3", "20k", "x2"]);
    BetweenAnchorsSegments(parseSize, "2k", "x3", "20k", "x2");
    BetweenAnchorsExample(ParseParts(Split(s), parseSize).list);
  }

  /** ",2M" is rejected: its first segment is empty. */
  lemma EmptySegmentExample(parseSize: SizeParser, s: string)
    requires s == ",2M"
    ensures ParseParts(Split(s), parseSize) == Err(EmptySegment)
  {
    var e, a := "", "2M";
    SplitText(s, ["", "2M"]);
    assert TrimSpace(e) == e;
    RejectedSegmentFailsParse([e, a], parseSize, 0);
  }

  /** "x2,2M" is rejected: it starts with a multiplier. */
  lemma LeadingMultiplierExample(parseSize: SizeParser, s: string)
    requires s == "x2,2M"
    ensures ParseParts(Split(s), parseSize) == Err(MultiplierAtFirstPosition)
  {
    var x2, a := "x2", "2M";
    SplitText(s, ["x2", "2M"]);
    assert TrimSpace(x2) == x2;
    MultiplierFirstFails([x2, a], parseSize);
  }

  /** The segments of "2M,x2,x3,4M" are rejected: two multipliers follow each other. */
  lemma MultipliersInARowSegments(parseSize: SizeParser, a: string, x2: string, x3: string, b: string)
    requires a == "2M" && x2 == "x2" && x3 == "x3" && b == "4M"
    requires parseSize(a) == Some(2 * 0x10_0000)
    ensures ParseParts([a, x2, x3, b], parseSize) == Err(MultipleMultipliersInARow)
  {
    MultipliersInARowHead(parseSize, a, x2, [x3, b]);
    assert [a, x2, x3, b] == [a, x2] + [x3, b];
    MultipliersInARowTail(parseSize, x3, b);
  }

  /** "2M,x2" at the start of a text gives the anchor 2M with multiplier 2. */
  lemma MultipliersInARowHead(parseSize: SizeParser, a: string, x2: string, rest: seq<string>)
    requires a == "2M" && x2 == "x2"
    requires parseSize(a) == Some(2 * 0x10_0000)
    ensures ScanFrom([a, x2] + rest, parseSize, MultiplierList([], []))
         == ScanFrom(rest, parseSize, MultiplierList([2 * 0x10_0000], [2]))
  {
    var l0 := MultiplierList([], []);
    AnchorMultiplierText(a, x2, 2);
    ScanAnchorWithMultiplier(a, x2, rest, parseSize, l0, 2 * 0x10_0000, 2);
    assert l0.anchors + [2 * 0x10_0000] == [2 * 0x10_0000] && l0.multipliers + [2] == [2];
  }

  /** After "2M,x2" the segment "x3" is a second multiplier in a row. */
  lemma MultipliersInARowTail(parseSize: SizeParser, x3: string, b: string)
    requires x3 == "x3"
    ensures ScanFrom([x3, b], parseSize, MultiplierList([2 * 0x10_0000], [2])) == Err(MultipleMultipliersInARow)
  {
    TrimSpaceKeepsTrimmed(x3);
    assert [x3, b][0] == x3;
  }

  /** The text "2M,x2,x3,4M" is rejected: two multipliers follow each other. */
  lemma MultipliersInARowExample(parseSize: SizeParser, s: string)
    requires s == "2M,x2,x3,4M"
    requires parseSize("2M") == Some(2 * 0x10_0000)
    ensures ParseParts(Split(s), parseSize) == Err(MultipleMultipliersInARow)
  {
    SplitText(s, ["2M", "x2", "x3", "4M"]);
    MultipliersInARowSegments(parseSize, "2M", "x2", "x3", "4M");
  }

  /** The segments of "2M,x1": the multiplier 1 is too small. */
  lemma SmallMultiplierSegments(parseSize: SizeParser, a: string, x1: string)
    requires a == "2M" && x1 == "x1"
    requires parseSize(a) == Some(2 * 0x10_0000)
    ensures ParseParts([a, x1], parseSize) == Err(MultiplierTooSmall("1"))
  {
    var l0 := MultiplierList([], []);
    var l1 := MultiplierList([2 * 0x10_0000], [0]);
    assert TrimSpace(a) == a && TrimSpace(x1) == x1;
    assert x1[1..] == "1" && ParseInt10("1") == Some(1);
    ScanSizeText(a, l0, parseSize, 2 * 0x10_0000);
    assert l0.anchors + [2 * 0x10_0000] == [2 * 0x10_0000] && l0.multipliers + [0] == [0];
    ScanCons(a, [x1], parseSize, l0, l1);
    assert [a, x1] == [a] + [x1];
  }

  /**
   * "2M,x1": as written the parse returns neither a list nor an error; the
   * corrected parse reports the multiplier as too small.
   */
  lemma SmallMultiplierExample(parseSize: SizeParser, s: string)
    requires s == "2M,x1"
    requires parseSize("2M") == Some(2 * 0x10_0000)
    ensures ParseParts(Split(s), parseSize) == Err(MultiplierTooSmall("1"))
    ensures AsWritten(ParseParts(Split(s), parseSize)) == NilNoError
  {
    SplitText(s, ["2M", "x1"]);
    SmallMultiplierSegments(parseSize, "2M", "x1");
  }

  /** A multiplierListIter object over its own copy of the list. */
  class MultiplierListIter {
    const list: MultiplierList
    var sliceIdx: int
    var lastVal: int

    ghost function Cursor(): ListCursor
      reads this
    {
      ListCursor(sliceIdx, lastVal)
    }

    ghost predicate Valid()
      reads this
    {
      CursorValid(list, Cursor())
    }

    constructor (l: MultiplierList)
      requires |l.anchors| == |l.multipliers|
      ensures Valid() && list == l && Cursor() == ListCursor(0, 0)
    {
      list := l;
      sliceIdx, lastVal := 0, 0;
    }

    method NextChunkSize() returns (size: int)
      requires Valid()
      modifies this
      ensures Valid()
      ensures (size, Cursor()) == ListNext(list, old(Cursor()))
    {
      var l := |list.anchors|;
      if l == 0 {
        return -1;
      }
      if sliceIdx >= l {
        var m := list.multipliers[l - 1];
        if m > 1 {
          lastVal := Wrap64(lastVal * m);
        }
        return lastVal;
      }
      if lastVal == 0 {
        lastVal := list.anchors[0];
        return lastVal;
      }
      var m := list.multipliers[sliceIdx];
      if m <= 1 {
        sliceIdx := sliceIdx + 1;
        if sliceIdx < l {
          lastVal := list.anchors[sliceIdx];
        }
        return lastVal;
      }
      lastVal := Wrap64(lastVal * m);
      if sliceIdx + 1 < l {
        var next := list.anchors[sliceIdx + 1];
        if lastVal >= next {
          lastVal := next;
          sliceIdx := sliceIdx + 1;
        }
      }
      return lastVal;
    }

    method Reset(length: int)
      requires Valid()
      modifies this
      ensures Valid() && Cursor() == ListCursor(0, 0)
    {
      sliceIdx, lastVal := 0, 0;
    }
  }

  /** `Iter`: a new iterator over a copy of the list, positioned before its first size. */
  method Iter(l: MultiplierList) returns (it: MultiplierListIter)
    requires |l.anchors| == |l.multipliers|
    ensures fresh(it) && it.Valid()
    ensures it.list == l && it.Cursor() == ListCursor(0, 0)
  {
    it := new MultiplierListIter(l);
  }
}
