/** The measurement-file reader of `src/utils/trfParser.js`: format
    detection, the binary record reader with its heuristic search for the
    data section, and the line-oriented text parser that applies the 22 kHz
    cutoff while it reads.

    A file arrives as its bytes together with their UTF-8 decoding `text`
    (the decoding itself is left to the caller). Four-byte little-endian
    floats are read by the abstract `readF32`, whose `None` stands for a
    NaN or an infinite value: each of those fails every range check the
    reader makes, just as in the source. */
module TrfParser {
  import opened Common
  import opened Text

  datatype ParseError = DataSectionNotFound

  /** The magic token of a binary file. */
  const Magic: string := "JACKREF"

  /** How many leading bytes the format check samples. */
  const SampleWindow: nat := 10000

  /** Offsets probed, in this order, when no text row marks the data. */
  const Candidates: seq<nat> := [435057, 1000, 2000, 5000, 10000]

  /** `Math.min(buffer.length, 10000)`. */
  function SampleLength(n: nat): (m: nat)
    ensures m <= n && m <= SampleWindow
    ensures m == n || m == SampleWindow
  {
    if n < SampleWindow then n else SampleWindow
  }

  predicate NonPrintable(b: byte)
  {
    b < 32 || b > 126
  }

  function NonPrintableCount(bs: seq<byte>): (n: nat)
    ensures n <= |bs|
  {
    if bs == [] then 0
    else NonPrintableCount(bs[..|bs| - 1]) + (if NonPrintable(bs[|bs| - 1]) then 1 else 0)
  }

  function NullCount(bs: seq<byte>): (n: nat)
    ensures n <= |bs|
  {
    if bs == [] then 0
    else NullCount(bs[..|bs| - 1]) + (if bs[|bs| - 1] == 0 then 1 else 0)
  }

  /** Null bytes are counted among the non-printable ones. */
  lemma {:induction false} NullBytesAreNonPrintable(bs: seq<byte>)
    ensures NullCount(bs) <= NonPrintableCount(bs)
  {
    if bs != [] {
      NullBytesAreNonPrintable(bs[..|bs| - 1]);
    }
  }

  /** The format verdict: binary exactly when the text holds the magic
      token and strictly more than half of the sampled bytes are outside
      the printable range 32..126. */
  predicate LooksBinary(buf: seq<byte>, text: string)
  {
    var n := SampleLength(|buf|);
    Contains(text, Magic) && 2 * NonPrintableCount(buf[..n]) > n
  }

  lemma RatioAboveHalf(a: nat, n: nat)
    requires n > 0
    ensures (a as real / n as real > 0.5) <==> 2 * a > n
  {
    QuotientCompare(a as real, n as real, 0.5);
  }

  /** `isBinaryTRF`. */
  method IsBinaryTRF(buf: seq<byte>, text: string) returns (binary: bool)
    ensures binary == LooksBinary(buf, text)
  {
    if !Contains(text, Magic) {
      return false;
    }
    var n := SampleLength(|buf|);
    var nullBytes, nonPrintable := 0, 0;
    for i := 0 to n
      invariant nullBytes == NullCount(buf[..i])
      invariant nonPrintable == NonPrintableCount(buf[..i])
    {
      assert buf[..i + 1][..i] == buf[..i];
      if buf[i] == 0 {
        nullBytes := nullBytes + 1;
      }
      if buf[i] < 32 || buf[i] > 126 {
        nonPrintable := nonPrintable + 1;
      }
    }
    assert buf[..n] == buf[..n][..n];
    if n == 0 {
      // 0 / 0 is NaN in the source, and NaN > 0.5 is false
      binary := false;
    } else {
      // the null ratio is computed too, but never used
      var ratio := nonPrintable as real / n as real;
      RatioAboveHalf(nonPrintable, n);
      binary := ratio > 0.5;
    }
  }

  // ---------------------------------------------------------------------
  // Locating the binary data section

  function SkipDigits(s: string, i: nat): (j: nat)
    requires i <= |s|
    ensures i <= j <= |s|
    ensures forall k :: i <= k < j ==> IsDigit(s[k])
    ensures j < |s| ==> !IsDigit(s[j])
    decreases |s| - i
  {
    if i < |s| && IsDigit(s[i]) then SkipDigits(s, i + 1) else i
  }

  function SkipSpaces(s: string, i: nat): (j: nat)
    requires i <= |s|
    ensures i <= j <= |s|
    decreases |s| - i
  {
    if i < |s| && IsSpace(s[i]) then SkipSpaces(s, i + 1) else i
  }

  /** Where `-?\d+\.?\d*` (the sign only when `signed`) ends when matched at
      `i`, or `None` when it does not match there. */
  function NumberEnd(s: string, i: nat, signed: bool): (r: Option<nat>)
    requires i <= |s|
    ensures r.Some? ==> i < r.value <= |s|
  {
    var j := if signed && i < |s| && s[i] == '-' then i + 1 else i;
    var k := SkipDigits(s, j);
    if k == j then None
    else if k < |s| && s[k] == '.' then Some(SkipDigits(s, k + 1))
    else Some(k)
  }

  /** `line.match(/^\d+\.?\d*\s+-?\d+\.?\d*\s+-?\d+\.?\d*&#47;)`: the line
      begins with three white-space-separated numbers, the first unsigned.
      Each part of the pattern is matched greedily, which finds a match
      whenever the regular expression does: no digit, dot or minus sign is
      also white space. */
  predicate LooksLikeDataRow(line: string)
  {
    match NumberEnd(line, 0, false)
    case None => false
    case Some(a) =>
      var b := SkipSpaces(line, a);
      b > a &&
      match NumberEnd(line, b, true)
      case None => false
      case Some(c) =>
        var d := SkipSpaces(line, c);
        d > c && NumberEnd(line, d, true).Some?
  }

  /** A data row begins with a digit. */
  lemma DataRowStartsWithDigit(line: string)
    requires LooksLikeDataRow(line)
    ensures |line| > 0 && IsDigit(line[0])
  {
    var a := NumberEnd(line, 0, false).value;
    assert SkipDigits(line, 0) > 0;
  }

  function DataRowFlags(lines: seq<string>): (fs: seq<bool>)
    ensures |fs| == |lines|
    ensures forall j {:trigger fs[j]} {:trigger LooksLikeDataRow(Trim(lines[j]))} :: 0 <= j < |lines| ==> fs[j] == LooksLikeDataRow(Trim(lines[j]))
  {
    seq(|lines|, j requires 0 <= j < |lines| => LooksLikeDataRow(Trim(lines[j])))
  }

  /** The index of the first line whose trimmed form looks like a data row. */
  function FirstDataRow(lines: seq<string>): (r: Option<nat>)
    ensures r.Some? ==> r.value < |lines| && LooksLikeDataRow(Trim(lines[r.value]))
    ensures r.Some? ==> forall j {:trigger LooksLikeDataRow(Trim(lines[j]))} :: 0 <= j < r.value ==> !LooksLikeDataRow(Trim(lines[j]))
    ensures r.None? ==> forall j {:trigger LooksLikeDataRow(Trim(lines[j]))} :: 0 <= j < |lines| ==> !LooksLikeDataRow(Trim(lines[j]))
  {
    var r := FirstTrue(DataRowFlags(lines), 0);
    r
  }

  /** The three leading floats of a record pass the reader's range checks:
      frequency in [0, 22000], magnitude in (-200, 200), phase in (-180, 180). */
  predicate Plausible(f: Option<real>, m: Option<real>, p: Option<real>)
  {
    && f.Some? && 0.0 <= f.value <= 22000.0
    && m.Some? && -200.0 < m.value < 200.0
    && p.Some? && -180.0 < p.value < 180.0
  }

  /** A candidate offset is taken when more than 16 bytes follow it and its
      first three floats are plausible. */
  predicate Accepts(buf: seq<byte>, readF32: seq<byte> -> Option<real>, start: nat)
  {
    start + 16 < |buf| &&
    Plausible(readF32(buf[start..start + 4]), readF32(buf[start + 4..start + 8]), readF32(buf[start + 8..start + 12]))
  }

  function AcceptFlags(buf: seq<byte>, readF32: seq<byte> -> Option<real>, cands: seq<nat>): (fs: seq<bool>)
    ensures |fs| == |cands|
    ensures forall j {:trigger fs[j]} {:trigger Accepts(buf, readF32, cands[j])} :: 0 <= j < |cands| ==> fs[j] == Accepts(buf, readF32, cands[j])
  {
    seq(|cands|, j requires 0 <= j < |cands| => Accepts(buf, readF32, cands[j]))
  }

  /** The position of the first accepted candidate offset. */
  function FirstAccepted(buf: seq<byte>, readF32: seq<byte> -> Option<real>, cands: seq<nat>): (r: Option<nat>)
    ensures r.Some? ==> r.value < |cands| && Accepts(buf, readF32, cands[r.value])
    ensures r.Some? ==> forall j {:trigger Accepts(buf, readF32, cands[j])} :: 0 <= j < r.value ==> !Accepts(buf, readF32, cands[j])
    ensures r.None? ==> forall j {:trigger Accepts(buf, readF32, cands[j])} :: 0 <= j < |cands| ==> !Accepts(buf, readF32, cands[j])
  {
    var r := FirstTrue(AcceptFlags(buf, readF32, cands), 0);
    r
  }

  /** The first accepted candidate offset, or -1 when none is accepted. */
  function ProbeStart(buf: seq<byte>, readF32: seq<byte> -> Option<real>): (r: int)
    ensures r >= -1
  {
    match FirstAccepted(buf, readF32, Candidates)
    case Some(k) => Candidates[k]
    case None => -1
  }

  /** Where the binary records begin, or -1: the text strategy when the
      first data-like line is not the first line, else the probe of the
      candidate offsets. */
  function DataStart(buf: seq<byte>, text: string, readF32: seq<byte> -> Option<real>): (r: int)
    ensures r >= -1
  {
    var lines := SplitLines(text);
    var row := FirstDataRow(lines);
    if row.Some? && row.value > 0 then PieceStart(lines, row.value) else ProbeStart(buf, readF32)
  }

  /** With line-feed line ends, the text strategy's offset is where the
      data row begins in the text. */
  lemma TextOffsetLocatesDataRow(buf: seq<byte>, text: string, readF32: seq<byte> -> Option<real>, k: nat)
    requires '\r' !in text
    requires FirstDataRow(SplitLines(text)) == Some(k) && k > 0
    ensures OccursAt(text, DataStart(buf, text, readF32), SplitLines(text)[k])
  {
    var lines := SplitLines(text);
    SplitLinesWithoutCarriageReturns(text);
    SplitPieceAt(text, '\n', k);
    var at := DataStart(buf, text, readF32);
    assert at == PieceStart(lines, k);
    PieceOccurs(text, lines, k, '\n');
  }

  /** With CRLF line ends the text strategy's offset falls short: the data
      row begins at `PieceStart(Split(text, '\n'), k)` (`LineAtPieceStart`),
      one character further on than the offset for every CRLF line end
      above it, because each line is counted with a single separator
      character. */
  lemma CrlfOffsetFallsShort(buf: seq<byte>, text: string, readF32: seq<byte> -> Option<real>, k: nat)
    requires FirstDataRow(SplitLines(text)) == Some(k) && k > 0
    ensures DataStart(buf, text, readF32) + CrBreaks(Split(text, '\n'), k) == PieceStart(Split(text, '\n'), k)
    ensures (exists j :: 0 <= j < k && EndsWithCarriageReturn(Split(text, '\n')[j])) ==>
      DataStart(buf, text, readF32) < PieceStart(Split(text, '\n'), k)
  {
    TextOffsetOfRow(buf, text, readF32, k);
    LineStartShortfall(text, k);
    if exists j :: 0 <= j < k && EndsWithCarriageReturn(Split(text, '\n')[j]) {
      var j :| 0 <= j < k && EndsWithCarriageReturn(Split(text, '\n')[j]);
      CrBreakCounted(Split(text, '\n'), k, j);
    }
  }

  /** When the first data-like line is line `k > 0`, the offset is the
      counted start of that line. */
  lemma TextOffsetOfRow(buf: seq<byte>, text: string, readF32: seq<byte> -> Option<real>, k: nat)
    requires FirstDataRow(SplitLines(text)) == Some(k) && k > 0
    ensures k < |SplitLines(text)| && DataStart(buf, text, readF32) == PieceStart(SplitLines(text), k)
  {
  }

  /** The offset the text strategy evidently means: the lengths of the
      lines above the data row, each with its own line end, CRLF or LF. */
  function LineAwareDataStart(buf: seq<byte>, text: string, readF32: seq<byte> -> Option<real>): (r: int)
    ensures r >= -1
  {
    var row := FirstDataRow(SplitLines(text));
    if row.Some? && row.value > 0 then PieceStart(Split(text, '\n'), row.value) else ProbeStart(buf, readF32)
  }

  /** Whatever the line ends, the corrected offset is where the data row
      begins in the text. */
  lemma LineAwareOffsetLocatesDataRow(buf: seq<byte>, text: string, readF32: seq<byte> -> Option<real>, k: nat)
    requires FirstDataRow(SplitLines(text)) == Some(k) && k > 0
    ensures OccursAt(text, LineAwareDataStart(buf, text, readF32), SplitLines(text)[k])
  {
    LineAtPieceStart(text, k);
  }

  /** The two offsets agree when no line ends in CRLF. */
  lemma LineAwareAgreesWithoutCarriageReturns(buf: seq<byte>, text: string, readF32: seq<byte> -> Option<real>)
    requires '\r' !in text
    ensures LineAwareDataStart(buf, text, readF32) == DataStart(buf, text, readF32)
  {
    SplitLinesWithoutCarriageReturns(text);
  }

  /** The probe gives the first candidate that is accepted, and -1 exactly
      when none is. */
  lemma ProbeFindsFirstAccepted(buf: seq<byte>, readF32: seq<byte> -> Option<real>)
    ensures var r := ProbeStart(buf, readF32);
      && (r == -1 <==> forall j :: 0 <= j < |Candidates| ==> !Accepts(buf, readF32, Candidates[j]))
      && (r != -1 ==> exists k :: 0 <= k < |Candidates| && r == Candidates[k] && Accepts(buf, readF32, r)
                           && forall j :: 0 <= j < k ==> !Accepts(buf, readF32, Candidates[j]))
  {
    match FirstAccepted(buf, readF32, Candidates)
    case None =>
    case Some(k) =>
      assert Candidates[k] != -1;
  }

  /** The index of the first data-like line, or -1: the first loop of
      `findBinaryDataStart`. */
  method FindDataRow(lines: seq<string>) returns (headerEnd: int)
    ensures headerEnd == -1 <==> FirstDataRow(lines).None?
    ensures headerEnd != -1 ==> FirstDataRow(lines) == Some(headerEnd)
  {
    ghost var rows := DataRowFlags(lines);
    headerEnd := -1;
    var i := 0;
    while i < |lines|
      invariant 0 <= i <= |lines|
      invariant FirstTrue(rows, i) == FirstDataRow(lines)
      invariant headerEnd == -1
    {
      if LooksLikeDataRow(Trim(lines[i])) {
        headerEnd := i;
        break;
      }
      i := i + 1;
    }
  }

  /** The probe loop of `findBinaryDataStart`. */
  method ProbeCandidates(buf: seq<byte>, readF32: seq<byte> -> Option<real>) returns (start: int)
    ensures start == ProbeStart(buf, readF32)
  {
    ghost var accepted := AcceptFlags(buf, readF32, Candidates);
    for c := 0 to |Candidates|
      invariant FirstTrue(accepted, c) == FirstAccepted(buf, readF32, Candidates)
    {
      var s := Candidates[c];
      if s < |buf| - 16 {
        var f1 := readF32(buf[s..s + 4]);
        var f2 := readF32(buf[s + 4..s + 8]);
        var f3 := readF32(buf[s + 8..s + 12]);
        if f1.Some? && 0.0 <= f1.value <= 22000.0
          && f2.Some? && -200.0 < f2.value < 200.0
          && f3.Some? && -180.0 < f3.value < 180.0
        {
          assert accepted[c];
          return s;
        }
      }
      assert !accepted[c];
    }
    return -1;
  }

  /** The offset loop of `findBinaryDataStart`: each line before line `n`
      counts its length plus one for its line feed. */
  method ByteOffset(lines: seq<string>, n: nat) returns (byteOffset: nat)
    requires n <= |lines|
    ensures byteOffset == PieceStart(lines, n)
  {
    byteOffset := 0;
    for j := 0 to n
      invariant byteOffset == PieceStart(lines, j)
    {
      byteOffset := byteOffset + |lines[j]| + 1;
    }
  }

  /** `findBinaryDataStart`. */
  method FindBinaryDataStart(buf: seq<byte>, text: string, readF32: seq<byte> -> Option<real>) returns (start: int)
    ensures start == DataStart(buf, text, readF32)
  {
    var lines := SplitLines(text);
    var headerEnd := FindDataRow(lines);
    if headerEnd > 0 {
      start := ByteOffset(lines, headerEnd);
    } else {
      start := ProbeCandidates(buf, readF32);
    }
  }

  // ---------------------------------------------------------------------
  // Reading binary records

  /** The point a record yields, if any: the three leading floats pass the
      range checks; the fourth becomes the coherence only inside [0, 1]. */
  function RecordAt(buf: seq<byte>, readF32: seq<byte> -> Option<real>, i: nat): (r: Option<Point>)
    requires i + 16 <= |buf|
  {
    var f := readF32(buf[i..i + 4]);
    var m := readF32(buf[i + 4..i + 8]);
    var p := readF32(buf[i + 8..i + 12]);
    var c := readF32(buf[i + 12..i + 16]);
    if Plausible(f, m, p) then
      Some(Point(f.value, m.value, p.value, if c.Some? && 0.0 <= c.value <= 1.0 then c else None))
    else None
  }

  /** A point read from a binary record. */
  predicate BinaryPointInRange(pt: Point)
  {
    && 0.0 <= pt.frequency <= 22000.0
    && -200.0 < pt.magnitude < 200.0
    && -180.0 < pt.phase < 180.0
    && (pt.coherence.Some? ==> 0.0 <= pt.coherence.value <= 1.0)
  }

  /** The points of the records at `i`, `i + 16`, ... while the offset is
      below `|buf| - 16`, in file order. */
  function Records(buf: seq<byte>, readF32: seq<byte> -> Option<real>, i: nat): seq<Point>
    decreases |buf| - i
  {
    if i + 16 < |buf| then RecordPoints(buf, readF32, i) + Records(buf, readF32, i + 16)
    else []
  }

  /** The record at `i` as a list of at most one point. */
  function RecordPoints(buf: seq<byte>, readF32: seq<byte> -> Option<real>, i: nat): seq<Point>
    requires i + 16 <= |buf|
  {
    match RecordAt(buf, readF32, i)
    case Some(pt) => [pt]
    case None => []
  }

  /** Every point read from binary records passes the range checks, and
      there is at most one point per 16 bytes read. */
  lemma {:induction false} RecordsInRange(buf: seq<byte>, readF32: seq<byte> -> Option<real>, i: nat)
    ensures forall k :: 0 <= k < |Records(buf, readF32, i)| ==> BinaryPointInRange(Records(buf, readF32, i)[k])
    ensures |Records(buf, readF32, i)| <= (|buf| - i) / 16 || |buf| <= i
    decreases |buf| - i
  {
    if i + 16 < |buf| {
      RecordsInRange(buf, readF32, i + 16);
      var head, rest := RecordPoints(buf, readF32, i), Records(buf, readF32, i + 16);
      assert Records(buf, readF32, i) == head + rest;
      forall k | 0 <= k < |head + rest|
        ensures BinaryPointInRange((head + rest)[k])
      {
        if k >= |head| {
          assert (head + rest)[k] == rest[k - |head|];
        }
      }
    }
  }

  /** A record that ends exactly at the end of the buffer is not read: the
      loop runs only while more than 16 bytes remain. */
  lemma FinalFullRecordSkipped(buf: seq<byte>, readF32: seq<byte> -> Option<real>, i: nat)
    requires i + 16 == |buf|
    ensures Records(buf, readF32, i) == []
  {
  }

  /** The record loop of `parseBinaryTRF`, from offset `dataStart`. */
  method ReadRecords(buf: seq<byte>, readF32: seq<byte> -> Option<real>, dataStart: nat)
    returns (dataPoints: seq<Point>)
    ensures dataPoints == Records(buf, readF32, dataStart)
  {
    dataPoints := [];
    var i: nat := dataStart;
    while i < |buf| - 16
      invariant Records(buf, readF32, dataStart) == dataPoints + Records(buf, readF32, i)
      decreases |buf| - i
    {
      ghost var before := dataPoints;
      var frequency := readF32(buf[i..i + 4]);
      var magnitude := readF32(buf[i + 4..i + 8]);
      var phase := readF32(buf[i + 8..i + 12]);
      var coherence := readF32(buf[i + 12..i + 16]);
      if frequency.Some? && 0.0 <= frequency.value <= 22000.0
        && magnitude.Some? && -200.0 < magnitude.value < 200.0
        && phase.Some? && -180.0 < phase.value < 180.0
      {
        var pt := Point(frequency.value, magnitude.value, phase.value, None);
        if coherence.Some? && 0.0 <= coherence.value <= 1.0 {
          pt := pt.(coherence := coherence);
        }
        dataPoints := dataPoints + [pt];
      }
      assert dataPoints == before + RecordPoints(buf, readF32, i);
      ghost var head, rest := RecordPoints(buf, readF32, i), Records(buf, readF32, i + 16);
      assert Records(buf, readF32, i) == head + rest;
      ConcatAssociative(before, head, rest);
      i := i + 16;
    }
    assert Records(buf, readF32, i) == [];
  }

  /** `parseBinaryTRF`: the records from the located data start, or an
      error when the data section cannot be located. */
  method ParseBinaryTRF(buf: seq<byte>, text: string, readF32: seq<byte> -> Option<real>)
    returns (r: Result<seq<Point>, ParseError>)
    ensures var start := DataStart(buf, text, readF32);
      if start == -1 then r == Err(DataSectionNotFound) else r == Ok(Records(buf, readF32, start))
  {
    var dataStart := FindBinaryDataStart(buf, text, readF32);
    if dataStart == -1 {
      return Err(DataSectionNotFound);
    }
    var dataPoints := ReadRecords(buf, readF32, dataStart);
    return Ok(dataPoints);
  }

  // ---------------------------------------------------------------------
  // The text format

  predicate IsTitleLine(t: string)
  {
    Contains(t, "TTA") || Contains(t, "DM3")
  }

  /** The header test of the source: the lower-cased line mentions
      "frequency (hz)", "frequency" or "freq". */
  predicate MentionsFrequency(t: string)
  {
    var l := ToLower(t);
    Contains(l, "frequency (hz)") || Contains(l, "frequency") || Contains(l, "freq")
  }

  /** The three header markers come down to "freq" alone. */
  lemma HeaderMarkerIsFreq(t: string)
    ensures MentionsFrequency(t) <==> Contains(ToLower(t), "freq")
  {
    var l := ToLower(t);
    if Contains(l, "frequency (hz)") {
      assert "frequency (hz)" == "freq" + "uency (hz)";
      ContainsPrefix(l, "freq", "uency (hz)");
    }
    if Contains(l, "frequency") {
      assert "frequency" == "freq" + "uency";
      ContainsPrefix(l, "freq", "uency");
    }
  }

  /** A trimmed line the state machine looks at: neither blank nor a title. */
  predicate Considered(t: string)
  {
    t != [] && !IsTitleLine(t)
  }

  /** `isNumericLine`: the first field parses and is a finite number. */
  predicate IsNumericLine(t: string, js: JsNumbers)
  {
    var first := FirstField(t);
    js.parseFloat(first).Some? && js.toNumber(first).Some?
  }

  predicate IsHeaderLine(line: string)
  {
    var t := Trim(line);
    Considered(t) && MentionsFrequency(t)
  }

  /** A line at which data starts when it has not started yet: a header, or
      a line whose first field is numeric. */
  predicate IsStartLine(line: string, js: JsNumbers)
  {
    var t := Trim(line);
    Considered(t) && (MentionsFrequency(t) || IsNumericLine(t, js))
  }

  function HeaderFlags(lines: seq<string>): (fs: seq<bool>)
    ensures |fs| == |lines|
    ensures forall j {:trigger fs[j]} {:trigger IsHeaderLine(lines[j])} :: 0 <= j < |lines| ==> fs[j] == IsHeaderLine(lines[j])
  {
    seq(|lines|, j requires 0 <= j < |lines| => IsHeaderLine(lines[j]))
  }

  function StartFlags(lines: seq<string>, js: JsNumbers): (fs: seq<bool>)
    ensures |fs| == |lines|
    ensures forall j {:trigger fs[j]} {:trigger IsStartLine(lines[j], js)} :: 0 <= j < |lines| ==> fs[j] == IsStartLine(lines[j], js)
  {
    seq(|lines|, j requires 0 <= j < |lines| => IsStartLine(lines[j], js))
  }

  /** The one header line: the first considered line mentioning "freq". */
  function HeaderIndex(lines: seq<string>): (h: Option<nat>)
    ensures h.Some? ==> h.value < |lines| && IsHeaderLine(lines[h.value])
    ensures h.Some? ==> forall j {:trigger IsHeaderLine(lines[j])} :: 0 <= j < h.value ==> !IsHeaderLine(lines[j])
    ensures h.None? ==> forall j {:trigger IsHeaderLine(lines[j])} :: 0 <= j < |lines| ==> !IsHeaderLine(lines[j])
  {
    var r := FirstTrue(HeaderFlags(lines), 0);
    r
  }

  /** The line at which data starts. */
  function StartIndex(lines: seq<string>, js: JsNumbers): (s: Option<nat>)
    ensures s.Some? ==> s.value < |lines| && IsStartLine(lines[s.value], js)
    ensures s.Some? ==> forall j {:trigger IsStartLine(lines[j], js)} :: 0 <= j < s.value ==> !IsStartLine(lines[j], js)
    ensures s.None? ==> forall j {:trigger IsStartLine(lines[j], js)} :: 0 <= j < |lines| ==> !IsStartLine(lines[j], js)
  {
    var r := FirstTrue(StartFlags(lines, js), 0);
    r
  }

  /** Whether line `j` is read with a coherence column: only after a header
      that names one. */
  predicate CoherenceDeclaredBefore(lines: seq<string>, j: nat)
  {
    var h := HeaderIndex(lines);
    h.Some? && h.value < j && Contains(ToLower(Trim(lines[h.value])), "coherence")
  }

  /** The point a trimmed data row yields: at least three tokens, the first
      three numeric, the frequency within [0, 22000]; a fourth token is the
      coherence when one was declared and it lies in [0, 1]. */
  function RowPoint(t: string, coherenceDeclared: bool, js: JsNumbers): (r: Option<Point>)
    ensures r.Some? ==> 0.0 <= r.value.frequency <= 22000.0
    ensures r.Some? ==> |Tokens(t)| >= 3
    ensures r.Some? && r.value.coherence.Some? ==>
      coherenceDeclared && |Tokens(t)| >= 4 && 0.0 <= r.value.coherence.value <= 1.0
  {
    var vs := Tokens(t);
    if |vs| < 3 then None
    else
      var f, m, p := js.parseFloat(vs[0]), js.parseFloat(vs[1]), js.parseFloat(vs[2]);
      if f.Some? && m.Some? && p.Some? && 0.0 <= f.value <= 22000.0 then
        var c := if coherenceDeclared && |vs| >= 4 then js.parseFloat(vs[3]) else None;
        Some(Point(f.value, m.value, p.value, if c.Some? && 0.0 <= c.value <= 1.0 then c else None))
      else None
  }

  /** A point read from a text row: the frequency within the 22 kHz
      cutoff, a coherence only within [0, 1]. */
  predicate TextPointInRange(pt: Point)
  {
    && 0.0 <= pt.frequency <= 22000.0
    && (pt.coherence.Some? ==> 0.0 <= pt.coherence.value <= 1.0)
  }

  /** The point of a data row as a list of at most one point. */
  function RowPoints(t: string, coherenceDeclared: bool, js: JsNumbers): (r: seq<Point>)
    ensures |r| <= 1
    ensures forall k :: 0 <= k < |r| ==> TextPointInRange(r[k])
    ensures forall k :: 0 <= k < |r| ==> r[k].coherence.Some? ==> coherenceDeclared
  {
    match RowPoint(t, coherenceDeclared, js)
    case Some(p) => [p]
    case None => []
  }

  /** The points line `j` contributes: none unless it is considered, data
      has started by then, and it is not the header line. */
  function LinePoints(lines: seq<string>, js: JsNumbers, j: nat): (r: seq<Point>)
    requires j < |lines|
    ensures |r| <= 1
    ensures forall k :: 0 <= k < |r| ==> TextPointInRange(r[k])
    ensures forall k :: 0 <= k < |r| ==> r[k].coherence.Some? ==> CoherenceDeclaredBefore(lines, j)
  {
    var t := Trim(lines[j]);
    var s := StartIndex(lines, js);
    if Considered(t) && s.Some? && s.value <= j && HeaderIndex(lines) != Some(j) then
      RowPoints(t, CoherenceDeclaredBefore(lines, j), js)
    else []
  }

  /** The points of each line, in line order. */
  function LinePointsAll(lines: seq<string>, js: JsNumbers): (parts: seq<seq<Point>>)
    ensures |parts| == |lines|
    ensures forall j {:trigger parts[j]} :: 0 <= j < |lines| ==> parts[j] == LinePoints(lines, js, j)
  {
    seq(|lines|, j requires 0 <= j < |lines| => LinePoints(lines, js, j))
  }

  /** The points of the first `n` lines, in line order. */
  function TextPointsUpTo(lines: seq<string>, js: JsNumbers, n: nat): seq<Point>
    requires n <= |lines|
  {
    Concat(LinePointsAll(lines, js)[..n])
  }

  function TextPoints(lines: seq<string>, js: JsNumbers): seq<Point>
  {
    TextPointsUpTo(lines, js, |lines|)
  }

  /** Reading one more line appends that line's points. */
  lemma TextPointsStep(lines: seq<string>, js: JsNumbers, i: nat)
    requires i < |lines|
    ensures TextPointsUpTo(lines, js, i + 1) == TextPointsUpTo(lines, js, i) + LinePoints(lines, js, i)
  {
    var parts := LinePointsAll(lines, js);
    ConcatStep(parts, i);
    assert parts[..i + 1][..i] == parts[..i];
  }

  /** The text parser yields at most one point per line, each within the
      22 kHz cutoff and with a coherence only inside [0, 1]. */
  lemma TextPointsInRange(lines: seq<string>, js: JsNumbers)
    ensures |TextPoints(lines, js)| <= |lines|
    ensures forall k :: 0 <= k < |TextPoints(lines, js)| ==> TextPointInRange(TextPoints(lines, js)[k])
  {
    var all := LinePointsAll(lines, js);
    var parts := all[..|lines|];
    var ps := Concat(parts);
    forall j | 0 <= j < |parts|
      ensures |parts[j]| <= 1
    {
      assert parts[j] == all[j];
    }
    ConcatOfSingletons(parts);
    forall k | 0 <= k < |ps|
      ensures TextPointInRange(ps[k])
    {
      ConcatMember(parts, k);
      var j, m :| 0 <= j < |parts| && 0 <= m < |parts[j]| && ps[k] == parts[j][m];
      assert parts[j] == LinePoints(lines, js, j);
    }
  }

  /** A point carries a coherence only when the header line names a
      coherence column. */
  lemma CoherenceNeedsDeclaringHeader(lines: seq<string>, js: JsNumbers, k: nat)
    requires k < |TextPoints(lines, js)| && TextPoints(lines, js)[k].coherence.Some?
    ensures HeaderIndex(lines).Some?
    ensures Contains(ToLower(Trim(lines[HeaderIndex(lines).value])), "coherence")
  {
    var all := LinePointsAll(lines, js);
    var parts := all[..|lines|];
    ConcatMember(parts, k);
    var j, m :| 0 <= j < |parts| && 0 <= m < |parts[j]| && Concat(parts)[k] == parts[j][m];
    assert parts[j] == LinePoints(lines, js, j);
    assert CoherenceDeclaredBefore(lines, j);
  }

  /** What one pass of the loop of `parseTextTRF` does with the raw line
      `raw`: blank and title lines change nothing; the first line that
      mentions a frequency is the header, which starts the data and says
      whether there is a coherence column; any other line starts the data
      when its first field is numeric and, once the data has started,
      contributes its row's point. */
  predicate LineStep(raw: string, js: JsNumbers, headerFound: bool, dataStarted: bool, hasCoherence: bool,
                     headerFound': bool, dataStarted': bool, hasCoherence': bool, found: seq<Point>)
  {
    var t := Trim(raw);
    if !Considered(t) then
      headerFound' == headerFound && dataStarted' == dataStarted && hasCoherence' == hasCoherence && found == []
    else if !headerFound && MentionsFrequency(t) then
      headerFound' && dataStarted' && hasCoherence' == Contains(ToLower(t), "coherence") && found == []
    else
      && headerFound' == headerFound && hasCoherence' == hasCoherence
      && dataStarted' == (dataStarted || IsNumericLine(t, js))
      && found == if dataStarted' then RowPoints(t, hasCoherence, js) else []
  }

  /** One pass of the loop of `parseTextTRF`. */
  method ReadTextLine(raw: string, headerFound: bool, dataStarted: bool, hasCoherence: bool, js: JsNumbers)
    returns (headerFound': bool, dataStarted': bool, hasCoherence': bool, found: seq<Point>)
    ensures LineStep(raw, js, headerFound, dataStarted, hasCoherence, headerFound', dataStarted', hasCoherence', found)
  {
    headerFound', dataStarted', hasCoherence', found := headerFound, dataStarted, hasCoherence, [];
    var line := Trim(raw);
    if line == [] {
      return;
    }
    if Contains(line, "TTA") || Contains(line, "DM3") {
      return;
    }
    var lower := ToLower(line);
    if !headerFound && (Contains(lower, "frequency (hz)") || Contains(lower, "frequency") || Contains(lower, "freq")) {
      headerFound' := true;
      dataStarted' := true;
      hasCoherence' := Contains(lower, "coherence");
      return;
    }
    if !dataStarted && IsNumericLine(line, js) {
      dataStarted' := true;
    }
    if dataStarted' {
      found := ReadRow(line, hasCoherence, js);
    }
  }

  /** The row-reading part of the loop of `parseTextTRF`. */
  method ReadRow(line: string, hasCoherence: bool, js: JsNumbers) returns (found: seq<Point>)
    ensures found == RowPoints(line, hasCoherence, js)
  {
    found := [];
    var values := Tokens(line);
    if |values| >= 3 {
      var frequency := js.parseFloat(values[0]);
      var magnitude := js.parseFloat(values[1]);
      var phase := js.parseFloat(values[2]);
      if frequency.Some? && magnitude.Some? && phase.Some? && 0.0 <= frequency.value <= 22000.0 {
        var point := Point(frequency.value, magnitude.value, phase.value, None);
        if hasCoherence && |values| >= 4 {
          var coherence := js.parseFloat(values[3]);
          if coherence.Some? && 0.0 <= coherence.value <= 1.0 {
            point := point.(coherence := coherence);
          }
        }
        found := [point];
      }
    }
  }

  /** The state of `parseTextTRF` after the first `i` lines: the header
      has been seen exactly when the header line is among them, the data
      has started exactly when the start line is, the coherence flag is the
      one the header declared, and the points are those of these lines. */
  predicate Scanned(lines: seq<string>, js: JsNumbers, i: nat,
                    headerFound: bool, dataStarted: bool, hasCoherence: bool, points: seq<Point>)
    requires i <= |lines|
  {
    var h, s := HeaderIndex(lines), StartIndex(lines, js);
    && (headerFound <==> h.Some? && h.value < i)
    && (dataStarted <==> s.Some? && s.value < i)
    && (headerFound ==> dataStarted)
    && hasCoherence == CoherenceDeclaredBefore(lines, i)
    && points == TextPointsUpTo(lines, js, i)
  }

  /** How the header index, the start index and the coherence flag move on
      past line `i`. */
  lemma TextScanStep(lines: seq<string>, js: JsNumbers, i: nat)
    requires i < |lines|
    ensures var h := HeaderIndex(lines);
      (h.Some? && h.value < i + 1) <==> ((h.Some? && h.value < i) || IsHeaderLine(lines[i]))
    ensures var s := StartIndex(lines, js);
      (s.Some? && s.value < i + 1) <==> ((s.Some? && s.value < i) || IsStartLine(lines[i], js))
    ensures CoherenceDeclaredBefore(lines, i + 1) ==
      if HeaderIndex(lines) == Some(i) then Contains(ToLower(Trim(lines[i])), "coherence")
      else CoherenceDeclaredBefore(lines, i)
  {
    FirstTrueStep(HeaderFlags(lines), i);
    FirstTrueStep(StartFlags(lines, js), i);
    CoherenceStep(lines, i);
  }

  lemma CoherenceStep(lines: seq<string>, i: nat)
    requires i < |lines|
    ensures CoherenceDeclaredBefore(lines, i + 1) ==
      if HeaderIndex(lines) == Some(i) then Contains(ToLower(Trim(lines[i])), "coherence")
      else CoherenceDeclaredBefore(lines, i)
  {
    var h := HeaderIndex(lines);
    if h.Some? {
      var names := Contains(ToLower(Trim(lines[h.value])), "coherence");
      assert CoherenceDeclaredBefore(lines, i + 1) == (h.value < i + 1 && names);
      assert CoherenceDeclaredBefore(lines, i) == (h.value < i && names);
    }
  }

  /** One pass of the loop carries the scan state from line `i` to line
      `i + 1`. */
  lemma ScanStep(lines: seq<string>, js: JsNumbers, i: nat,
                 headerFound: bool, dataStarted: bool, hasCoherence: bool, points: seq<Point>,
                 headerFound': bool, dataStarted': bool, hasCoherence': bool, found: seq<Point>)
    requires i < |lines|
    requires Scanned(lines, js, i, headerFound, dataStarted, hasCoherence, points)
    requires LineStep(lines[i], js, headerFound, dataStarted, hasCoherence, headerFound', dataStarted', hasCoherence', found)
    ensures Scanned(lines, js, i + 1, headerFound', dataStarted', hasCoherence', points + found)
  {
    TextScanStep(lines, js, i);
    var t := Trim(lines[i]);
    TextPointsStep(lines, js, i);
    if !Considered(t) {
      SkippedLineStep(lines, js, i);
    } else if !headerFound && MentionsFrequency(t) {
      HeaderLineStep(lines, js, i);
    } else {
      DataLineStep(lines, js, i, headerFound, dataStarted, hasCoherence, dataStarted', found);
    }
  }

  lemma SkippedLineStep(lines: seq<string>, js: JsNumbers, i: nat)
    requires i < |lines| && !Considered(Trim(lines[i]))
    ensures !IsHeaderLine(lines[i]) && !IsStartLine(lines[i], js)
    ensures HeaderIndex(lines) != Some(i)
    ensures LinePoints(lines, js, i) == []
  {
  }

  lemma HeaderLineStep(lines: seq<string>, js: JsNumbers, i: nat)
    requires i < |lines| && Considered(Trim(lines[i])) && MentionsFrequency(Trim(lines[i]))
    requires HeaderIndex(lines).None? || HeaderIndex(lines).value >= i
    ensures IsStartLine(lines[i], js)
    ensures HeaderIndex(lines) == Some(i)
    ensures LinePoints(lines, js, i) == []
  {
    assert IsHeaderLine(lines[i]);
  }

  lemma DataLineStep(lines: seq<string>, js: JsNumbers, i: nat,
                     headerFound: bool, dataStarted: bool, hasCoherence: bool, dataStarted': bool, found: seq<Point>)
    requires i < |lines|
    requires headerFound ==> dataStarted
    requires var h := HeaderIndex(lines); headerFound ==> h.Some? && h.value < i
    requires var s := StartIndex(lines, js); dataStarted <==> s.Some? && s.value < i
    requires hasCoherence == CoherenceDeclaredBefore(lines, i)
    requires var t := Trim(lines[i]);
      && Considered(t) && !(!headerFound && MentionsFrequency(t))
      && dataStarted' == (dataStarted || IsNumericLine(t, js))
      && found == if dataStarted' then RowPoints(t, hasCoherence, js) else []
    ensures HeaderIndex(lines) != Some(i)
    ensures var s := StartIndex(lines, js); dataStarted' <==> s.Some? && s.value < i + 1
    ensures LinePoints(lines, js, i) == found
  {
    TextScanStep(lines, js, i);
    var t := Trim(lines[i]);
    assert HeaderIndex(lines) != Some(i);
    assert IsStartLine(lines[i], js) <==> MentionsFrequency(t) || IsNumericLine(t, js);
    DataLinePoints(lines, js, i, hasCoherence, dataStarted', found);
  }

  lemma DataLinePoints(lines: seq<string>, js: JsNumbers, i: nat, hasCoherence: bool, started: bool, found: seq<Point>)
    requires i < |lines|
    requires var s := StartIndex(lines, js); started <==> s.Some? && s.value < i + 1
    requires hasCoherence == CoherenceDeclaredBefore(lines, i)
    requires HeaderIndex(lines) != Some(i)
    requires var t := Trim(lines[i]);
      Considered(t) && found == if started then RowPoints(t, hasCoherence, js) else []
    ensures LinePoints(lines, js, i) == found
  {
  }

  /** `parseTextTRF`. */
  method ParseTextTRF(text: string, js: JsNumbers) returns (points: seq<Point>)
    ensures points == TextPoints(SplitLines(text), js)
  {
    var lines := SplitLines(text);
    points := [];
    var dataStarted, headerFound, hasCoherence := false, false, false;
    for i := 0 to |lines|
      invariant Scanned(lines, js, i, headerFound, dataStarted, hasCoherence, points)
    {
      var headerFound', dataStarted', hasCoherence', found :=
        ReadTextLine(lines[i], headerFound, dataStarted, hasCoherence, js);
      ScanStep(lines, js, i, headerFound, dataStarted, hasCoherence, points, headerFound', dataStarted', hasCoherence', found);
      headerFound, dataStarted, hasCoherence, points := headerFound', dataStarted', hasCoherence', points + found;
    }
  }

  /** `parseTRF`: the binary reader for a file that looks binary, the text
      parser otherwise. */
  method ParseTRF(buf: seq<byte>, text: string, readF32: seq<byte> -> Option<real>, js: JsNumbers)
    returns (r: Result<seq<Point>, ParseError>)
    ensures !LooksBinary(buf, text) ==> r == Ok(TextPoints(SplitLines(text), js))
    ensures LooksBinary(buf, text) ==> var start := DataStart(buf, text, readF32);
      if start == -1 then r == Err(DataSectionNotFound) else r == Ok(Records(buf, readF32, start))
  {
    var binary := IsBinaryTRF(buf, text);
    if binary {
      r := ParseBinaryTRF(buf, text, readF32);
    } else {
      var points := ParseTextTRF(text, js);
      r := Ok(points);
    }
  }
}
