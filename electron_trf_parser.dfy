/** The older TRF reader of `electron/trfParser.js`, the one the desktop
    side uses: a header/data state machine over the lines of the text,
    and `validateTRFData` with a frequency bound of 1e9. It has no binary
    path, no title skipping, no 22 kHz cutoff and no coherence column. */
module ElectronTrfParser {
  import opened Common
  import opened Text

  /** The header marker. */
  predicate IsHeaderText(t: string)
  {
    Contains(ToLower(t), "frequency (hz)")
  }

  /** `isNumericLine`: the first field parses and is a finite number. */
  predicate IsNumericLine(t: string, js: JsNumbers)
  {
    var first := FirstField(t);
    js.parseFloat(first).Some? && js.toNumber(first).Some?
  }

  /** The header line: a non-blank line whose lower-cased text contains
      "frequency (hz)". */
  predicate IsHeaderLine(line: string)
  {
    var t := Trim(line);
    t != [] && IsHeaderText(t)
  }

  /** A line at which data starts when it has not started yet: a header,
      or a non-blank line whose first field is numeric. */
  predicate IsStartLine(line: string, js: JsNumbers)
  {
    var t := Trim(line);
    t != [] && (IsHeaderText(t) || IsNumericLine(t, js))
  }

  function HeaderFlags(lines: seq<string>): (fs: seq<bool>)
    ensures |fs| == |lines|
    ensures forall j {:trigger fs[j]} {:trigger IsHeaderLine(lines[j])} :: 0 <= j < |lines| ==> fs[j] == IsHeaderLine(lines[j])
  {
    seq(|lines|, j requires 0 <= j < |lines| => IsHeaderLine(lines[j]))
  }

  function StartFlags(lines: seq<string>, js: JsNumbers): (fs: seq<bool>)
    ensures |fs| == |lines|
    ensures forall j {:trigger fs[j]} {:trigger IsStartLine(lines[j], js)} :: 0 <= j < |lines| ==> fs[j] == IsStartLine(lines[j], js)
  {
    seq(|lines|, j requires 0 <= j < |lines| => IsStartLine(lines[j], js))
  }

  /** The one header line: the first line containing "frequency (hz)". */
  function HeaderIndex(lines: seq<string>): (h: Option<nat>)
    ensures h.Some? ==> h.value < |lines| && IsHeaderLine(lines[h.value])
    ensures h.Some? ==> forall j {:trigger IsHeaderLine(lines[j])} :: 0 <= j < h.value ==> !IsHeaderLine(lines[j])
    ensures h.None? ==> forall j {:trigger IsHeaderLine(lines[j])} :: 0 <= j < |lines| ==> !IsHeaderLine(lines[j])
  {
    var r := FirstTrue(HeaderFlags(lines), 0);
    r
  }

  /** The line at which data starts. */
  function StartIndex(lines: seq<string>, js: JsNumbers): (s: Option<nat>)
    ensures s.Some? ==> s.value < |lines| && IsStartLine(lines[s.value], js)
    ensures s.Some? ==> forall j {:trigger IsStartLine(lines[j], js)} :: 0 <= j < s.value ==> !IsStartLine(lines[j], js)
    ensures s.None? ==> forall j {:trigger IsStartLine(lines[j], js)} :: 0 <= j < |lines| ==> !IsStartLine(lines[j], js)
  {
    var r := FirstTrue(StartFlags(lines, js), 0);
    r
  }

  /** The point a trimmed data row yields: at least three tokens whose
      first three all parse; no range check and no coherence. */
  function RowPoint(t: string, js: JsNumbers): (r: Option<Point>)
    ensures r.Some? ==> |Tokens(t)| >= 3 && r.value.coherence.None?
    ensures r.Some? ==>
      && js.parseFloat(Tokens(t)[0]) == Some(r.value.frequency)
      && js.parseFloat(Tokens(t)[1]) == Some(r.value.magnitude)
      && js.parseFloat(Tokens(t)[2]) == Some(r.value.phase)
    ensures r.None? <==>
      || |Tokens(t)| < 3
      || js.parseFloat(Tokens(t)[0]).None? || js.parseFloat(Tokens(t)[1]).None? || js.parseFloat(Tokens(t)[2]).None?
  {
    var vs := Tokens(t);
    if |vs| < 3 then None
    else
      var f, m, p := js.parseFloat(vs[0]), js.parseFloat(vs[1]), js.parseFloat(vs[2]);
      if f.Some? && m.Some? && p.Some? then Some(Point(f.value, m.value, p.value, None)) else None
  }

  function RowPoints(t: string, js: JsNumbers): (r: seq<Point>)
    ensures |r| <= 1
    ensures forall k :: 0 <= k < |r| ==> r[k].coherence.None?
  {
    match RowPoint(t, js)
    case Some(p) => [p]
    case None => []
  }

  /** The points line `j` contributes: none unless it is non-blank, data
      has started by then, and it is not the header line. */
  function LinePoints(lines: seq<string>, js: JsNumbers, j: nat): (r: seq<Point>)
    requires j < |lines|
    ensures |r| <= 1
    ensures forall k :: 0 <= k < |r| ==> r[k].coherence.None?
  {
    var t := Trim(lines[j]);
    var s := StartIndex(lines, js);
    if t != [] && s.Some? && s.value <= j && HeaderIndex(lines) != Some(j) then RowPoints(t, js) else []
  }

  function LinePointsAll(lines: seq<string>, js: JsNumbers): (parts: seq<seq<Point>>)
    ensures |parts| == |lines|
    ensures forall j {:trigger parts[j]} :: 0 <= j < |lines| ==> parts[j] == LinePoints(lines, js, j)
  {
    seq(|lines|, j requires 0 <= j < |lines| => LinePoints(lines, js, j))
  }

  /** The points of the first `n` lines, in line order. */
  function PointsUpTo(lines: seq<string>, js: JsNumbers, n: nat): seq<Point>
    requires n <= |lines|
  {
    Concat(LinePointsAll(lines, js)[..n])
  }

  function Points(lines: seq<string>, js: JsNumbers): seq<Point>
  {
    PointsUpTo(lines, js, |lines|)
  }

  lemma PointsStep(lines: seq<string>, js: JsNumbers, i: nat)
    requires i < |lines|
    ensures PointsUpTo(lines, js, i + 1) == PointsUpTo(lines, js, i) + LinePoints(lines, js, i)
  {
    ConcatStep(LinePointsAll(lines, js), i);
  }

  /** At most one point per line, none with a coherence. */
  lemma PointsWithoutCoherence(lines: seq<string>, js: JsNumbers)
    ensures |Points(lines, js)| <= |lines|
    ensures forall k :: 0 <= k < |Points(lines, js)| ==> Points(lines, js)[k].coherence.None?
  {
    var all := LinePointsAll(lines, js);
    var parts := all[..|lines|];
    var ps := Concat(parts);
    forall j | 0 <= j < |parts|
      ensures |parts[j]| <= 1
    {
      assert parts[j] == all[j];
    }
    ConcatOfSingletons(parts);
    forall k | 0 <= k < |ps|
      ensures ps[k].coherence.None?
    {
      ConcatMember(parts, k);
      var j, m :| 0 <= j < |parts| && 0 <= m < |parts[j]| && ps[k] == parts[j][m];
      assert parts[j] == LinePoints(lines, js, j);
    }
  }

  /** Blank lines and the header line yield no point; before data has
      started, neither does any line. */
  lemma SilentLines(lines: seq<string>, js: JsNumbers, j: nat)
    requires j < |lines|
    requires
      || Trim(lines[j]) == []
      || HeaderIndex(lines) == Some(j)
      || (forall i :: 0 <= i <= j ==> !IsStartLine(lines[i], js))
    ensures LinePoints(lines, js, j) == []
  {
  }

  /** The first line whose first field is numeric, when no header line
      comes before it, starts the data and is itself read as a row: with
      three parsable leading tokens it yields exactly their point, whatever
      the size of the frequency. */
  lemma FirstNumericLineIsRead(lines: seq<string>, js: JsNumbers, j: nat)
    requires j < |lines|
    requires var t := Trim(lines[j]); t != [] && IsNumericLine(t, js) && !IsHeaderText(t)
    requires forall i :: 0 <= i < j ==> !IsStartLine(lines[i], js)
    ensures StartIndex(lines, js) == Some(j)
    ensures LinePoints(lines, js, j) == RowPoints(Trim(lines[j]), js)
  {
    var t := Trim(lines[j]);
    assert IsStartLine(lines[j], js);
    var s := StartIndex(lines, js);
    assert s.Some? && s.value <= j;
    assert s == Some(j);
    assert !IsHeaderLine(lines[j]);
    assert HeaderIndex(lines) != Some(j);
    assert LinePoints(lines, js, j) == RowPoints(t, js);
  }

  /** A header line starts the data for the lines after it. */
  lemma HeaderStartsData(lines: seq<string>, js: JsNumbers)
    requires HeaderIndex(lines).Some?
    ensures StartIndex(lines, js).Some? && StartIndex(lines, js).value <= HeaderIndex(lines).value
  {
    var h := HeaderIndex(lines).value;
    assert IsStartLine(lines[h], js);
  }

  /** What one pass of the loop of `parseTRF` does with the raw line `raw`:
      blank lines change nothing; the first line containing
      "frequency (hz)" is the header, which starts the data and yields no
      point; any other line starts the data when its first field is
      numeric and, once the data has started, contributes its row's point. */
  predicate LineStep(raw: string, js: JsNumbers, headerFound: bool, dataStarted: bool,
                     headerFound': bool, dataStarted': bool, found: seq<Point>)
  {
    var t := Trim(raw);
    if t == [] then
      headerFound' == headerFound && dataStarted' == dataStarted && found == []
    else if !headerFound && IsHeaderText(t) then
      headerFound' && dataStarted' && found == []
    else
      && headerFound' == headerFound
      && dataStarted' == (dataStarted || IsNumericLine(t, js))
      && found == if dataStarted' then RowPoints(t, js) else []
  }

  /** One pass of the loop of `parseTRF`. */
  method ReadLine(raw: string, headerFound: bool, dataStarted: bool, js: JsNumbers)
    returns (headerFound': bool, dataStarted': bool, found: seq<Point>)
    ensures LineStep(raw, js, headerFound, dataStarted, headerFound', dataStarted', found)
  {
    headerFound', dataStarted', found := headerFound, dataStarted, [];
    var line := Trim(raw);
    if line == [] {
      return;
    }
    if !headerFound && Contains(ToLower(line), "frequency (hz)") {
      headerFound' := true;
      dataStarted' := true;
      return;
    }
    if !dataStarted && IsNumericLine(line, js) {
      dataStarted' := true;
    }
    if dataStarted' {
      var values := Tokens(line);
      if |values| >= 3 {
        var frequency := js.parseFloat(values[0]);
        var magnitude := js.parseFloat(values[1]);
        var phase := js.parseFloat(values[2]);
        if frequency.Some? && magnitude.Some? && phase.Some? {
          found := [Point(frequency.value, magnitude.value, phase.value, None)];
        }
      }
    }
  }

  /** The state of `parseTRF` after the first `i` lines. */
  predicate Scanned(lines: seq<string>, js: JsNumbers, i: nat, headerFound: bool, dataStarted: bool, points: seq<Point>)
    requires i <= |lines|
  {
    var h, s := HeaderIndex(lines), StartIndex(lines, js);
    && (headerFound <==> h.Some? && h.value < i)
    && (dataStarted <==> s.Some? && s.value < i)
    && (headerFound ==> dataStarted)
    && points == PointsUpTo(lines, js, i)
  }

  /** One pass of the loop carries the scan state from line `i` to line
      `i + 1`. */
  lemma ScanStep(lines: seq<string>, js: JsNumbers, i: nat, headerFound: bool, dataStarted: bool, points: seq<Point>,
                 headerFound': bool, dataStarted': bool, found: seq<Point>)
    requires i < |lines|
    requires Scanned(lines, js, i, headerFound, dataStarted, points)
    requires LineStep(lines[i], js, headerFound, dataStarted, headerFound', dataStarted', found)
    ensures Scanned(lines, js, i + 1, headerFound', dataStarted', points + found)
  {
    FirstTrueStep(HeaderFlags(lines), i);
    FirstTrueStep(StartFlags(lines, js), i);
    PointsStep(lines, js, i);
    var t := Trim(lines[i]);
    if t == [] {
      assert !IsHeaderLine(lines[i]) && !IsStartLine(lines[i], js);
    } else if !headerFound && IsHeaderText(t) {
      assert IsHeaderLine(lines[i]) && IsStartLine(lines[i], js);
    } else {
      DataLineStep(lines, js, i, headerFound, dataStarted, dataStarted', found);
    }
  }

  lemma DataLineStep(lines: seq<string>, js: JsNumbers, i: nat,
                     headerFound: bool, dataStarted: bool, dataStarted': bool, found: seq<Point>)
    requires i < |lines|
    requires headerFound ==> dataStarted
    requires var h := HeaderIndex(lines); headerFound <==> h.Some? && h.value < i
    requires var s := StartIndex(lines, js); dataStarted <==> s.Some? && s.value < i
    requires var t := Trim(lines[i]);
      && t != [] && !(!headerFound && IsHeaderText(t))
      && dataStarted' == (dataStarted || IsNumericLine(t, js))
      && found == if dataStarted' then RowPoints(t, js) else []
    ensures HeaderIndex(lines) != Some(i)
    ensures var s := StartIndex(lines, js); dataStarted' <==> s.Some? && s.value < i + 1
    ensures LinePoints(lines, js, i) == found
  {
    FirstTrueStep(StartFlags(lines, js), i);
    var t := Trim(lines[i]);
    assert HeaderIndex(lines) != Some(i);
    assert IsStartLine(lines[i], js) <==> IsHeaderText(t) || IsNumericLine(t, js);
  }

  /** `parseTRF`. */
  method ParseTRF(text: string, js: JsNumbers) returns (points: seq<Point>)
    ensures points == Points(SplitLines(text), js)
  {
    var lines := SplitLines(text);
    points := [];
    var dataStarted, headerFound := false, false;
    for i := 0 to |lines|
      invariant Scanned(lines, js, i, headerFound, dataStarted, points)
    {
      var headerFound', dataStarted', found := ReadLine(lines[i], headerFound, dataStarted, js);
      ScanStep(lines, js, i, headerFound, dataStarted, points, headerFound', dataStarted', found);
      headerFound, dataStarted, points := headerFound', dataStarted', points + found;
    }
  }

  /** `validateTRFData`: frequencies must lie within [0, 1e9]. */
  function ValidateTRFData(ps: seq<Point>): (r: Result<bool, ValidationError>)
    ensures r == Err(NoValidPoints) <==> ps == []
    ensures r == Err(FrequencyOutOfRange) <==>
      ps != [] && exists i :: 0 <= i < |ps| && !(0.0 <= ps[i].frequency <= 1000000000.0)
    ensures r.Ok? <==>
      ps != [] && forall i :: 0 <= i < |ps| ==>
        0.0 <= ps[i].frequency <= 1000000000.0 && -200.0 <= ps[i].magnitude <= 200.0
  {
    ValidatePoints(ps, 1000000000.0)
  }
}
