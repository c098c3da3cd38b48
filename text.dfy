/** The JavaScript string operations the parsers and the exporter rely on:
    `trim`, splitting on `/\s+/`, `split` on one character, `join`,
    `includes`, `startsWith`, ASCII `toLowerCase`, `padEnd` and the decimal
    rendering of an index in a template string. */
module Text {

  /** The characters JavaScript's `\s` and `String.prototype.trim` treat as
      white space (WhiteSpace and LineTerminator of ECMAScript). */
  predicate IsSpace(c: char)
  {
    || c == ' ' || c == '\t' || c == '\n' || c == '\r' || c == '\U{000B}' || c == '\U{000C}'
    || c == '\U{00A0}' || c == '\U{1680}' || ('\U{2000}' <= c <= '\U{200A}')
    || c == '\U{2028}' || c == '\U{2029}' || c == '\U{202F}' || c == '\U{205F}'
    || c == '\U{3000}' || c == '\U{FEFF}'
  }

  /** The characters of `\d`. */
  predicate IsDigit(c: char)
  {
    '0' <= c <= '9'
  }

  function TrimStart(s: string): (r: string)
    ensures |r| <= |s| && r == s[|s| - |r|..]
    ensures r != [] ==> !IsSpace(r[0])
    ensures forall j :: 0 <= j < |s| - |r| ==> IsSpace(s[j])
  {
    if |s| > 0 && IsSpace(s[0]) then TrimStart(s[1..]) else s
  }

  function TrimEnd(s: string): (r: string)
    ensures |r| <= |s| && r == s[..|r|]
    ensures r != [] ==> !IsSpace(r[|r| - 1])
    ensures forall j :: |r| <= j < |s| ==> IsSpace(s[j])
  {
    if |s| > 0 && IsSpace(s[|s| - 1]) then TrimEnd(s[..|s| - 1]) else s
  }

  /** `s.trim()`: no white space is left at either end, and the result is
      empty exactly when `s` is all white space. */
  function Trim(s: string): (r: string)
    ensures |r| <= |s|
    ensures r != [] ==> !IsSpace(r[0]) && !IsSpace(r[|r| - 1])
    ensures r == [] <==> forall j :: 0 <= j < |s| ==> IsSpace(s[j])
  {
    var t := TrimStart(s);
    var r := TrimEnd(t);
    assert r != [] ==> r[0] == t[0];
    assert t != [] ==> r != [];
    r
  }

  /** The length of the leading run of non-white-space characters. */
  function WordLength(s: string): (n: nat)
    ensures n <= |s|
    ensures forall j :: 0 <= j < n ==> !IsSpace(s[j])
    ensures n < |s| ==> IsSpace(s[n])
  {
    if |s| == 0 || IsSpace(s[0]) then 0 else 1 + WordLength(s[1..])
  }

  /** `s.split(/\s+/)[0]`: everything before the first white space. */
  function FirstField(s: string): (f: string)
    ensures forall j :: 0 <= j < |f| ==> !IsSpace(f[j])
  {
    s[..WordLength(s)]
  }

  /** A non-empty run of non-white-space characters. */
  predicate IsWord(w: string)
  {
    w != [] && forall j :: 0 <= j < |w| ==> !IsSpace(w[j])
  }

  /** `s.split(/\s+/).filter(v => v !== '')`: the maximal runs of
      non-white-space characters, in order. */
  function Tokens(s: string): seq<string>
    decreases |s|
  {
    var t := TrimStart(s);
    if t == [] then []
    else
      var n := WordLength(t);
      assert n > 0 by { assert !IsSpace(t[0]); }
      [t[..n]] + Tokens(t[n..])
  }

  /** Every token is a non-empty run without white space. */
  lemma {:induction false} TokensAreWords(s: string)
    ensures forall i :: 0 <= i < |Tokens(s)| ==> IsWord(Tokens(s)[i])
    decreases |s|
  {
    var t := TrimStart(s);
    if t != [] {
      var n := WordLength(t);
      assert n > 0 by { assert !IsSpace(t[0]); }
      var word := t[..n];
      assert IsWord(word) by {
        forall j | 0 <= j < n ensures !IsSpace(word[j]) {
          assert word[j] == t[j];
        }
      }
      var rest := Tokens(t[n..]);
      TokensAreWords(t[n..]);
      assert Tokens(s) == [word] + rest;
      forall i | 0 <= i < |Tokens(s)| ensures IsWord(Tokens(s)[i]) {
        if i > 0 {
          assert Tokens(s)[i] == rest[i - 1];
        }
      }
    }
  }

  /** On a line that does not start with white space (a trimmed, non-empty
      line), the first `/\s+/` field is the first token. */
  lemma FirstFieldIsFirstToken(s: string)
    requires s != [] && !IsSpace(s[0])
    ensures |Tokens(s)| > 0 && Tokens(s)[0] == FirstField(s)
  {
    assert TrimStart(s) == s;
  }

  predicate StartsWith(s: string, p: string)
  {
    |p| <= |s| && s[..|p|] == p
  }

  /** `s.includes(p)`. */
  predicate Contains(s: string, p: string)
    decreases |s|
  {
    StartsWith(s, p) || (|s| > 0 && Contains(s[1..], p))
  }

  /** A string containing `p + q` contains `p`. */
  lemma {:induction false} ContainsPrefix(s: string, p: string, q: string)
    requires Contains(s, p + q)
    ensures Contains(s, p)
  {
    if StartsWith(s, p + q) {
      assert s[..|p|] == (p + q)[..|p|] == p;
    } else {
      ContainsPrefix(s[1..], p, q);
    }
  }

  function LowerChar(c: char): (d: char)
  {
    if 'A' <= c <= 'Z' then (c as int + 32) as char else c
  }

  /** `s.toLowerCase()` restricted to ASCII letters. */
  function ToLower(s: string): (r: string)
    ensures |r| == |s|
    ensures forall i :: 0 <= i < |s| ==> r[i] == LowerChar(s[i])
  {
    seq(|s|, i requires 0 <= i < |s| => LowerChar(s[i]))
  }

  /** The index of the first `c` in `s`, or `|s|` when there is none. */
  function IndexOf(s: string, c: char): (k: nat)
    ensures k <= |s|
    ensures forall j :: 0 <= j < k ==> s[j] != c
    ensures k < |s| ==> s[k] == c
  {
    if |s| == 0 || s[0] == c then 0 else 1 + IndexOf(s[1..], c)
  }

  /** `s.split(c)` for a one-character separator: at least one piece, and
      no piece contains the separator. */
  function Split(s: string, c: char): (r: seq<string>)
    ensures |r| >= 1
    ensures forall i :: 0 <= i < |r| ==> c !in r[i]
    decreases |s|
  {
    var k := IndexOf(s, c);
    if k == |s| then [s] else [s[..k]] + Split(s[k + 1..], c)
  }

  /** `xs.join(sep)`. */
  function Join(xs: seq<string>, sep: string): string
  {
    if |xs| == 0 then ""
    else if |xs| == 1 then xs[0]
    else xs[0] + sep + Join(xs[1..], sep)
  }

  /** Splitting a join on its separator character gives the pieces back,
      provided none of them contains the separator. */
  lemma {:induction false} SplitJoin(xs: seq<string>, c: char)
    requires |xs| >= 1
    requires forall i :: 0 <= i < |xs| ==> c !in xs[i]
    ensures Split(Join(xs, [c]), c) == xs
  {
    var x := xs[0];
    if |xs| == 1 {
      assert IndexOf(x, c) == |x|;
    } else {
      var rest := Join(xs[1..], [c]);
      var s := x + [c] + rest;
      assert Join(xs, [c]) == s;
      assert IndexOf(s, c) == |x| by {
        assert forall j :: 0 <= j < |x| ==> s[j] == x[j];
        IndexOfFirst(s, c, |x|);
      }
      assert s[..|x|] == x;
      assert s[|x| + 1..] == rest;
      SplitJoin(xs[1..], c);
    }
  }

  lemma {:induction false} IndexOfFirst(s: string, c: char, k: nat)
    requires k < |s| && s[k] == c
    requires forall j :: 0 <= j < k ==> s[j] != c
    ensures IndexOf(s, c) == k
  {
    if k > 0 {
      IndexOfFirst(s[1..], c, k - 1);
    }
  }

  /** The length of the first `k` pieces of a split, each with its separator:
      where piece `k` begins in the split string. */
  function PieceStart(pieces: seq<string>, k: nat): nat
    requires k <= |pieces|
  {
    if k == 0 then 0 else PieceStart(pieces, k - 1) + |pieces[k - 1]| + 1
  }

  /** `p` occurs in `s` starting at offset `i`. */
  predicate OccursAt(s: string, i: int, p: string)
  {
    0 <= i && i + |p| <= |s| && s[i..i + |p|] == p
  }

  /** Piece `k` of `ps` stands in `s` at `PieceStart(ps, k)`, and a
      separator follows it unless it is the last piece. */
  predicate PieceAt(s: string, ps: seq<string>, k: nat, c: char)
    requires k < |ps|
  {
    var at := PieceStart(ps, k);
    && at + |ps[k]| <= |s| && s[at..at + |ps[k]|] == ps[k]
    && (k + 1 < |ps| ==> at + |ps[k]| < |s| && s[at + |ps[k]|] == c)
  }

  lemma PieceOccurs(s: string, ps: seq<string>, k: nat, c: char)
    requires k < |ps| && PieceAt(s, ps, k, c)
    ensures OccursAt(s, PieceStart(ps, k), ps[k])
  {
  }

  /** Every piece of `Split(s, c)` is where `PieceStart` says, followed by
      its separator. */
  lemma {:induction false} SplitPieceAt(s: string, c: char, k: nat)
    requires k < |Split(s, c)|
    ensures PieceAt(s, Split(s, c), k, c)
    decreases |s|
  {
    var ps := Split(s, c);
    var i := IndexOf(s, c);
    if i == |s| {
      assert ps == [s];
    } else {
      var tail := s[i + 1..];
      var qs := Split(tail, c);
      assert ps == [s[..i]] + qs;
      if k == 0 {
        assert PieceStart(ps, 0) == 0 && ps[0] == s[..i];
      } else {
        SplitPieceAt(tail, c, k - 1);
        PieceAtShift(s, i, ps, qs, k, c);
      }
    }
  }

  /** A piece found in the text after the first separator (at `i`) is found
      in the whole text, `i + 1` further on. */
  lemma PieceAtShift(s: string, i: nat, ps: seq<string>, qs: seq<string>, k: nat, c: char)
    requires i < |s| && 1 <= k < |ps| && |ps| == |qs| + 1 && ps[1..] == qs && |ps[0]| == i
    requires PieceAt(s[i + 1..], qs, k - 1, c)
    ensures PieceAt(s, ps, k, c)
  {
    var tail := s[i + 1..];
    PieceStartShift(ps, qs, k);
    var at, bt := PieceStart(ps, k), PieceStart(qs, k - 1);
    var w := ps[k];
    assert at == i + 1 + bt;
    assert w == qs[k - 1];
    assert s[at..at + |w|] == tail[bt..bt + |w|];
    if k + 1 < |ps| {
      assert s[at + |w|] == tail[bt + |w|];
    }
  }

  lemma {:induction false} PieceStartShift(ps: seq<string>, qs: seq<string>, k: nat)
    requires 1 <= k <= |ps| && |ps| == |qs| + 1 && ps[1..] == qs
    ensures PieceStart(ps, k) == |ps[0]| + 1 + PieceStart(qs, k - 1)
  {
    if k > 1 {
      PieceStartShift(ps, qs, k - 1);
      assert ps[k - 1] == qs[k - 2];
    }
  }

  function DropCarriageReturn(s: string): string
  {
    if |s| > 0 && s[|s| - 1] == '\r' then s[..|s| - 1] else s
  }

  /** `text.split(/\r?\n/)`: split at every line feed, where a carriage
      return just before a line feed belongs to the separator. */
  function SplitLines(text: string): (lines: seq<string>)
    ensures |lines| == |Split(text, '\n')|
  {
    var pieces := Split(text, '\n');
    seq(|pieces|, i requires 0 <= i < |pieces| =>
      if i < |pieces| - 1 then DropCarriageReturn(pieces[i]) else pieces[i])
  }

  /** Text without carriage returns splits into its line-feed pieces. */
  lemma SplitLinesWithoutCarriageReturns(text: string)
    requires '\r' !in text
    ensures SplitLines(text) == Split(text, '\n')
  {
    var pieces := Split(text, '\n');
    var lines := SplitLines(text);
    forall i | 0 <= i < |pieces| - 1
      ensures lines[i] == pieces[i]
    {
      var p := pieces[i];
      if |p| > 0 {
        SplitPieceAt(text, '\n', i);
        var at := PieceStart(pieces, i);
        assert p[|p| - 1] == text[at + |p| - 1];
      }
    }
    assert lines == pieces;
  }

  predicate EndsWithCarriageReturn(s: string)
  {
    |s| > 0 && s[|s| - 1] == '\r'
  }

  /** How many of the first `k` pieces end in a carriage return: the
      carriage returns that `SplitLines` drops before line `k`. */
  function CrBreaks(pieces: seq<string>, k: nat): (n: nat)
    requires k <= |pieces|
    ensures n <= k
  {
    if k == 0 then 0
    else CrBreaks(pieces, k - 1) + (if EndsWithCarriageReturn(pieces[k - 1]) then 1 else 0)
  }

  /** Counting the lines of `SplitLines` with one separator character each
      falls short of where line `k` begins by one for every CRLF line end
      before it. */
  lemma {:induction false} LineStartShortfall(text: string, k: nat)
    requires k < |SplitLines(text)|
    ensures PieceStart(SplitLines(text), k) + CrBreaks(Split(text, '\n'), k) == PieceStart(Split(text, '\n'), k)
  {
    if k > 0 {
      var pieces, lines := Split(text, '\n'), SplitLines(text);
      LineStartShortfall(text, k - 1);
      var p := pieces[k - 1];
      assert lines[k - 1] == DropCarriageReturn(p);
      assert |DropCarriageReturn(p)| + (if EndsWithCarriageReturn(p) then 1 else 0) == |p|;
      assert PieceStart(lines, k) == PieceStart(lines, k - 1) + |lines[k - 1]| + 1;
      assert PieceStart(pieces, k) == PieceStart(pieces, k - 1) + |p| + 1;
    }
  }

  /** Line `k` of `SplitLines` begins where piece `k` of the line-feed
      split begins. */
  lemma LineAtPieceStart(text: string, k: nat)
    requires k < |SplitLines(text)|
    ensures OccursAt(text, PieceStart(Split(text, '\n'), k), SplitLines(text)[k])
  {
    var pieces := Split(text, '\n');
    SplitPieceAt(text, '\n', k);
    var at := PieceStart(pieces, k);
    var p, line := pieces[k], SplitLines(text)[k];
    assert text[at..at + |p|] == p;
    assert |line| <= |p| && line == p[..|line|];
    assert text[at..at + |line|] == p[..|line|];
  }

  /** A CRLF line end before line `k` is counted. */
  lemma {:induction false} CrBreakCounted(pieces: seq<string>, k: nat, j: nat)
    requires j < k <= |pieces| && EndsWithCarriageReturn(pieces[j])
    ensures CrBreaks(pieces, k) > 0
  {
    if j < k - 1 {
      CrBreakCounted(pieces, k - 1, j);
    }
  }

  function DigitChar(d: nat): (c: char)
    requires d < 10
    ensures IsDigit(c)
  {
    "0123456789"[d]
  }

  /** The decimal rendering of a natural number, as `${n}` gives it. */
  function NatToString(n: nat): (s: string)
    ensures |s| >= 1
    ensures forall i :: 0 <= i < |s| ==> IsDigit(s[i])
  {
    if n < 10 then [DigitChar(n)] else NatToString(n / 10) + [DigitChar(n % 10)]
  }

  /** `s.padEnd(n, c)`. */
  function PadEnd(s: string, n: nat, c: char): (r: string)
    ensures |r| == if |s| < n then n else |s|
    ensures r[..|s|] == s
    ensures forall i :: |s| <= i < |r| ==> r[i] == c
  {
    if |s| >= n then s else s + seq(n - |s|, _ => c)
  }

  /** A character absent from a string is absent from each of its pieces. */
  lemma {:induction false} SplitPiecesAvoid(s: string, c: char, x: char)
    requires x !in s
    ensures forall i :: 0 <= i < |Split(s, c)| ==> x !in Split(s, c)[i]
    decreases |s|
  {
    var k := IndexOf(s, c);
    if k < |s| {
      assert forall j :: 0 <= j < k ==> s[..k][j] == s[j];
      var rest := s[k + 1..];
      assert forall j :: 0 <= j < |rest| ==> rest[j] == s[k + 1 + j];
      SplitPiecesAvoid(s[k + 1..], c, x);
      assert Split(s, c) == [s[..k]] + Split(s[k + 1..], c);
    }
  }
}
