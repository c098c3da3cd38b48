/** Shared vocabulary of the measurement pipeline: optional values, results,
    the measurement point, the abstract JavaScript number conversions and
    the min/max/sum reductions that the analysis code takes with
    `Math.min(...xs)`, `Math.max(...xs)` and `reduce`. */
module Common {

  datatype Option<+T> = None | Some(value: T)

  datatype Result<+T, +E> = Ok(value: T) | Err(error: E)

  /** One byte of a file buffer. */
  type byte = x: int | 0 <= x < 256

  /** One frequency-domain sample: frequency in Hz, magnitude in dB, phase in
      degrees and an optional coherence. */
  datatype Point = Point(frequency: real, magnitude: real, phase: real, coherence: Option<real>)

  /** The two JavaScript string-to-number conversions the parsers use, left
      abstract. `parseFloat(t)` reads the longest numeric prefix of `t`;
      `toNumber(t)` is `Number(t)`, which needs the whole string to be
      numeric. `None` stands for NaN; `toNumber` also gives `None` for an
      infinite value, so `toNumber(t).Some?` is JavaScript's `isFinite(t)`.
      The infinities `parseFloat` returns for "Infinity" or "1e999" have no
      value here: such a field reads as a finite number or as `None`. */
  datatype JsNumbers = JsNumbers(parseFloat: string -> Option<real>, toNumber: string -> Option<real>)

  /** The first index at or after `i` whose flag is set. */
  function FirstTrue(flags: seq<bool>, i: nat): (r: Option<nat>)
    requires i <= |flags|
    ensures r.Some? ==> i <= r.value < |flags| && flags[r.value]
    ensures r.Some? ==> forall j :: i <= j < r.value ==> !flags[j]
    ensures r.None? ==> forall j :: i <= j < |flags| ==> !flags[j]
    decreases |flags| - i
  {
    if i == |flags| then None else if flags[i] then Some(i) else FirstTrue(flags, i + 1)
  }

  /** The first set flag lies before `i + 1` exactly when it lies
      before `i` or flag `i` is set. */
  lemma FirstTrueStep(flags: seq<bool>, i: nat)
    requires i < |flags|
    ensures var r := FirstTrue(flags, 0);
      (r.Some? && r.value < i + 1) <==> ((r.Some? && r.value < i) || flags[i])
  {
  }

  /** The parts joined end to end, in order. */
  function Concat<T>(parts: seq<seq<T>>): seq<T>
  {
    if parts == [] then [] else Concat(parts[..|parts| - 1]) + parts[|parts| - 1]
  }

  lemma ConcatStep<T>(parts: seq<seq<T>>, i: nat)
    requires i < |parts|
    ensures Concat(parts[..i + 1]) == Concat(parts[..i]) + parts[i]
  {
    assert parts[..i + 1][..i] == parts[..i];
  }

  /** Parts of at most one element each join to at most one element per
      part. */
  lemma {:induction false} ConcatOfSingletons<T>(parts: seq<seq<T>>)
    requires forall j :: 0 <= j < |parts| ==> |parts[j]| <= 1
    ensures |Concat(parts)| <= |parts|
  {
    if parts != [] {
      ConcatOfSingletons(parts[..|parts| - 1]);
    }
  }

  /** Every element of the joined parts comes from one of the parts. */
  lemma {:induction false} ConcatMember<T>(parts: seq<seq<T>>, k: nat)
    requires k < |Concat(parts)|
    ensures exists j, m :: 0 <= j < |parts| && 0 <= m < |parts[j]| && Concat(parts)[k] == parts[j][m]
  {
    var init, last := parts[..|parts| - 1], parts[|parts| - 1];
    if k < |Concat(init)| {
      ConcatMember(init, k);
      var j, m :| 0 <= j < |init| && 0 <= m < |init[j]| && Concat(init)[k] == init[j][m];
      assert parts[j] == init[j];
    } else {
      assert Concat(parts)[k] == last[k - |Concat(init)|];
    }
  }

  lemma ConcatAssociative<T>(a: seq<T>, b: seq<T>, c: seq<T>)
    ensures a + (b + c) == (a + b) + c
  {
  }

  /** `xs.filter(keep)`: the elements `keep` accepts, in their order. */
  function Filter<T>(xs: seq<T>, keep: T -> bool): (r: seq<T>)
    ensures |r| <= |xs|
  {
    if xs == [] then [] else (if keep(xs[0]) then [xs[0]] else []) + Filter(xs[1..], keep)
  }

  /** An element survives the filter exactly when it is in the input and
      accepted. */
  lemma {:induction false} FilterMembers<T>(xs: seq<T>, keep: T -> bool, x: T)
    ensures x in Filter(xs, keep) <==> x in xs && keep(x)
  {
    if xs != [] {
      FilterMembers(xs[1..], keep, x);
      assert xs == [xs[0]] + xs[1..];
    }
  }

  /** Filtering keeps every copy of an accepted element and drops every copy
      of a rejected one. */
  lemma {:induction false} FilterMultiset<T>(xs: seq<T>, keep: T -> bool, x: T)
    ensures multiset(Filter(xs, keep))[x] == if keep(x) then multiset(xs)[x] else 0
  {
    if xs != [] {
      FilterMultiset(xs[1..], keep, x);
      assert xs == [xs[0]] + xs[1..];
    }
  }

  /** A filter that accepts every element changes nothing. */
  lemma {:induction false} FilterAccepted<T>(xs: seq<T>, keep: T -> bool)
    requires forall i :: 0 <= i < |xs| ==> keep(xs[i])
    ensures Filter(xs, keep) == xs
  {
    if xs != [] {
      FilterAccepted(xs[1..], keep);
    }
  }

  /** Every element of a filtered list is accepted. */
  lemma {:induction false} FilterAccepts<T>(xs: seq<T>, keep: T -> bool)
    ensures forall i :: 0 <= i < |Filter(xs, keep)| ==> keep(Filter(xs, keep)[i])
  {
    if xs != [] {
      FilterAccepts(xs[1..], keep);
      var head, rest := if keep(xs[0]) then [xs[0]] else [], Filter(xs[1..], keep);
      assert Filter(xs, keep) == head + rest;
      forall i | 0 <= i < |head + rest|
        ensures keep((head + rest)[i])
      {
        if i >= |head| {
          assert (head + rest)[i] == rest[i - |head|];
        }
      }
    }
  }

  /** Filtering twice with the same test is filtering once. */
  lemma FilterIdempotent<T>(xs: seq<T>, keep: T -> bool)
    ensures Filter(Filter(xs, keep), keep) == Filter(xs, keep)
  {
    FilterAccepts(xs, keep);
    FilterAccepted(Filter(xs, keep), keep);
  }

  /** `Math.ceil`. */
  function Ceil(x: real): (n: int)
    ensures x <= n as real < x + 1.0
  {
    -((-x).Floor)
  }

  function Frequencies(ps: seq<Point>): (fs: seq<real>)
    ensures |fs| == |ps|
    ensures forall i :: 0 <= i < |ps| ==> fs[i] == ps[i].frequency
  {
    seq(|ps|, i requires 0 <= i < |ps| => ps[i].frequency)
  }

  function Magnitudes(ps: seq<Point>): (ms: seq<real>)
    ensures |ms| == |ps|
    ensures forall i :: 0 <= i < |ps| ==> ms[i] == ps[i].magnitude
  {
    seq(|ps|, i requires 0 <= i < |ps| => ps[i].magnitude)
  }

  function Phases(ps: seq<Point>): (hs: seq<real>)
    ensures |hs| == |ps|
    ensures forall i :: 0 <= i < |ps| ==> hs[i] == ps[i].phase
  {
    seq(|ps|, i requires 0 <= i < |ps| => ps[i].phase)
  }

  /** The smallest element, as `Math.min(...xs)` gives for a non-empty list. */
  function Min(xs: seq<real>): (m: real)
    requires |xs| > 0
    ensures m in xs
    ensures forall i :: 0 <= i < |xs| ==> m <= xs[i]
  {
    if |xs| == 1 then xs[0]
    else
      var rest := Min(xs[1..]);
      if xs[0] <= rest then xs[0] else rest
  }

  /** The largest element, as `Math.max(...xs)` gives for a non-empty list. */
  function Max(xs: seq<real>): (m: real)
    requires |xs| > 0
    ensures m in xs
    ensures forall i :: 0 <= i < |xs| ==> xs[i] <= m
  {
    if |xs| == 1 then xs[0]
    else
      var rest := Max(xs[1..]);
      if rest <= xs[0] then xs[0] else rest
  }

  /** All elements lie in [lo, hi] exactly when the minimum and the maximum
      do. */
  lemma WithinByExtremes(xs: seq<real>, lo: real, hi: real)
    requires |xs| > 0
    ensures (lo <= Min(xs) && Max(xs) <= hi) <==> forall i :: 0 <= i < |xs| ==> lo <= xs[i] <= hi
  {
  }

  datatype ValidationError = NoValidPoints | FrequencyOutOfRange | MagnitudeOutOfRange

  predicate FrequencyWithin(p: Point, maxFrequency: real)
  {
    0.0 <= p.frequency <= maxFrequency
  }

  predicate MagnitudePlausible(p: Point)
  {
    -200.0 <= p.magnitude <= 200.0
  }

  /** The `validateTRFData` check both parsers share, up to the largest
      frequency they accept: an error for an empty list, then for a
      frequency outside [0, maxFrequency], then for a magnitude outside
      [-200, 200]; `true` otherwise. The checks go through the minimum and
      the maximum, so each error holds exactly when some point is out of
      range. */
  function ValidatePoints(ps: seq<Point>, maxFrequency: real): (r: Result<bool, ValidationError>)
    ensures r.Ok? ==> r.value
    ensures r == Err(NoValidPoints) <==> ps == []
    ensures r == Err(FrequencyOutOfRange) <==>
      ps != [] && exists i :: 0 <= i < |ps| && !FrequencyWithin(ps[i], maxFrequency)
    ensures r == Err(MagnitudeOutOfRange) <==>
      && ps != [] && (forall i :: 0 <= i < |ps| ==> FrequencyWithin(ps[i], maxFrequency))
      && exists i :: 0 <= i < |ps| && !MagnitudePlausible(ps[i])
    ensures r.Ok? <==>
      ps != [] && forall i :: 0 <= i < |ps| ==> FrequencyWithin(ps[i], maxFrequency) && MagnitudePlausible(ps[i])
  {
    if ps == [] then Err(NoValidPoints)
    else
      var fs, ms := Frequencies(ps), Magnitudes(ps);
      WithinByExtremes(fs, 0.0, maxFrequency);
      WithinByExtremes(ms, -200.0, 200.0);
      if Min(fs) < 0.0 || Max(fs) > maxFrequency then Err(FrequencyOutOfRange)
      else if Min(ms) < -200.0 || Max(ms) > 200.0 then Err(MagnitudeOutOfRange)
      else Ok(true)
  }

  function Sum(xs: seq<real>): real
  {
    if xs == [] then 0.0 else Sum(xs[..|xs| - 1]) + xs[|xs| - 1]
  }

  /** The arithmetic mean, `xs.reduce((a, b) => a + b, 0) / xs.length`. */
  function Average(xs: seq<real>): real
    requires |xs| > 0
  {
    Sum(xs) / (|xs| as real)
  }

  lemma {:induction false} SumBounds(xs: seq<real>, lo: real, hi: real)
    requires forall i :: 0 <= i < |xs| ==> lo <= xs[i] <= hi
    ensures (|xs| as real) * lo <= Sum(xs) <= (|xs| as real) * hi
  {
    if xs != [] {
      SumBounds(xs[..|xs| - 1], lo, hi);
    }
  }

  lemma DivideBounds(s: real, n: real, lo: real, hi: real)
    requires n > 0.0 && n * lo <= s <= n * hi
    ensures lo <= s / n <= hi
  {
    assert s == (s / n) * n;
  }

  /** Comparing a quotient with a constant is comparing the dividend with
      the constant times the (positive) divisor. */
  lemma QuotientCompare(x: real, m: real, c: real)
    requires m > 0.0
    ensures x / m < c <==> x < c * m
    ensures x / m > c <==> x > c * m
  {
    var q := x / m;
    assert x == q * m;
    assert x - c * m == (q - c) * m;
    if q < c {
      assert (c - q) * m > 0.0;
    }
    if q > c {
      assert (q - c) * m > 0.0;
    }
  }

  /** The mean of a non-empty list lies within any bounds of its elements. */
  lemma AverageBetween(xs: seq<real>, lo: real, hi: real)
    requires |xs| > 0
    requires forall i :: 0 <= i < |xs| ==> lo <= xs[i] <= hi
    ensures lo <= Average(xs) <= hi
  {
    SumBounds(xs, lo, hi);
    DivideBounds(Sum(xs), |xs| as real, lo, hi);
  }

  /** The mean of a non-empty list lies between its minimum and maximum. */
  lemma AverageWithinRange(xs: seq<real>)
    requires |xs| > 0
    ensures Min(xs) <= Average(xs) <= Max(xs)
  {
    AverageBetween(xs, Min(xs), Max(xs));
  }
}
