/** The filter-design pipeline of `electron/firProcessor.js`: merging the
    design options with their defaults, the optional frequency-range
    filter, the windowed low-pass design filled into an array of `numTaps`
    entries, the 1024-point response grid and the text layouts of the
    coefficient export. Trigonometry, square roots and logarithms are
    parameters; only the structure around them is modelled. */
module FirProcessor {
  import opened Common
  import opened Text

  /** `Math.PI`. */
  const Pi: real := 3.141592653589793

  /** A JavaScript number: `None` is NaN or an infinity. */
  type Number = Option<real>

  /** The floating-point functions the design uses, left abstract;
      `log10` gives `None` for the -Infinity of `log10(0)`. */
  datatype Numerics = Numerics(
    sin: real -> real,
    cos: real -> real,
    sqrt: real -> real,
    atan2: (real, real) -> real,
    log10: real -> Number)

  /** Products and sums of JavaScript numbers: NaN absorbs. */
  function Times(a: Number, b: Number): Number
  {
    if a.Some? && b.Some? then Some(a.value * b.value) else None
  }

  function Plus(a: Number, b: Number): Number
  {
    if a.Some? && b.Some? then Some(a.value + b.value) else None
  }

  // ---------------------------------------------------------------------
  // Options and their defaults

  datatype FrequencyRangeConfig = FrequencyRangeConfig(enabled: bool, min: real, max: real, preset: string)

  /** The options a caller passes; `None` is a key the caller left out.
      A `frequencyRange` given as `Some(None)` is an explicit `null`. */
  datatype Options = Options(
    designMethod: Option<string>,
    numTaps: Option<nat>,
    sampleRate: Option<real>,
    passbandRipple: Option<real>,
    stopbandAttenuation: Option<real>,
    frequencyRange: Option<Option<FrequencyRangeConfig>>,
    filterType: Option<string>,
    cutoffFrequency: Option<real>,
    windowType: Option<string>)

  datatype Config = Config(
    designMethod: string,
    numTaps: nat,
    sampleRate: real,
    passbandRipple: real,
    stopbandAttenuation: real,
    frequencyRange: Option<FrequencyRangeConfig>,
    filterType: Option<string>,
    cutoffFrequency: Option<real>,
    windowType: Option<string>)

  const DefaultFrequencyRange := FrequencyRangeConfig(false, 20.0, 22000.0, "human-hearing")

  const Defaults := Config("least-squares", 512, 48000.0, 0.1, 80.0, Some(DefaultFrequencyRange), None, None, None)

  function Override<T>(given: Option<T>, default: T): T
  {
    if given.Some? then given.value else default
  }

  /** `{ ...defaults, ...options }`: every key the caller gave wins, every
      other key keeps its default. */
  function MergeOptions(o: Options): (c: Config)
  {
    Config(
      Override(o.designMethod, Defaults.designMethod),
      Override(o.numTaps, Defaults.numTaps),
      Override(o.sampleRate, Defaults.sampleRate),
      Override(o.passbandRipple, Defaults.passbandRipple),
      Override(o.stopbandAttenuation, Defaults.stopbandAttenuation),
      Override(o.frequencyRange, Defaults.frequencyRange),
      o.filterType, o.cutoffFrequency, o.windowType)
  }

  const NoOptions := Options(None, None, None, None, None, None, None, None, None)

  /** The options that say every key of a configuration. */
  function AsOptions(c: Config): Options
  {
    Options(Some(c.designMethod), Some(c.numTaps), Some(c.sampleRate), Some(c.passbandRipple),
      Some(c.stopbandAttenuation), Some(c.frequencyRange), c.filterType, c.cutoffFrequency, c.windowType)
  }

  /** Without options the defaults apply; a key the caller leaves out keeps
      its default and a key the caller gives is taken as given; options
      that name every key are taken as they are. */
  lemma MergeRules(o: Options, c: Config)
    ensures MergeOptions(NoOptions) == Defaults
    ensures MergeOptions(AsOptions(c)) == c
    ensures o.numTaps.None? ==> MergeOptions(o).numTaps == 512
    ensures o.numTaps.Some? ==> MergeOptions(o).numTaps == o.numTaps.value
    ensures o.sampleRate.None? ==> MergeOptions(o).sampleRate == 48000.0
    ensures o.sampleRate.Some? ==> MergeOptions(o).sampleRate == o.sampleRate.value
    ensures o.frequencyRange.None? ==> MergeOptions(o).frequencyRange == Some(DefaultFrequencyRange)
    ensures o.frequencyRange.Some? ==> MergeOptions(o).frequencyRange == o.frequencyRange.value
  {
  }

  /** `config.frequencyRange && config.frequencyRange.enabled`. */
  predicate RangeFilterEnabled(c: Config)
  {
    c.frequencyRange.Some? && c.frequencyRange.value.enabled
  }

  /** The range filter is off by default. */
  lemma RangeFilterOffByDefault()
    ensures !RangeFilterEnabled(MergeOptions(NoOptions))
  {
  }

  // ---------------------------------------------------------------------
  // applyFrequencyRangeFilter

  datatype DesignError = NoPointsInRange(min: real, max: real)

  predicate InRange(p: Point, min: real, max: real)
  {
    min <= p.frequency <= max
  }

  function InRangeOf(min: real, max: real): Point -> bool
  {
    p => InRange(p, min, max)
  }

  predicate SortedByFrequency(s: seq<Point>)
  {
    forall k, l :: 0 <= k < l < |s| ==> s[k].frequency <= s[l].frequency
  }

  /** Sorts the points in place by ascending frequency. */
  method SortByFrequency(a: array<Point>)
    modifies a
    ensures SortedByFrequency(a[..])
    ensures multiset(a[..]) == multiset(old(a[..]))
  {
    if a.Length < 2 {
      return;
    }
    for i := 1 to a.Length
      invariant SortedByFrequency(a[..i])
      invariant multiset(a[..]) == multiset(old(a[..]))
    {
      InsertAt(a, i);
    }
  }

  /** Moves `a[i]` down into the sorted prefix `a[..i]`. */
  method InsertAt(a: array<Point>, i: nat)
    requires 0 < i < a.Length && SortedByFrequency(a[..i])
    modifies a
    ensures SortedByFrequency(a[..i + 1])
    ensures multiset(a[..]) == multiset(old(a[..]))
  {
    var j := i;
    while j > 0 && a[j - 1].frequency > a[j].frequency
      invariant 0 <= j <= i
      invariant forall k, l :: 0 <= k < l <= i && l != j ==> a[k].frequency <= a[l].frequency
      invariant forall k, l :: 0 <= k < j < l <= i ==> a[k].frequency <= a[l].frequency
      invariant multiset(a[..]) == multiset(old(a[..]))
      decreases j
    {
      a[j - 1], a[j] := a[j], a[j - 1];
      j := j - 1;
    }
  }

  /** `applyFrequencyRangeFilter`: the points within [min, max], sorted by
      frequency, or an error when there are none. */
  method ApplyFrequencyRangeFilter(trfData: seq<Point>, range: FrequencyRangeConfig)
    returns (r: Result<seq<Point>, DesignError>)
    ensures r.Err? <==> forall i :: 0 <= i < |trfData| ==> !InRange(trfData[i], range.min, range.max)
    ensures r.Err? ==> r.error == NoPointsInRange(range.min, range.max)
    ensures r.Ok? ==> r.value != []
    ensures r.Ok? ==> SortedByFrequency(r.value)
    ensures r.Ok? ==> multiset(r.value) == multiset(Filter(trfData, InRangeOf(range.min, range.max)))
  {
    var min, max := range.min, range.max;
    var filteredData := Filter(trfData, InRangeOf(min, max));
    NoneInRange(trfData, min, max);
    if |filteredData| == 0 {
      return Err(NoPointsInRange(min, max));
    }
    var a := new Point[|filteredData|](i requires 0 <= i < |filteredData| => filteredData[i]);
    assert a[..] == filteredData;
    SortByFrequency(a);
    r := Ok(a[..]);
  }

  /** Nothing is left exactly when no point is in range. */
  lemma NoneInRange(ps: seq<Point>, min: real, max: real)
    ensures Filter(ps, InRangeOf(min, max)) == [] <==> forall i :: 0 <= i < |ps| ==> !InRange(ps[i], min, max)
  {
    var keep := InRangeOf(min, max);
    if Filter(ps, keep) == [] {
      forall i | 0 <= i < |ps|
        ensures !InRange(ps[i], min, max)
      {
        FilterMembers(ps, keep, ps[i]);
      }
    } else {
      var p := Filter(ps, keep)[0];
      FilterMembers(ps, keep, p);
    }
  }

  /** A list with the multiset of the in-range points holds every in-range
      point exactly as often as the input, and nothing else. */
  lemma RangeFilterKeepsInRangePoints(ps: seq<Point>, min: real, max: real, out: seq<Point>)
    requires multiset(out) == multiset(Filter(ps, InRangeOf(min, max)))
    ensures forall i :: 0 <= i < |out| ==> min <= out[i].frequency <= max
    ensures forall p :: InRange(p, min, max) ==> multiset(out)[p] == multiset(ps)[p]
    ensures forall i :: 0 <= i < |ps| && InRange(ps[i], min, max) ==> ps[i] in out
  {
    var keep := InRangeOf(min, max);
    forall i | 0 <= i < |out|
      ensures min <= out[i].frequency <= max
    {
      assert out[i] in multiset(out);
      FilterMembers(ps, keep, out[i]);
    }
    forall p | InRange(p, min, max)
      ensures multiset(out)[p] == multiset(ps)[p]
    {
      FilterMultiset(ps, keep, p);
    }
    forall i | 0 <= i < |ps| && InRange(ps[i], min, max)
      ensures ps[i] in out
    {
      FilterMultiset(ps, keep, ps[i]);
      assert ps[i] in multiset(ps);
    }
  }

  // ---------------------------------------------------------------------
  // designFIRFilter and applyWindow

  /** The normalised cut-off of the placeholder low-pass design. */
  const CutoffFreq: real := 0.1

  /** The ideal low-pass tap at offset `n` from the centre: `2 * 0.1` at
      the centre, `sin(2 pi 0.1 n) / (pi n)` elsewhere. */
  function Tap(n: int, m: Numerics): real
  {
    if n == 0 then 2.0 * CutoffFreq else m.sin(2.0 * Pi * CutoffFreq * n as real) / (Pi * n as real)
  }

  function Center(numTaps: nat): nat
  {
    numTaps / 2
  }

  /** The taps before windowing, index `i` at offset `i - floor(numTaps / 2)`. */
  function Taps(numTaps: nat, m: Numerics): (cs: seq<Number>)
    ensures |cs| == numTaps
    ensures forall i :: 0 <= i < numTaps ==> cs[i] == Some(Tap(i - Center(numTaps), m))
  {
    seq(numTaps, i requires 0 <= i < numTaps => Some(Tap(i - Center(numTaps), m)))
  }

  /** The Hamming weight `0.54 - 0.46 cos(2 pi i / (N - 1))`; for a single
      tap the angle is 0 / 0, NaN. */
  function WindowValue(i: nat, n: nat, m: Numerics): Number
  {
    if n == 1 then None else Some(0.54 - 0.46 * m.cos(2.0 * Pi * i as real / (n - 1) as real))
  }

  /** Every coefficient multiplied by its window weight. */
  function Windowed(cs: seq<Number>, m: Numerics): (ws: seq<Number>)
    ensures |ws| == |cs|
    ensures forall i :: 0 <= i < |cs| ==> ws[i] == Times(cs[i], WindowValue(i, |cs|, m))
  {
    seq(|cs|, i requires 0 <= i < |cs| => Times(cs[i], WindowValue(i, |cs|, m)))
  }

  /** The coefficients `designFIRFilter` returns. */
  function Designed(numTaps: nat, m: Numerics): seq<Number>
  {
    Windowed(Taps(numTaps, m), m)
  }

  /** `applyWindow`: rescales every entry in place. */
  method ApplyWindow(coefficients: array<Number>, m: Numerics)
    modifies coefficients
    ensures coefficients[..] == Windowed(old(coefficients[..]), m)
  {
    var n := coefficients.Length;
    for i := 0 to n
      invariant forall k :: 0 <= k < i ==> coefficients[k] == Times(old(coefficients[k]), WindowValue(k, n, m))
      invariant forall k :: i <= k < n ==> coefficients[k] == old(coefficients[k])
    {
      var windowValue := WindowValue(i, n, m);
      coefficients[i] := Times(coefficients[i], windowValue);
    }
  }

  /** `designFIRFilter`: an array of `numTaps` entries filled with the
      ideal taps around the centre `floor(numTaps / 2)`, then windowed in
      place. The measurement does not enter the design. */
  method DesignFIRFilter(numTaps: nat, m: Numerics) returns (coefficients: seq<Number>)
    ensures coefficients == Designed(numTaps, m)
  {
    var a := new Number[numTaps](_ => Some(0.0));
    var center := numTaps / 2;
    for i := 0 to numTaps
      invariant forall k :: 0 <= k < i ==> a[k] == Some(Tap(k - center, m))
    {
      var n := i - center;
      if n == 0 {
        a[i] := Some(2.0 * CutoffFreq);
      } else {
        a[i] := Some(m.sin(2.0 * Pi * CutoffFreq * n as real) / (Pi * n as real));
      }
    }
    assert a[..] == Taps(numTaps, m);
    ApplyWindow(a, m);
    coefficients := a[..];
  }

  /** The design has exactly `numTaps` coefficients; the centre one is the
      windowed `0.2`; with two taps or more every coefficient is a finite
      number, and a single tap is NaN. */
  lemma DesignShape(numTaps: nat, m: Numerics)
    ensures |Designed(numTaps, m)| == numTaps
    ensures numTaps > 0 ==>
      Designed(numTaps, m)[Center(numTaps)] == Times(Some(0.2), WindowValue(Center(numTaps), numTaps, m))
    ensures numTaps >= 2 ==> forall i :: 0 <= i < numTaps ==> Designed(numTaps, m)[i].Some?
    ensures numTaps == 1 ==> Designed(numTaps, m) == [None]
  {
  }

  function Negated(x: real): real { -x }

  function PlusTurn(x: real): real { x + 2.0 * Pi }

  /** `sin(-x) == -sin(x)`. The argument is written `Negated(x)` so that
      the fact applies only where a proof names it. */
  ghost predicate OddSine(m: Numerics)
  {
    forall x :: m.sin(Negated(x)) == -m.sin(x)
  }

  /** A tap depends only on the distance from the centre when the sine is
      odd. */
  lemma TapEven(n: int, m: Numerics)
    requires OddSine(m)
    ensures Tap(-n, m) == Tap(n, m)
  {
    if n != 0 {
      var y := n as real;
      var x := 2.0 * Pi * CutoffFreq * y;
      assert (-n) as real == -y;
      assert 2.0 * Pi * CutoffFreq * (-y) == -x;
      assert m.sin(Negated(x)) == -m.sin(x);
      NegatedQuotient(m.sin(x), Pi * y);
    }
  }

  lemma NegatedQuotient(s: real, d: real)
    requires d != 0.0
    ensures (-s) / (-d) == s / d
  {
    var q := s / d;
    assert q * d == s;
    assert q * (-d) == -s;
  }

  /** For an odd number of taps and an odd sine the ideal taps are
      symmetric about the centre. */
  lemma TapsSymmetric(numTaps: nat, m: Numerics, i: nat)
    requires OddSine(m)
    requires numTaps % 2 == 1 && i < numTaps
    ensures Taps(numTaps, m)[i] == Taps(numTaps, m)[numTaps - 1 - i]
  {
    var c := Center(numTaps);
    assert numTaps - 1 - i - c == -(i - c);
    TapEven(i - c, m);
  }

  /** The cosine facts the window's symmetry rests on: `cos(-x) == cos(x)`
      and `cos(x + 2 pi) == cos(x)`. */
  ghost predicate EvenPeriodicCosine(m: Numerics)
  {
    && (forall x :: m.cos(Negated(x)) == m.cos(x))
    && (forall x :: m.cos(PlusTurn(x)) == m.cos(x))
  }

  /** The Hamming window is symmetric: index `i` and its mirror get the
      same weight. */
  lemma WindowSymmetric(i: nat, n: nat, m: Numerics)
    requires EvenPeriodicCosine(m)
    requires i < n
    ensures WindowValue(i, n, m) == WindowValue(n - 1 - i, n, m)
  {
    if n > 1 {
      var d := (n - 1) as real;
      var a := 2.0 * Pi * i as real / d;
      MirrorAngle(i, n);
      assert 2.0 * Pi * (n - 1 - i) as real / d == -a + 2.0 * Pi;
      assert m.cos(PlusTurn(Negated(a))) == m.cos(Negated(a)) == m.cos(a);
    }
  }

  lemma MirrorAngle(i: nat, n: nat)
    requires i < n && n > 1
    ensures 2.0 * Pi * (n - 1 - i) as real / (n - 1) as real == -(2.0 * Pi * i as real / (n - 1) as real) + 2.0 * Pi
  {
    var d := (n - 1) as real;
    var a := 2.0 * Pi * i as real / d;
    assert a * d == 2.0 * Pi * i as real;
    assert (n - 1 - i) as real == d - i as real;
    assert (-a + 2.0 * Pi) * d == 2.0 * Pi * (d - i as real);
  }

  /** For an odd number of taps the windowed design is symmetric about its
      centre: the linear-phase property of a windowed sinc. */
  lemma DesignedSymmetric(numTaps: nat, m: Numerics, i: nat)
    requires OddSine(m)
    requires EvenPeriodicCosine(m)
    requires numTaps % 2 == 1 && i < numTaps
    ensures Designed(numTaps, m)[i] == Designed(numTaps, m)[numTaps - 1 - i]
  {
    var taps := Taps(numTaps, m);
    TapsSymmetric(numTaps, m, i);
    WindowSymmetric(i, numTaps, m);
    assert Designed(numTaps, m)[i] == Times(taps[i], WindowValue(i, numTaps, m));
    assert Designed(numTaps, m)[numTaps - 1 - i] == Times(taps[numTaps - 1 - i], WindowValue(numTaps - 1 - i, numTaps, m));
  }

  /** For an even number of taps the centre `floor(N / 2)` sits half a tap
      off the middle, so the two middle coefficients differ: `0.2 w`
      against `sin(0.2 pi) / pi * w`, with the same window weight `w`.
      The requirements are facts of the real sine and cosine. */
  lemma EvenDesignAsymmetric(numTaps: nat, m: Numerics)
    requires OddSine(m)
    requires EvenPeriodicCosine(m)
    requires forall x :: -1.0 <= m.cos(x) <= 1.0
    requires m.sin(2.0 * Pi * CutoffFreq) < 2.0 * Pi * CutoffFreq
    requires numTaps % 2 == 0 && numTaps >= 2
    ensures var c := Center(numTaps);
      Designed(numTaps, m)[c - 1] != Designed(numTaps, m)[numTaps - 1 - (c - 1)]
  {
    var c := Center(numTaps);
    assert numTaps - 1 - (c - 1) == c;
    WindowSymmetric(c - 1, numTaps, m);
    WindowPositive(c, numTaps, m);
    NeighbourTapBelowCentre(m);
    MiddlePairDiffers(numTaps, m);
  }

  /** The middle pair differs once both share a positive weight and the
      neighbour tap is below the centre tap. */
  lemma MiddlePairDiffers(numTaps: nat, m: Numerics)
    requires numTaps % 2 == 0 && numTaps >= 2
    requires WindowValue(Center(numTaps) - 1, numTaps, m) == WindowValue(Center(numTaps), numTaps, m)
    requires WindowValue(Center(numTaps), numTaps, m).Some? && WindowValue(Center(numTaps), numTaps, m).value > 0.0
    requires Tap(-1, m) < 2.0 * CutoffFreq
    ensures Designed(numTaps, m)[Center(numTaps) - 1] != Designed(numTaps, m)[Center(numTaps)]
  {
    MiddlePair(numTaps, m);
    ScaledDiffer(Tap(-1, m), 2.0 * CutoffFreq, WindowValue(Center(numTaps), numTaps, m));
  }

  /** The two middle coefficients of an even design, one tap either side
      of the half-way point. */
  lemma MiddlePair(numTaps: nat, m: Numerics)
    requires numTaps % 2 == 0 && numTaps >= 2
    ensures var c := Center(numTaps);
      && Designed(numTaps, m)[c - 1] == Times(Some(Tap(-1, m)), WindowValue(c - 1, numTaps, m))
      && Designed(numTaps, m)[c] == Times(Some(2.0 * CutoffFreq), WindowValue(c, numTaps, m))
  {
    var c := Center(numTaps);
    var taps := Taps(numTaps, m);
    assert (c - 1) as int - c as int == -1;
    assert taps[c - 1] == Some(Tap(-1, m));
    assert taps[c] == Some(Tap(0, m));
  }

  lemma ScaledDiffer(t: real, u: real, w: Number)
    requires t < u && w.Some? && w.value > 0.0
    ensures Times(Some(t), w) != Times(Some(u), w)
  {
  }

  /** Each Hamming weight of two taps or more is at least 0.08. */
  lemma WindowPositive(i: nat, n: nat, m: Numerics)
    requires forall x :: -1.0 <= m.cos(x) <= 1.0
    requires n >= 2
    ensures WindowValue(i, n, m).Some? && WindowValue(i, n, m).value >= 0.08
  {
    var a := 2.0 * Pi * i as real / (n - 1) as real;
    assert m.cos(a) <= 1.0;
  }

  /** The tap next to the centre, `sin(0.2 pi) / pi`, is below the centre
      tap `0.2`. */
  lemma NeighbourTapBelowCentre(m: Numerics)
    requires OddSine(m)
    requires m.sin(2.0 * Pi * CutoffFreq) < 2.0 * Pi * CutoffFreq
    ensures Tap(-1, m) < 2.0 * CutoffFreq
  {
    TapEven(1, m);
    var s := m.sin(2.0 * Pi * CutoffFreq * 1.0);
    assert Tap(1, m) == s / (Pi * 1.0);
    var t := s / Pi;
    assert t * Pi == s;
    assert t < 0.2;
  }

  /** The ideal tap `k / 2` taps from the centre: `sin(2 pi 0.1 x) / (pi x)`
      at `x = k / 2`, and `2 * 0.1` at the centre. */
  function HalfStepTap(k: int, m: Numerics): real
  {
    if k == 0 then 2.0 * CutoffFreq else m.sin(Pi * CutoffFreq * k as real) / (Pi * k as real / 2.0)
  }

  /** The taps around the true middle `(N - 1) / 2` of the array: index `i`
      lies `2 i - (N - 1)` half taps from it. */
  function CenteredTaps(numTaps: nat, m: Numerics): (cs: seq<Number>)
    ensures |cs| == numTaps
    ensures forall i :: 0 <= i < numTaps ==> cs[i] == Some(HalfStepTap(2 * i - (numTaps - 1), m))
  {
    seq(numTaps, i requires 0 <= i < numTaps => Some(HalfStepTap(2 * i - (numTaps - 1), m)))
  }

  /** The design with the taps centred on the middle of the array. */
  function CenteredDesign(numTaps: nat, m: Numerics): seq<Number>
  {
    Windowed(CenteredTaps(numTaps, m), m)
  }

  /** A whole number of taps from the centre, the two tap formulas agree. */
  lemma HalfStepOfWhole(n: int, m: Numerics)
    ensures HalfStepTap(2 * n, m) == Tap(n, m)
  {
    if n != 0 {
      var y := n as real;
      assert (2 * n) as real == 2.0 * y;
      assert Pi * CutoffFreq * (2.0 * y) == 2.0 * Pi * CutoffFreq * y;
      assert Pi * (2.0 * y) / 2.0 == Pi * y;
    }
  }

  /** For an odd number of taps the centred design is the design as
      written. */
  lemma CenteredDesignAgreesWhenOdd(numTaps: nat, m: Numerics)
    requires numTaps % 2 == 1
    ensures CenteredDesign(numTaps, m) == Designed(numTaps, m)
  {
    var a, b := CenteredTaps(numTaps, m), Taps(numTaps, m);
    forall i | 0 <= i < numTaps
      ensures a[i] == b[i]
    {
      assert 2 * i - (numTaps - 1) == 2 * (i - Center(numTaps));
      HalfStepOfWhole(i - Center(numTaps), m);
    }
    assert a == b;
  }

  /** The centred design is symmetric for every number of taps, even ones
      included. */
  lemma CenteredDesignSymmetric(numTaps: nat, m: Numerics, i: nat)
    requires OddSine(m)
    requires EvenPeriodicCosine(m)
    requires i < numTaps
    ensures CenteredDesign(numTaps, m)[i] == CenteredDesign(numTaps, m)[numTaps - 1 - i]
  {
    CenteredPair(numTaps, m, i);
    HalfStepTapEven(2 * i - (numTaps - 1), m);
    WindowSymmetric(i, numTaps, m);
  }

  /** Entry `i` and its mirror: the taps `k` and `-k` half taps from the
      middle, each times its window weight. */
  lemma CenteredPair(numTaps: nat, m: Numerics, i: nat)
    requires i < numTaps
    ensures var k := 2 * i - (numTaps - 1);
      && CenteredDesign(numTaps, m)[i] == Times(Some(HalfStepTap(k, m)), WindowValue(i, numTaps, m))
      && CenteredDesign(numTaps, m)[numTaps - 1 - i]
         == Times(Some(HalfStepTap(-k, m)), WindowValue(numTaps - 1 - i, numTaps, m))
  {
    var k := 2 * i - (numTaps - 1);
    assert 2 * (numTaps - 1 - i) - (numTaps - 1) == -k;
    var taps := CenteredTaps(numTaps, m);
    assert taps[i] == Some(HalfStepTap(k, m));
    assert taps[numTaps - 1 - i] == Some(HalfStepTap(-k, m));
  }

  lemma HalfStepTapEven(k: int, m: Numerics)
    requires OddSine(m)
    ensures HalfStepTap(-k, m) == HalfStepTap(k, m)
  {
    if k != 0 {
      var y := k as real;
      var x := Pi * CutoffFreq * y;
      assert (-k) as real == -y;
      assert Pi * CutoffFreq * (-y) == -x;
      assert m.sin(Negated(x)) == -m.sin(x);
      assert Pi * (-y) / 2.0 == -(Pi * y / 2.0);
      NegatedQuotient(m.sin(x), Pi * y / 2.0);
    }
  }

  // ---------------------------------------------------------------------
  // calculateFilterResponse

  datatype ResponsePoint = ResponsePoint(frequency: real, magnitude: Number, phase: Number)

  const NumPoints: nat := 1024

  /** The phase `-2 pi f j` of coefficient `j` at normalised frequency `f`. */
  function Angle(f: real, j: nat): real
  {
    -2.0 * Pi * f * j as real
  }

  /** The real part `sum c[j] cos(-2 pi f j)` over the first `n` coefficients. */
  function RealPart(cs: seq<Number>, f: real, n: nat, m: Numerics): Number
    requires n <= |cs|
  {
    if n == 0 then Some(0.0)
    else Plus(RealPart(cs, f, n - 1, m), Times(cs[n - 1], Some(m.cos(Angle(f, n - 1)))))
  }

  /** The imaginary part `sum c[j] sin(-2 pi f j)` over the first `n`
      coefficients. */
  function ImagPart(cs: seq<Number>, f: real, n: nat, m: Numerics): Number
    requires n <= |cs|
  {
    if n == 0 then Some(0.0)
    else Plus(ImagPart(cs, f, n - 1, m), Times(cs[n - 1], Some(m.sin(Angle(f, n - 1)))))
  }

  /** Grid frequency `i`: `(i / 1024) * (sampleRate / 2)`. */
  function GridFrequency(i: nat, sampleRate: real): real
  {
    NormalizedFrequency(i) * (sampleRate / 2.0)
  }

  /** Grid point `i` as a fraction of the Nyquist frequency. */
  function NormalizedFrequency(i: nat): real
  {
    i as real / NumPoints as real
  }

  /** `re * re + im * im`. */
  function Power(re: real, im: real): real
  {
    re * re + im * im
  }

  /** `20 log10 |re + i im|`. */
  function Decibels(re: Number, im: Number, m: Numerics): Number
  {
    if re.Some? && im.Some? then
      var amplitude := m.sqrt(Power(re.value, im.value));
      var db := m.log10(amplitude);
      if db.Some? then Some(20.0 * db.value) else None
    else None
  }

  /** `atan2(im, re)` in degrees. */
  function Degrees(re: Number, im: Number, m: Numerics): Number
  {
    if re.Some? && im.Some? then Some(m.atan2(im.value, re.value) * (180.0 / Pi)) else None
  }

  /** The response at grid point `i`: magnitude in dB and phase in degrees
      of the coefficients' transform at normalised frequency `i / 1024`. */
  function ResponseAt(cs: seq<Number>, sampleRate: real, i: nat, m: Numerics): ResponsePoint
  {
    var f := NormalizedFrequency(i);
    var re, im := RealPart(cs, f, |cs|, m), ImagPart(cs, f, |cs|, m);
    ResponsePoint(GridFrequency(i, sampleRate), Decibels(re, im, m), Degrees(re, im, m))
  }

  /** The inner loop of `calculateFilterResponse`. */
  method Transform(cs: seq<Number>, normalizedFreq: real, m: Numerics) returns (re: Number, im: Number)
    ensures re == RealPart(cs, normalizedFreq, |cs|, m)
    ensures im == ImagPart(cs, normalizedFreq, |cs|, m)
  {
    re, im := Some(0.0), Some(0.0);
    for j := 0 to |cs|
      invariant re == RealPart(cs, normalizedFreq, j, m)
      invariant im == ImagPart(cs, normalizedFreq, j, m)
    {
      var phase := Angle(normalizedFreq, j);
      re := Plus(re, Times(cs[j], Some(m.cos(phase))));
      im := Plus(im, Times(cs[j], Some(m.sin(phase))));
    }
  }

  /** `calculateFilterResponse`: 1024 points on the grid. The normalised
      frequency `freq / nyquist` is taken as `i / 1024`. */
  method CalculateFilterResponse(cs: seq<Number>, sampleRate: real, m: Numerics)
    returns (response: seq<ResponsePoint>)
    ensures |response| == NumPoints
    ensures forall i :: 0 <= i < NumPoints ==> response[i] == ResponseAt(cs, sampleRate, i, m)
  {
    response := [];
    for i := 0 to NumPoints
      invariant |response| == i
      invariant forall k :: 0 <= k < i ==> response[k] == ResponseAt(cs, sampleRate, k, m)
    {
      var point := ResponseOf(cs, sampleRate, i, m);
      response := response + [point];
    }
  }

  /** One pass of the outer loop of `calculateFilterResponse`. */
  method ResponseOf(cs: seq<Number>, sampleRate: real, i: nat, m: Numerics) returns (point: ResponsePoint)
    ensures point == ResponseAt(cs, sampleRate, i, m)
  {
    var freq := GridFrequency(i, sampleRate);
    var normalizedFreq := NormalizedFrequency(i);
    var re, im := Transform(cs, normalizedFreq, m);
    var magnitude: Number := None;
    var phase: Number := None;
    if re.Some? && im.Some? {
      var amplitude := m.sqrt(Power(re.value, im.value));
      var db := m.log10(amplitude);
      if db.Some? {
        magnitude := Some(20.0 * db.value);
      }
      phase := Some(m.atan2(im.value, re.value) * (180.0 / Pi));
    }
    point := ResponsePoint(freq, magnitude, phase);
  }

  /** The grid starts at 0 Hz, climbs in equal steps of a 1024th of the
      Nyquist frequency and stays below it. */
  lemma ResponseGrid(sampleRate: real, i: nat, j: nat)
    requires sampleRate > 0.0 && i < j < NumPoints
    ensures GridFrequency(0, sampleRate) == 0.0
    ensures GridFrequency(i, sampleRate) < GridFrequency(j, sampleRate) < sampleRate / 2.0
    ensures GridFrequency(i + 1, sampleRate) - GridFrequency(i, sampleRate) == sampleRate / 2.0 / 1024.0
  {
    var h := sampleRate / 2.0;
    assert GridFrequency(j, sampleRate) - GridFrequency(i, sampleRate) == (j - i) as real / 1024.0 * h;
    assert h - GridFrequency(j, sampleRate) == (1024 - j) as real / 1024.0 * h;
  }

  // ---------------------------------------------------------------------
  // designFilter

  datatype Metadata = Metadata(
    numTaps: nat,
    sampleRate: real,
    designMethod: string,
    filterType: string,
    cutoffFrequency: real,
    windowType: string,
    frequencyRange: Option<FrequencyRangeConfig>,
    originalDataPoints: nat,
    filteredDataPoints: nat)

  datatype Design = Design(coefficients: seq<Number>, frequencyResponse: seq<ResponsePoint>, metadata: Metadata)

  /** `value || fallback` for a string: the empty string is falsy. */
  function OrString(value: Option<string>, fallback: string): string
  {
    if value.Some? && value.value != "" then value.value else fallback
  }

  /** `value || fallback` for a number: zero is falsy. */
  function OrNumber(value: Option<real>, fallback: real): real
  {
    if value.Some? && value.value != 0.0 then value.value else fallback
  }

  /** `designFilter`: merge the options, filter by range when enabled,
      design the coefficients, compute their response and describe the
      design. */
  method DesignFilter(trfData: seq<Point>, options: Options, m: Numerics) returns (r: Result<Design, DesignError>)
    ensures var c := MergeOptions(options);
      RangeFilterEnabled(c) && (forall i :: 0 <= i < |trfData| ==> !InRange(trfData[i], c.frequencyRange.value.min, c.frequencyRange.value.max))
      <==> r.Err?
    ensures r.Err? ==> var range := MergeOptions(options).frequencyRange.value;
      r.error == NoPointsInRange(range.min, range.max)
    ensures r.Ok? ==> var c, d := MergeOptions(options), r.value;
      && d.coefficients == Designed(c.numTaps, m)
      && |d.frequencyResponse| == NumPoints
      && (forall i :: 0 <= i < NumPoints ==> d.frequencyResponse[i] == ResponseAt(d.coefficients, c.sampleRate, i, m))
      && d.metadata == Metadata(
           c.numTaps, c.sampleRate, c.designMethod, OrString(c.filterType, "lowpass"),
           OrNumber(c.cutoffFrequency, 0.1), OrString(c.windowType, "hamming"), c.frequencyRange,
           |trfData|,
           if RangeFilterEnabled(c) then |Filter(trfData, InRangeOf(c.frequencyRange.value.min, c.frequencyRange.value.max))|
           else |trfData|)
  {
    var config := MergeOptions(options);
    var processedData := trfData;
    if config.frequencyRange.Some? && config.frequencyRange.value.enabled {
      var filtered := ApplyFrequencyRangeFilter(trfData, config.frequencyRange.value);
      if filtered.Err? {
        return Err(filtered.error);
      }
      processedData := filtered.value;
      assert |processedData| == |Filter(trfData, InRangeOf(config.frequencyRange.value.min, config.frequencyRange.value.max))| by {
        assert |multiset(processedData)| == |multiset(Filter(trfData, InRangeOf(config.frequencyRange.value.min, config.frequencyRange.value.max)))|;
      }
    }
    var coefficients := DesignFIRFilter(config.numTaps, m);
    DesignShape(config.numTaps, m);
    var filterResponse := CalculateFilterResponse(coefficients, config.sampleRate, m);
    var metadata := Metadata(
      |coefficients|, config.sampleRate, config.designMethod, OrString(config.filterType, "lowpass"),
      OrNumber(config.cutoffFrequency, 0.1), OrString(config.windowType, "hamming"), config.frequencyRange,
      |trfData|, |processedData|);
    r := Ok(Design(coefficients, filterResponse, metadata));
  }

  // ---------------------------------------------------------------------
  // exportCoefficients

  /** `value.toFixed(digits)`, left abstract. */
  type Formatter = (real, nat) -> string

  /** `Number(c)` kept when finite, 0 otherwise. */
  function Sanitize(cs: seq<Number>): (vs: seq<real>)
    ensures |vs| == |cs|
    ensures forall i :: 0 <= i < |cs| ==> vs[i] == (if cs[i].Some? then cs[i].value else 0.0)
  {
    seq(|cs|, i requires 0 <= i < |cs| => if cs[i].Some? then cs[i].value else 0.0)
  }

  function Fixed(vs: seq<real>, digits: nat, toFixed: Formatter): (ts: seq<string>)
    ensures |ts| == |vs|
    ensures forall i :: 0 <= i < |vs| ==> ts[i] == toFixed(vs[i], digits)
  {
    seq(|vs|, i requires 0 <= i < |vs| => toFixed(vs[i], digits))
  }

  /** A high-resolution value: fifteen decimals, the fraction padded with
      zeros when the formatter gave fewer. */
  function HighResValue(v: real, toFixed: Formatter): string
  {
    var formatted := toFixed(v, 15);
    var parts := Split(formatted, '.');
    if |parts| == 2 && |parts[1]| < 15 then parts[0] + "." + PadEnd(parts[1], 15, '0') else formatted
  }

  /** Line `index` of a high-resolution export: `index, value`. */
  function HighResLine(index: nat, v: real, toFixed: Formatter): string
  {
    NatToString(index) + ", " + HighResValue(v, toFixed)
  }

  function HighResLines(vs: seq<real>, toFixed: Formatter): (lines: seq<string>)
    ensures |lines| == |vs|
    ensures forall i :: 0 <= i < |vs| ==> lines[i] == HighResLine(i, vs[i], toFixed)
  {
    seq(|vs|, i requires 0 <= i < |vs| => HighResLine(i, vs[i], toFixed))
  }

  function SampleRateLine(sampleRate: real, toFixed: Formatter): string
  {
    "/* Fs(Hz)=   " + toFixed(sampleRate / 1000.0, 4) + "K */"
  }

  const LineFormatLine: string := "/* Coef Line Format= Index & Coef */"

  /** The comment line both script formats share, after the comment
      character. */
  const Title: string := " FIR Filter Coefficients\n"

  /** The array literal both script formats share. */
  function Listing(vs: seq<real>, toFixed: Formatter): string
  {
    "coefficients = [" + Join(Fixed(vs, 6, toFixed), ", ") + "]"
  }

  /** The high-resolution file: two comment lines, then the values. */
  function HighResContent(vs: seq<real>, sampleRate: real, toFixed: Formatter): string
  {
    SampleRateLine(sampleRate, toFixed) + "\n" + LineFormatLine + "\n" + Join(HighResLines(vs, toFixed), "\n")
  }

  /** The text `exportCoefficients` writes for `format`. */
  function ExportContent(cs: seq<Number>, format: string, sampleRate: real, toFixed: Formatter): string
  {
    var vs := Sanitize(cs);
    if format == "text" then Join(Fixed(vs, 6, toFixed), "\n")
    else if format == "csv" then Join(Fixed(vs, 6, toFixed), ",")
    else if format == "matlab" then "%" + Title + Listing(vs, toFixed) + ";"
    else if format == "python" then "#" + Title + Listing(vs, toFixed)
    else if format == "high-res" then HighResContent(vs, sampleRate, toFixed)
    else Join(Fixed(vs, 6, toFixed), "\n")
  }

  /** `exportCoefficients` with its `sampleRate = 48000` default: a caller
      that passes no rate gets the 48 kHz header. */
  function ExportCoefficients(cs: seq<Number>, format: string, sampleRate: Option<real>, toFixed: Formatter): string
  {
    ExportContent(cs, format, Override(sampleRate, 48000.0), toFixed)
  }

  /** Without a rate, the first line of a high-resolution export states
      48 kHz, whatever rate the coefficients were designed for. */
  lemma DefaultRateHeader(cs: seq<Number>, toFixed: Formatter)
    requires forall x, d :: '\n' !in toFixed(x, d)
    requires |cs| >= 1
    ensures Split(ExportCoefficients(cs, "high-res", None, toFixed), '\n')[0] == "/* Fs(Hz)=   " + toFixed(48.0, 4) + "K */"
  {
    HighResExportLines(cs, 48000.0, toFixed);
    assert 48000.0 / 1000.0 == 48.0;
  }

  /** An unrecognised format is written as plain text. */
  lemma UnknownFormatIsText(cs: seq<Number>, format: string, sampleRate: real, toFixed: Formatter)
    requires format != "text" && format != "csv" && format != "matlab" && format != "python" && format != "high-res"
    ensures ExportContent(cs, format, sampleRate, toFixed) == ExportContent(cs, "text", sampleRate, toFixed)
  {
  }

  /** A text export holds one line per coefficient, in order, with six
      decimals, non-finite coefficients written as 0; no coefficients give
      an empty file. */
  lemma TextExportLines(cs: seq<Number>, sampleRate: real, toFixed: Formatter)
    requires forall x, d :: '\n' !in toFixed(x, d)
    ensures |cs| == 0 ==> ExportContent(cs, "text", sampleRate, toFixed) == ""
    ensures |cs| >= 1 ==> Split(ExportContent(cs, "text", sampleRate, toFixed), '\n') == Fixed(Sanitize(cs), 6, toFixed)
  {
    if |cs| >= 1 {
      SplitJoin(Fixed(Sanitize(cs), 6, toFixed), '\n');
    }
  }

  /** A CSV export holds one field per coefficient, in order. */
  lemma CsvExportFields(cs: seq<Number>, sampleRate: real, toFixed: Formatter)
    requires forall x, d :: ',' !in toFixed(x, d)
    ensures |cs| >= 1 ==> Split(ExportContent(cs, "csv", sampleRate, toFixed), ',') == Fixed(Sanitize(cs), 6, toFixed)
  {
    if |cs| >= 1 {
      SplitJoin(Fixed(Sanitize(cs), 6, toFixed), ',');
    }
  }

  /** The MATLAB export is the Python export with `%` for the comment
      character and a closing semicolon. */
  lemma MatlabIsPythonWithSemicolon(cs: seq<Number>, sampleRate: real, toFixed: Formatter)
    ensures var matlab, python := ExportContent(cs, "matlab", sampleRate, toFixed), ExportContent(cs, "python", sampleRate, toFixed);
      matlab == "%" + python[1..] + ";"
  {
    var listing := Listing(Sanitize(cs), toFixed);
    assert ("#" + Title + listing)[1..] == Title + listing;
  }

  /** Whenever the fifteen-decimal rendering has a fractional part, the
      written value keeps its integer part and its digits and has at least
      fifteen decimals, the added ones zeros. */
  lemma HighResDecimals(v: real, toFixed: Formatter)
    requires |Split(toFixed(v, 15), '.')| == 2
    ensures var parts, out := Split(toFixed(v, 15), '.'), Split(HighResValue(v, toFixed), '.');
      && |out| == 2 && out[0] == parts[0]
      && |out[1]| >= 15 && out[1][..|parts[1]|] == parts[1]
      && forall k :: |parts[1]| <= k < |out[1]| ==> out[1][k] == '0'
  {
    var parts := Split(toFixed(v, 15), '.');
    if |parts[1]| < 15 {
      var padded := PadEnd(parts[1], 15, '0');
      assert '.' !in padded by {
        forall k | 0 <= k < |padded|
          ensures padded[k] != '.'
        {
          if k < |parts[1]| {
            assert padded[k] == padded[..|parts[1]|][k];
          }
        }
      }
      assert parts[0] + "." + padded == Join([parts[0], padded], ".");
      SplitJoin([parts[0], padded], '.');
    }
  }

  /** A high-resolution export is the sample-rate line, the line-format
      line and one `index, value` line per coefficient. */
  lemma HighResExportLines(cs: seq<Number>, sampleRate: real, toFixed: Formatter)
    requires forall x, d :: '\n' !in toFixed(x, d)
    requires |cs| >= 1
    ensures Split(ExportContent(cs, "high-res", sampleRate, toFixed), '\n')
      == [SampleRateLine(sampleRate, toFixed), LineFormatLine] + HighResLines(Sanitize(cs), toFixed)
  {
    var vs := Sanitize(cs);
    var lines := HighResLines(vs, toFixed);
    assert ExportContent(cs, "high-res", sampleRate, toFixed) == HighResContent(vs, sampleRate, toFixed);
    HeaderLinesAvoid(sampleRate, toFixed);
    forall i | 0 <= i < |lines|
      ensures '\n' !in lines[i]
    {
      HighResLineAvoids(i, vs[i], toFixed);
    }
    SplitAfterTwoLines(SampleRateLine(sampleRate, toFixed), LineFormatLine, lines);
  }

  /** Two header lines followed by joined lines split back into the
      header lines and the lines. */
  lemma SplitAfterTwoLines(a: string, b: string, lines: seq<string>)
    requires '\n' !in a && '\n' !in b && |lines| >= 1
    requires forall i :: 0 <= i < |lines| ==> '\n' !in lines[i]
    ensures Split(a + "\n" + b + "\n" + Join(lines, "\n"), '\n') == [a, b] + lines
  {
    var all := [a, b] + lines;
    JoinTwoMore(a, b, lines, "\n");
    assert forall i :: 0 <= i < |all| ==> '\n' !in all[i] by {
      forall i | 0 <= i < |all|
        ensures '\n' !in all[i]
      {
        if i >= 2 {
          assert all[i] == lines[i - 2];
        }
      }
    }
    SplitJoin(all, '\n');
  }

  lemma JoinTwoMore(a: string, b: string, xs: seq<string>, sep: string)
    requires |xs| >= 1
    ensures Join([a, b] + xs, sep) == a + sep + b + sep + Join(xs, sep)
  {
    var all := [a, b] + xs;
    assert all[1..] == [b] + xs;
    assert all[1..][1..] == xs;
  }

  lemma HeaderLinesAvoid(sampleRate: real, toFixed: Formatter)
    requires forall x, d :: '\n' !in toFixed(x, d)
    ensures '\n' !in SampleRateLine(sampleRate, toFixed) && '\n' !in LineFormatLine
  {
    var fs := toFixed(sampleRate / 1000.0, 4);
    assert '\n' !in "/* Fs(Hz)=   " && '\n' !in fs && '\n' !in "K */";
  }

  lemma HighResLineAvoids(index: nat, v: real, toFixed: Formatter)
    requires forall x, d :: '\n' !in toFixed(x, d)
    ensures '\n' !in HighResLine(index, v, toFixed)
  {
    var formatted := toFixed(v, 15);
    SplitPiecesAvoid(formatted, '.', '\n');
    var digits := NatToString(index);
    assert forall k :: 0 <= k < |digits| ==> digits[k] != '\n';
  }
}
