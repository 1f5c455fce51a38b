/** Preprocessing around the unloading power-law fit and the index logic of
    the creep averaging (pi88reader/ni_analyser.py). The fit itself, the
    contact stiffness formula and the NumPy arithmetic are parameters. */
module NiAnalyser {
  import opened Common

  // ---------------------------------------------------------------------
  // get_subset_by_y
  // ---------------------------------------------------------------------

  /** The load window lower*y_max <= y <= upper*y_max. */
  predicate InWindow(y: Float, low: Float, high: Float) {
    Le(low, y) && Le(y, high)
  }

  /** zip(x, y): pairs up to the shorter length. */
  function Zip(x: seq<Float>, y: seq<Float>): (r: seq<(Float, Float)>)
    ensures |r| == Min(|x|, |y|)
    ensures forall i :: 0 <= i < |r| ==> r[i] == (x[i], y[i])
  {
    seq(Min(|x|, |y|), i requires 0 <= i < Min(|x|, |y|) => (x[i], y[i]))
  }

  /** The pairs whose y lies in the window, in input order. */
  function Keep(pairs: seq<(Float, Float)>, low: Float, high: Float): (r: seq<(Float, Float)>)
    ensures |r| <= |pairs|
  {
    if pairs == [] then []
    else (if InWindow(pairs[0].1, low, high) then [pairs[0]] else []) + Keep(pairs[1..], low, high)
  }

  lemma {:induction false} KeepAppend(pairs: seq<(Float, Float)>, p: (Float, Float), low: Float, high: Float)
    ensures Keep(pairs + [p], low, high) == Keep(pairs, low, high) + (if InWindow(p.1, low, high) then [p] else [])
    decreases |pairs|
  {
    if pairs == [] {
      assert [p][1..] == [];
    } else {
      assert (pairs + [p])[1..] == pairs[1..] + [p];
      KeepAppend(pairs[1..], p, low, high);
    }
  }

  /** Keep is a filter: an order-preserving selection of exactly the pairs
      whose y lies in the window. */
  lemma {:induction false} KeepIsFilter(pairs: seq<(Float, Float)>, low: Float, high: Float)
    ensures IsSubsequence(Keep(pairs, low, high), pairs)
    ensures forall p :: p in Keep(pairs, low, high) ==> p in pairs && InWindow(p.1, low, high)
    ensures forall p :: p in pairs && InWindow(p.1, low, high) ==> p in Keep(pairs, low, high)
    decreases |pairs|
  {
    if pairs != [] {
      KeepIsFilter(pairs[1..], low, high);
      var r := Keep(pairs, low, high);
      var rest := Keep(pairs[1..], low, high);
      assert pairs == [pairs[0]] + pairs[1..];
      if InWindow(pairs[0].1, low, high) {
        assert r == [pairs[0]] + rest && r[1..] == rest;
      } else {
        assert r == rest;
      }
    }
  }

  /** The two result lists of get_subset_by_y. */
  datatype Subset = Subset(x: seq<Float>, y: seq<Float>)

  function Unzip(pairs: seq<(Float, Float)>): (s: Subset)
    ensures |s.x| == |pairs| == |s.y|
    ensures forall i :: 0 <= i < |pairs| ==> pairs[i] == (s.x[i], s.y[i])
  {
    Subset(seq(|pairs|, i requires 0 <= i < |pairs| => pairs[i].0), seq(|pairs|, i requires 0 <= i < |pairs| => pairs[i].1))
  }

  /** What get_subset_by_y returns: `max(y_data)` raises on empty y_data;
      otherwise the pairs of zip(x, y) inside the window, unzipped. */
  function SubsetByY(x: seq<Float>, y: seq<Float>, upper: real, lower: real): (r: Result<Subset>)
    ensures r.Err? <==> y == []
  {
    var yMax :- PyMax(y);
    Ok(Unzip(Keep(Zip(x, y), Scale(lower, yMax), Scale(upper, yMax))))
  }

  /** get_subset_by_y: one pass over zip(x, y), appending the kept pair's
      x and y to the two result lists. */
  method GetSubsetByY(x: seq<Float>, y: seq<Float>, upper: real, lower: real) returns (r: Result<Subset>)
    ensures r == SubsetByY(x, y, upper, lower)
    ensures r.Ok? ==> |r.value.x| == |r.value.y| <= Min(|x|, |y|)
  {
    var yMax := PyMax(y);
    if yMax.Err? {
      return Err(yMax.error);
    }
    var low := Scale(lower, yMax.value);
    var high := Scale(upper, yMax.value);
    ghost var pairs := Zip(x, y);
    var xs: seq<Float> := [];
    var ys: seq<Float> := [];
    var i := 0;
    while i < Min(|x|, |y|)
      invariant 0 <= i <= |pairs|
      invariant Unzip(Keep(pairs[..i], low, high)) == Subset(xs, ys)
    {
      if InWindow(y[i], low, high) {
        xs := xs + [x[i]];
        ys := ys + [y[i]];
      }
      KeepAppend(pairs[..i], pairs[i], low, high);
      assert pairs[..i + 1] == pairs[..i] + [pairs[i]];
      i := i + 1;
    }
    assert pairs[..i] == pairs;
    return Ok(Subset(xs, ys));
  }

  /** Limits with upper < lower and a positive maximum load leave an empty
      window, so nothing is kept. */
  lemma InvertedLimitsKeepNothing(x: seq<Float>, y: seq<Float>, upper: real, lower: real)
    requires upper < lower
    requires y != [] && PyMax(y).value.Num? && PyMax(y).value.x > 0.0
    ensures SubsetByY(x, y, upper, lower) == Ok(Subset([], []))
  {
    var yMax := PyMax(y).value;
    var low := Scale(lower, yMax);
    var high := Scale(upper, yMax);
    assert high.x < low.x;
    var pairs := Zip(x, y);
    KeepIsFilter(pairs, low, high);
    if Keep(pairs, low, high) != [] {
      assert Keep(pairs, low, high)[0] in Keep(pairs, low, high);
    }
  }

  // ---------------------------------------------------------------------
  // fit_unloading
  // ---------------------------------------------------------------------

  const DefaultUpper: real := 0.95
  const DefaultLower: real := 0.20

  /** Fit parameters of S = A * (h - hf) ** m. */
  datatype PowerLaw = PowerLaw(a: Float, hf: Float, m: Float)

  /** curve_fit bounds: lower and upper limit per parameter (A, hf, m). */
  datatype FitBounds = FitBounds(lower: seq<Float>, upper: seq<Float>)

  /** get_power_law_fit (a SciPy curve_fit call) over x, y, start values and
      bounds; it may raise. */
  type PowerLawFitter = (seq<Float>, seq<Float>, seq<Float>, FitBounds) -> Result<PowerLaw>

  /** calc_S(A, hf, m, h_max). */
  type StiffnessFormula = (PowerLaw, Float) -> Float

  /** The result dictionary: the fit parameters when a fit ran, and S. */
  datatype Unloading = Unloading(fit: Option<PowerLaw>, s: Float)

  const NoFit: Unloading := Unloading(None, Num(0.0))

  /** [A_estimate, hf_estimate, m_start] = [0.1, 0.9 h_max, 1.8]. */
  function StartValues(hMax: Float): (v: seq<Float>)
    ensures |v| == 3 && v[0] == Num(0.1) && v[1] == Scale(0.9, hMax) && v[2] == Num(1.8)
  {
    [Num(0.1), Scale(0.9, hMax), Num(1.8)]
  }

  /** ((0, 0, 1), (1e6, h_max, 1e6)). */
  function UnloadingBounds(hMax: Float): (b: FitBounds)
    ensures |b.lower| == 3 == |b.upper| && b.upper[1] == hMax
  {
    FitBounds([Num(0.0), Num(0.0), Num(1.0)], [Num(1000000.0), hMax, Num(1000000.0)])
  }

  /** For a non-negative h_max (at most 1e6) every start value lies within
      its bounds, as curve_fit requires; a negative h_max makes the hf
      bounds themselves empty. */
  lemma StartValuesFeasible(hMax: Float)
    requires hMax.Num?
    ensures 0.0 <= hMax.x <= 1000000.0 ==>
              forall i :: 0 <= i < 3 ==>
                Le(UnloadingBounds(hMax).lower[i], StartValues(hMax)[i]) && Le(StartValues(hMax)[i], UnloadingBounds(hMax).upper[i])
    ensures hMax.x < 0.0 ==> Lt(UnloadingBounds(hMax).upper[1], UnloadingBounds(hMax).lower[1])
  {
    if 0.0 <= hMax.x <= 1000000.0 {
      forall i | 0 <= i < 3
        ensures Le(UnloadingBounds(hMax).lower[i], StartValues(hMax)[i]) && Le(StartValues(hMax)[i], UnloadingBounds(hMax).upper[i])
      {
        if i == 1 {
          assert StartValues(hMax)[1].x == 0.9 * hMax.x;
        }
      }
    }
  }

  /** fit_unloading: {"S": 0} without a fit for an empty displacement or an
      empty load window; otherwise the fit from the fixed start values and
      bounds, with S computed at h_max = max(displacement). */
  method FitUnloading(displacement: seq<Float>, load: seq<Float>, upper: real, lower: real,
                      fit: PowerLawFitter, calcS: StiffnessFormula) returns (r: Result<Unloading>)
    ensures displacement == [] ==> r == Ok(NoFit)
    ensures displacement != [] && load == [] ==> r == Err(ValueError)
    ensures displacement != [] && load != [] ==>
              var hMax := PyMax(displacement).value;
              var subset := SubsetByY(displacement, load, upper, lower).value;
              && (subset.x == [] ==> r == Ok(NoFit))
              && (subset.x != [] ==>
                    var f := fit(subset.x, subset.y, StartValues(hMax), UnloadingBounds(hMax));
                    r == if f.Err? then Err(f.error) else Ok(Unloading(Some(f.value), calcS(f.value, hMax))))
    ensures r.Ok? && r.value.fit.None? ==> r.value.s == Num(0.0)
  {
    if |displacement| == 0 {
      return Ok(NoFit);
    }
    var hMax := PyMax(displacement).value;
    var subset := GetSubsetByY(displacement, load, upper, lower);
    if subset.Err? {
      return Err(subset.error);
    }
    if |subset.value.x| == 0 {
      return Ok(NoFit);
    }
    var start := StartValues(hMax);
    var bounds := UnloadingBounds(hMax);
    var f := fit(subset.value.x, subset.value.y, start, bounds);
    if f.Err? {
      return Err(f.error);
    }
    return Ok(Unloading(Some(f.value), calcS(f.value, hMax)));
  }

  // ---------------------------------------------------------------------
  // get_avg_strain_rate_and_sigma: index logic
  // ---------------------------------------------------------------------

  predicate Sorted(a: seq<Float>) {
    forall i, j :: 0 <= i < j < |a| ==> Le(a[i], a[j])
  }

  /** The binary search of bisect.bisect_right between lo and hi. */
  function BisectFrom(a: seq<Float>, x: Float, lo: nat, hi: nat): (r: nat)
    requires lo <= hi <= |a|
    ensures lo <= r <= hi
    decreases hi - lo
  {
    if lo >= hi then lo
    else
      var mid := (lo + hi) / 2;
      if Lt(x, a[mid]) then BisectFrom(a, x, lo, mid) else BisectFrom(a, x, mid + 1, hi)
  }

  /** On sorted input bisect_right splits the entries <= x from those > x. */
  lemma {:induction false} BisectSplits(a: seq<Float>, x: Float, lo: nat, hi: nat)
    requires lo <= hi <= |a| && Sorted(a) && NoNaN(a) && x.Num?
    requires forall i :: 0 <= i < lo ==> Le(a[i], x)
    requires forall i :: hi <= i < |a| ==> Lt(x, a[i])
    ensures forall i :: 0 <= i < BisectFrom(a, x, lo, hi) ==> Le(a[i], x)
    ensures forall i :: BisectFrom(a, x, lo, hi) <= i < |a| ==> Lt(x, a[i])
    decreases hi - lo
  {
    if lo < hi {
      var mid := (lo + hi) / 2;
      if Lt(x, a[mid]) {
        forall i | mid <= i < |a| ensures Lt(x, a[i]) {
          if i > mid { assert Le(a[mid], a[i]); }
        }
        BisectSplits(a, x, lo, mid);
      } else {
        forall i | 0 <= i < mid + 1 ensures Le(a[i], x) {
          if i < mid { assert Le(a[i], a[mid]); }
        }
        BisectSplits(a, x, mid + 1, hi);
      }
    }
  }

  /** The number of entries <= x. */
  function CountAtMost(a: seq<Float>, x: Float): (c: nat)
    ensures c <= |a|
  {
    if a == [] then 0 else (if Le(a[0], x) then 1 else 0) + CountAtMost(a[1..], x)
  }

  /** A split point between entries <= x and entries > x is the count of
      entries <= x. */
  lemma {:induction false} SplitIsCount(a: seq<Float>, x: Float, k: nat)
    requires k <= |a|
    requires forall i :: 0 <= i < k ==> Le(a[i], x)
    requires forall i :: k <= i < |a| ==> !Le(a[i], x)
    ensures CountAtMost(a, x) == k
    decreases |a|
  {
    if a != [] {
      SplitIsCount(a[1..], x, if k > 0 then k - 1 else 0);
    }
  }

  /** bisect(a, x): the loop of bisect_right over the whole sequence. */
  method BisectRight(a: seq<Float>, x: Float) returns (lo: nat)
    ensures lo == BisectFrom(a, x, 0, |a|)
    ensures Sorted(a) && NoNaN(a) && x.Num? ==> lo == CountAtMost(a, x)
  {
    lo := 0;
    var hi := |a|;
    while lo < hi
      invariant lo <= hi <= |a|
      invariant BisectFrom(a, x, lo, hi) == BisectFrom(a, x, 0, |a|)
      decreases hi - lo
    {
      var mid := (lo + hi) / 2;
      if Lt(x, a[mid]) {
        hi := mid;
      } else {
        lo := mid + 1;
      }
    }
    if Sorted(a) && NoNaN(a) && x.Num? {
      BisectSplits(a, x, 0, |a|);
      forall i | lo <= i < |a| ensures !Le(a[i], x) { }
      SplitIsCount(a, x, lo);
    }
  }

  /** `parts`: the number of averaging windows. */
  const Parts: nat := 10

  /** `bisect(time, 50)`: hold data after t = 50 is averaged. */
  const HoldStart: Float := Num(50.0)

  /** The first index of window k: window -1 is the seed window
      [minIndex - n, minIndex), and each window starts n after the one
      before it. */
  function WindowStart(minIndex: int, n: int, k: int): int
    requires k >= -1
    decreases k + 1
  {
    if k == -1 then minIndex - n else WindowStart(minIndex, n, k - 1) + n
  }

  /** Window k starts at minIndex + k n, the `start_index` of the loop. */
  lemma {:induction false} WindowStartIs(minIndex: int, n: int, k: int)
    requires k >= -1
    ensures WindowStart(minIndex, n, k) == minIndex + k * n
    decreases k + 1
  {
    if k > -1 {
      WindowStartIs(minIndex, n, k - 1);
      assert (k - 1) * n + n == k * n;
    }
  }

  /** With n = (len - minIndex) div 10 the ten windows after minIndex lie
      inside the data. */
  lemma WindowsInside(len: nat, minIndex: nat, k: nat)
    requires minIndex <= len && k < Parts
    ensures var n := (len - minIndex) / Parts;
            0 <= WindowStart(minIndex, n, k) && WindowStart(minIndex, n, k) + n <= len
  {
    var n := (len - minIndex) / Parts;
    WindowStartIs(minIndex, n, k);
    assert k * n + n <= Parts * n by {
      assert (k + 1) * n <= Parts * n;
    }
  }

  /** The seed window [minIndex - n, minIndex) is the n entries before
      minIndex when there are that many; otherwise its negative start counts
      from the end and the slice is empty. */
  lemma SeedWindow<T>(s: seq<T>, minIndex: nat)
    requires minIndex <= |s|
    ensures var n := (|s| - minIndex) / Parts;
            var lo := WindowStart(minIndex, n, -1);
            && (n <= minIndex ==> PySlice(s, lo, lo + n) == s[minIndex - n..minIndex])
            && (minIndex < n ==> PySlice(s, lo, lo + n) == [])
  {
  }

  /** The averages of one window. */
  datatype Averages = Averages(time: Float, disp: Float, load: Float)

  /** The NumPy arithmetic of the creep averaging, left abstract: np.mean;
      the creep rate (delta_disp * 1e-9 / avg_disp[-2]) / delta_time from the
      previous and current window averages; and the stress
      avg_load * 1e-6 / area. */
  datatype CreepArithmetic = CreepArithmetic(
    mean: seq<Float> -> Float,
    creepRate: (Averages, Averages) -> Float,
    stress: (Float, Float) -> Float)

  /** The averages over the index window [lo, hi). */
  type Averager = (int, int) -> Averages

  /** np.mean of time[lo:hi], disp[lo:hi] and load[lo:hi], with Python's
      slice semantics. */
  function SliceAverages(time: seq<Float>, disp: seq<Float>, load: seq<Float>, mean: seq<Float> -> Float): Averager {
    (lo: int, hi: int) => Averages(mean(PySlice(time, lo, hi)), mean(PySlice(disp, lo, hi)), mean(PySlice(load, lo, hi)))
  }

  /** The averages over window k. */
  function Window(avg: Averager, minIndex: int, n: int, k: int): Averages
    requires k >= -1
  {
    var lo := WindowStart(minIndex, n, k);
    avg(lo, lo + n)
  }

  /** Creep rate k: window k against the window before it. */
  function CreepRateAt(avg: Averager, arith: CreepArithmetic, minIndex: int, n: int, k: nat): Float {
    arith.creepRate(Window(avg, minIndex, n, k - 1), Window(avg, minIndex, n, k))
  }

  /** Stress k: the mean load of window k over the area at its mean
      displacement, scaled by 1e-18. */
  function StressAt(avg: Averager, arith: CreepArithmetic, areaFunction: Float -> Float, minIndex: int, n: int, k: nat): Float {
    var cur := Window(avg, minIndex, n, k);
    arith.stress(cur.load, Scale(1e-18, areaFunction(cur.disp)))
  }

  /** Window k of the slices is the mean over [minIndex + k n, minIndex + (k+1) n),
      the `start_index` and `end_index` of the source loop. */
  lemma WindowOfSlices(time: seq<Float>, disp: seq<Float>, load: seq<Float>, mean: seq<Float> -> Float,
                       minIndex: int, n: int, k: int)
    requires k >= -1
    ensures var lo := minIndex + k * n;
            Window(SliceAverages(time, disp, load, mean), minIndex, n, k)
              == Averages(mean(PySlice(time, lo, lo + n)), mean(PySlice(disp, lo, lo + n)), mean(PySlice(load, lo, lo + n)))
  {
    WindowStartIs(minIndex, n, k);
  }

  /** get_avg_strain_rate_and_sigma: exactly `parts` creep rates and
      stresses over the windows after minIndex = bisect(time, 50), each
      n = (len(time) - minIndex) div parts entries long. */
  method GetAvgStrainRateAndSigma(time: seq<Float>, disp: seq<Float>, load: seq<Float>,
                                  areaFunction: Float -> Float, arith: CreepArithmetic)
    returns (creepRate: seq<Float>, sigma: seq<Float>)
    ensures |creepRate| == Parts && |sigma| == Parts
    ensures var minIndex := BisectFrom(time, HoldStart, 0, |time|);
            var n := (|time| - minIndex) / Parts;
            var avg := SliceAverages(time, disp, load, arith.mean);
            forall k :: 0 <= k < Parts ==>
              creepRate[k] == CreepRateAt(avg, arith, minIndex, n, k) && sigma[k] == StressAt(avg, arith, areaFunction, minIndex, n, k)
  {
    var minIndex := BisectRight(time, HoldStart);
    var n := (|time| - minIndex) / Parts;
    creepRate, sigma := AverageWindows(SliceAverages(time, disp, load, arith.mean), areaFunction, arith, minIndex, n);
  }

  /** The averaging loop of get_avg_strain_rate_and_sigma for a given
      minIndex and window length n: the seed window, then `parts` windows,
      each compared with the one before it. */
  method AverageWindows(avg: Averager, areaFunction: Float -> Float, arith: CreepArithmetic, minIndex: int, n: int)
    returns (creepRate: seq<Float>, sigma: seq<Float>)
    ensures |creepRate| == Parts && |sigma| == Parts
    ensures forall k :: 0 <= k < Parts ==>
              creepRate[k] == CreepRateAt(avg, arith, minIndex, n, k) && sigma[k] == StressAt(avg, arith, areaFunction, minIndex, n, k)
  {
    var startIndex := minIndex - n;
    var endIndex := startIndex + n;
    var prev := avg(startIndex, endIndex);
    creepRate, sigma := [], [];
    var i := 0;
    while i < Parts
      invariant 0 <= i <= Parts
      invariant |creepRate| == i && |sigma| == i
      invariant prev == Window(avg, minIndex, n, i - 1)
      invariant forall k :: 0 <= k < i ==>
                  creepRate[k] == CreepRateAt(avg, arith, minIndex, n, k) && sigma[k] == StressAt(avg, arith, areaFunction, minIndex, n, k)
    {
      WindowStartIs(minIndex, n, i);
      startIndex := minIndex + i * n;
      endIndex := startIndex + n;
      var cur := avg(startIndex, endIndex);
      creepRate := creepRate + [arith.creepRate(prev, cur)];
      sigma := sigma + [arith.stress(cur.load, Scale(1e-18, areaFunction(cur.disp)))];
      prev := cur;
      i := i + 1;
    }
  }
}
