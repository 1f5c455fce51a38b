/** Plot styles (pi88reader/plotter_styles.py): a figure style with an
    optional dpi and figure size, and a graph styler that cycles through a
    colour map, a marker map and a linestyle map, one index per map. */
module PlotterStyles {
  import opened Common

  /** One colour map entry: RGB(A) components. */
  type Color = seq<real>

  /** A value of a matplotlib keyword-argument dictionary. */
  datatype StyleValue = ColorValue(color: Color) | Text(text: string) | Number(number: int)

  type StyleDict = map<string, StyleValue>

  /** `(i + 1) % n`: the next index of a cyclic map of length n; Python
      raises ZeroDivisionError for an empty map. */
  function NextIndex(i: int, n: nat): (r: Result<int>)
    ensures r.Err? <==> n == 0
    ensures r.Err? ==> r.error == ZeroDivisionError
    ensures r.Ok? ==> 0 <= r.value < n
    ensures r.Ok? && -1 <= i < n - 1 ==> r.value == i + 1
    ensures r.Ok? && i == n - 1 ==> r.value == 0
  {
    if n == 0 then Err(ZeroDivisionError) else Ok((i + 1) % n)
  }

  /** The index after k calls of a next_* method, starting from `start`. */
  function Cycle(start: int, n: nat, k: nat): int
    requires n > 0
  {
    if k == 0 then start else NextIndex(Cycle(start, n, k - 1), n).value
  }

  /** From a fresh styler (index 0) the first n - 1 steps count up ... */
  lemma {:induction false} CycleCountsUp(n: nat, k: nat)
    requires n > 0 && k < n
    ensures Cycle(0, n, k) == k
  {
    if k > 0 {
      CycleCountsUp(n, k - 1);
    }
  }

  /** ... and then the index repeats with period n. */
  lemma {:induction false} CycleIsPeriodic(n: nat, k: nat)
    requires n > 0
    ensures Cycle(0, n, k + n) == Cycle(0, n, k)
  {
    if k == 0 {
      CycleCountsUp(n, n - 1);
      assert Cycle(0, n, n) == NextIndex(Cycle(0, n, n - 1), n).value;
    } else {
      CycleIsPeriodic(n, k - 1);
      assert Cycle(0, n, k + n) == NextIndex(Cycle(0, n, k - 1 + n), n).value;
    }
  }

  /** A styler's assertions hold in every state reachable by next_* calls. */
  lemma CycleStaysInRange(start: int, n: nat, k: nat)
    requires n > 0 && 0 <= start < n
    ensures 0 <= Cycle(start, n, k) < n
  {
  }

  class GraphStyler {
    var cmap: seq<Color>
    var markerMap: seq<string>
    var linestyleMap: seq<string>
    var markerSize: int
    var markerEdgeWidth: int
    var colorIndex: int
    var markerIndex: int
    var linestyleIndex: int

    /** Every index lies inside its (non-empty) map. */
    predicate Valid()
      reads this
    {
      && 0 <= colorIndex < |cmap|
      && 0 <= markerIndex < |markerMap|
      && 0 <= linestyleIndex < |linestyleMap|
    }

    /** `GraphStyler(n_colors)`: the colour map (viridis sampled n_colors
        times) is given; marker ".", no line, marker size 4, edge width 0,
        all indices 0. */
    constructor(colors: seq<Color>)
      ensures cmap == colors && markerMap == ["."] && linestyleMap == [""]
      ensures markerSize == 4 && markerEdgeWidth == 0
      ensures colorIndex == 0 && markerIndex == 0 && linestyleIndex == 0
      ensures Valid() <==> colors != []
    {
      cmap := colors;
      markerMap := ["."];
      linestyleMap := [""];
      markerSize := 4;
      markerEdgeWidth := 0;
      colorIndex, markerIndex, linestyleIndex := 0, 0, 0;
    }

    /** The `color` property: {"color": cmap[i]} when the colour index is in
        range, an AssertionError otherwise. */
    function ColorEntry(): (r: Result<StyleDict>)
      reads this
      ensures r.Ok? <==> 0 <= colorIndex < |cmap|
      ensures r.Err? ==> r.error == AssertionError
      ensures r.Ok? ==> r.value == map["color" := ColorValue(cmap[colorIndex])]
    {
      if !(0 <= colorIndex < |cmap|) then Err(AssertionError)
      else Ok(map["color" := ColorValue(cmap[colorIndex % |cmap|])])
    }

    /** The `marker` property. Its assertion checks the colour index, so an
        out-of-range marker index is reduced modulo the map length and an
        empty marker map raises ZeroDivisionError. */
    function MarkerEntry(): (r: Result<StyleDict>)
      reads this
      ensures r.Ok? <==> 0 <= colorIndex < |cmap| && markerMap != []
      ensures !(0 <= colorIndex < |cmap|) ==> r == Err(AssertionError)
      ensures r.Ok? ==> r.value.Keys == {"marker", "markeredgewidth", "markersize"}
      ensures r.Ok? ==> r.value["marker"].Text? && r.value["marker"].text in markerMap
      ensures r.Ok? ==> r.value["marker"] == Text(markerMap[markerIndex % |markerMap|])
      ensures r.Ok? && 0 <= markerIndex < |markerMap| ==> r.value["marker"] == Text(markerMap[markerIndex])
      ensures r.Ok? ==> r.value["markeredgewidth"] == Number(markerEdgeWidth) && r.value["markersize"] == Number(markerSize)
    {
      if !(0 <= colorIndex < |cmap|) then Err(AssertionError)
      else if |markerMap| == 0 then Err(ZeroDivisionError)
      else
        var marker := markerMap[markerIndex % |markerMap|];
        Ok(map["marker" := Text(marker), "markeredgewidth" := Number(markerEdgeWidth), "markersize" := Number(markerSize)])
    }

    /** The `linestyle` property. */
    function LinestyleEntry(): (r: Result<StyleDict>)
      reads this
      ensures r.Ok? <==> 0 <= linestyleIndex < |linestyleMap|
      ensures r.Err? ==> r.error == AssertionError
      ensures r.Ok? ==> r.value == map["linestyle" := Text(linestyleMap[linestyleIndex])]
    {
      if !(0 <= linestyleIndex < |linestyleMap|) then Err(AssertionError)
      else Ok(map["linestyle" := Text(linestyleMap[linestyleIndex % |linestyleMap|])])
    }

    /** The `dict` property: the colour entry updated with the marker and
        the linestyle entries; the first failing property raises. */
    function Dict(): (r: Result<StyleDict>)
      reads this
      ensures r.Ok? <==> ColorEntry().Ok? && MarkerEntry().Ok? && LinestyleEntry().Ok?
      ensures r.Err? && ColorEntry().Err? ==> r.error == ColorEntry().error
      ensures ColorEntry().Ok? && MarkerEntry().Err? ==> r == Err(MarkerEntry().error)
      ensures ColorEntry().Ok? && MarkerEntry().Ok? && LinestyleEntry().Err? ==> r == Err(LinestyleEntry().error)
      ensures r.Ok? ==> r.value.Keys == {"color", "marker", "markeredgewidth", "markersize", "linestyle"}
      ensures r.Ok? ==> forall key :: key in MarkerEntry().value ==> r.value[key] == MarkerEntry().value[key]
      ensures r.Ok? ==> r.value["color"] == ColorEntry().value["color"] && r.value["linestyle"] == LinestyleEntry().value["linestyle"]
    {
      var color :- ColorEntry();
      var marker :- MarkerEntry();
      var linestyle :- LinestyleEntry();
      Ok(color + marker + linestyle)
    }

    /** A valid styler's properties never raise. */
    lemma ValidDict()
      requires Valid()
      ensures Dict().Ok?
    {
    }

    method NextColor() returns (r: Option<Error>)
      modifies this`colorIndex
      ensures var next := NextIndex(old(colorIndex), |cmap|);
              if next.Err? then r == Some(next.error) && colorIndex == old(colorIndex)
              else r == None && colorIndex == next.value
    {
      var next := NextIndex(colorIndex, |cmap|);
      if next.Err? {
        return Some(next.error);
      }
      colorIndex := next.value;
      return None;
    }

    method NextMarker() returns (r: Option<Error>)
      modifies this`markerIndex
      ensures var next := NextIndex(old(markerIndex), |markerMap|);
              if next.Err? then r == Some(next.error) && markerIndex == old(markerIndex)
              else r == None && markerIndex == next.value
    {
      var next := NextIndex(markerIndex, |markerMap|);
      if next.Err? {
        return Some(next.error);
      }
      markerIndex := next.value;
      return None;
    }

    method NextLinestyle() returns (r: Option<Error>)
      modifies this`linestyleIndex
      ensures var next := NextIndex(old(linestyleIndex), |linestyleMap|);
              if next.Err? then r == Some(next.error) && linestyleIndex == old(linestyleIndex)
              else r == None && linestyleIndex == next.value
    {
      var next := NextIndex(linestyleIndex, |linestyleMap|);
      if next.Err? {
        return Some(next.error);
      }
      linestyleIndex := next.value;
      return None;
    }

    /** `next_style`: one step of each index; a valid styler stays valid.
        The first empty map raises, after the indices before it have moved. */
    method NextStyle() returns (r: Option<Error>)
      modifies this`colorIndex, this`markerIndex, this`linestyleIndex
      ensures old(Valid()) ==> r == None && Valid()
      ensures r == (if cmap == [] || markerMap == [] || linestyleMap == [] then Some(ZeroDivisionError) else None)
      ensures colorIndex == (if cmap == [] then old(colorIndex) else (old(colorIndex) + 1) % |cmap|)
      ensures markerIndex == (if cmap == [] || markerMap == [] then old(markerIndex) else (old(markerIndex) + 1) % |markerMap|)
      ensures linestyleIndex == (if cmap == [] || markerMap == [] || linestyleMap == [] then old(linestyleIndex)
                                 else (old(linestyleIndex) + 1) % |linestyleMap|)
      ensures r == None ==>
                && NextIndex(old(colorIndex), |cmap|) == Ok(colorIndex)
                && NextIndex(old(markerIndex), |markerMap|) == Ok(markerIndex)
                && NextIndex(old(linestyleIndex), |linestyleMap|) == Ok(linestyleIndex)
    {
      r := NextColor();
      if r.Some? {
        return;
      }
      r := NextMarker();
      if r.Some? {
        return;
      }
      r := NextLinestyle();
    }
  }

  /** A figure style: optional dpi and figure size, and an optional graph
      styler. */
  class PlotterStyle {
    var dpi: Option<int>
    var figureSize: Option<(real, real)>
    var graphStyler: GraphStyler?

    constructor(dpi: Option<int>, figureSize: Option<(real, real)>)
      ensures this.dpi == dpi && this.figureSize == figureSize && graphStyler == null
    {
      this.dpi := dpi;
      this.figureSize := figureSize;
      graphStyler := null;
    }
  }

  /** get_plotter_style_default: dpi 150, figure size 5.6 x 5.0, no styler. */
  method DefaultPlotterStyle() returns (style: PlotterStyle)
    ensures fresh(style)
    ensures style.dpi == Some(150) && style.figureSize == Some((5.6, 5.0)) && style.graphStyler == null
  {
    style := new PlotterStyle(Some(150), Some((5.6, 5.0)));
  }

  /** The colours black, red, blue and green. */
  const Bernhard4Colors: seq<Color> := [[0.0, 0.0, 0.0], [1.0, 0.0, 0.0], [0.0, 0.0, 1.0], [0.0, 1.0, 0.0]]

  /** get_plotter_style_bernhard_4: no dpi or size, and a fresh styler with
      four colours, four markers and no line. */
  method Bernhard4PlotterStyle(viridis: seq<Color>) returns (style: PlotterStyle)
    ensures fresh(style) && fresh(style.graphStyler)
    ensures style.dpi == None && style.figureSize == None
    ensures style.graphStyler != null
    ensures var g := style.graphStyler;
            && g.cmap == Bernhard4Colors && g.markerMap == ["o", "s", "<", ">"] && g.linestyleMap == [""]
            && g.markerSize == 4 && g.markerEdgeWidth == 0
            && g.colorIndex == 0 && g.markerIndex == 0 && g.linestyleIndex == 0
            && g.Valid()
  {
    style := new PlotterStyle(None, None);
    var g := new GraphStyler(viridis);
    g.linestyleMap := [""];
    g.markerMap := ["o", "s", "<", ">"];
    g.cmap := Bernhard4Colors;
    style.graphStyler := g;
  }
}
