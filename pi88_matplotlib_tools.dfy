/** The plot style of pi88reader/pi88_matplotlib_tools.py: a colour index
    and a marker index cycling through their maps. */
module Pi88MatplotlibTools {
  import opened Common
  import opened PlotterStyles

  class PlotStyle {
    var line: StyleDict
    var cmap: seq<Color>
    var markerMap: seq<string>
    var colorIndex: int
    var markerIndex: int

    predicate Valid()
      reads this
    {
      0 <= colorIndex < |cmap| && 0 <= markerIndex < |markerMap|
    }

    /** `PlotStyle(n_colors)`: no line, the given colour map (viridis
        sampled n_colors times), markers "x", "+", "1", both indices 0. */
    constructor(colors: seq<Color>)
      ensures line == map["linestyle" := Text("")]
      ensures cmap == colors && markerMap == ["x", "+", "1"]
      ensures colorIndex == 0 && markerIndex == 0
      ensures Valid() <==> colors != []
    {
      line := map["linestyle" := Text("")];
      cmap := colors;
      markerMap := ["x", "+", "1"];
      colorIndex, markerIndex := 0, 0;
    }

    /** The `color` property: the current colour map entry. */
    function CurrentColor(): (r: Result<Color>)
      reads this
      ensures r.Ok? <==> 0 <= colorIndex < |cmap|
      ensures r.Err? ==> r.error == AssertionError
      ensures r.Ok? ==> r.value == cmap[colorIndex]
    {
      if !(0 <= colorIndex < |cmap|) then Err(AssertionError)
      else Ok(cmap[colorIndex % |cmap|])
    }

    /** The `marker` property: edge width 1 and size 6. As in GraphStyler its
        assertion checks the colour index, not the marker index. */
    function MarkerEntry(): (r: Result<StyleDict>)
      reads this
      ensures r.Ok? <==> 0 <= colorIndex < |cmap| && markerMap != []
      ensures !(0 <= colorIndex < |cmap|) ==> r == Err(AssertionError)
      ensures r.Ok? ==> r.value.Keys == {"marker", "markeredgewidth", "markersize"}
      ensures r.Ok? ==> r.value["marker"].Text? && r.value["marker"].text in markerMap
      ensures r.Ok? ==> r.value["marker"] == Text(markerMap[markerIndex % |markerMap|])
      ensures r.Ok? && 0 <= markerIndex < |markerMap| ==> r.value["marker"] == Text(markerMap[markerIndex])
      ensures r.Ok? ==> r.value["markeredgewidth"] == Number(1) && r.value["markersize"] == Number(6)
    {
      if !(0 <= colorIndex < |cmap|) then Err(AssertionError)
      else if |markerMap| == 0 then Err(ZeroDivisionError)
      else
        var marker := markerMap[markerIndex % |markerMap|];
        Ok(map["marker" := Text(marker), "markeredgewidth" := Number(1), "markersize" := Number(6)])
    }

    /** An out-of-range marker index passes the assertion of `marker`. */
    lemma MarkerChecksColorIndex()
      requires 0 <= colorIndex < |cmap| && markerMap != []
      requires !(0 <= markerIndex < |markerMap|)
      ensures MarkerEntry().Ok?
    {
    }

    method NextColor() returns (r: Option<Error>)
      modifies this`colorIndex
      ensures var next := NextIndex(old(colorIndex), |cmap|);
              if next.Err? then r == Some(next.error) && colorIndex == old(colorIndex)
              else r == None && colorIndex == next.value
    {
      var next := NextIndex(colorIndex, |cmap|);
      if next.Err? {
        return Some(next.error);
      }
      colorIndex := next.value;
      return None;
    }

    method NextMarker() returns (r: Option<Error>)
      modifies this`markerIndex
      ensures var next := NextIndex(old(markerIndex), |markerMap|);
              if next.Err? then r == Some(next.error) && markerIndex == old(markerIndex)
              else r == None && markerIndex == next.value
    {
      var next := NextIndex(markerIndex, |markerMap|);
      if next.Err? {
        return Some(next.error);
      }
      markerIndex := next.value;
      return None;
    }

    /** `next_style`: one step of both indices; a valid style stays valid.
        An empty colour map raises before anything moves, an empty marker
        map after the colour index has moved. */
    method NextStyle() returns (r: Option<Error>)
      modifies this`colorIndex, this`markerIndex
      ensures old(Valid()) ==> r == None && Valid()
      ensures r == (if cmap == [] || markerMap == [] then Some(ZeroDivisionError) else None)
      ensures colorIndex == (if cmap == [] then old(colorIndex) else (old(colorIndex) + 1) % |cmap|)
      ensures markerIndex == (if cmap == [] || markerMap == [] then old(markerIndex) else (old(markerIndex) + 1) % |markerMap|)
      ensures r == None ==>
                && NextIndex(old(colorIndex), |cmap|) == Ok(colorIndex)
                && NextIndex(old(markerIndex), |markerMap|) == Ok(markerIndex)
    {
      r := NextColor();
      if r.Some? {
        return;
      }
      r := NextMarker();
    }
  }
}
