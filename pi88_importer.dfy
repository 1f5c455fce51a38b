/** The PI-88 measurement model (pi88reader/pi88_importer.py): segment
    classification and time-window masks, the area-function coefficients
    read from the settings, and the measurement object whose dynamic
    channels are stripped of NaN. Channel arrays are sequences of `Float`;
    an attribute the reader left at None is an absent entry. */
module Pi88Importer {
  import opened Common
  import opened TdmImporter

  // ---------------------------------------------------------------------
  // Segment classification
  // ---------------------------------------------------------------------

  datatype SegmentType = Load | Unload | Hold | Unknown

  /** PI88Segments.get_segment_type for one segment's begin and end demand. */
  function SegmentTypeOf(begin: Float, end: Float): (r: SegmentType)
    ensures r == Load <==> Lt(begin, end)
    ensures r == Unload <==> Gt(begin, end)
    ensures r == Hold <==> Eq(begin, end) && Gt(end, Num(0.0))
  {
    if Lt(begin, end) then Load
    else if Gt(begin, end) then Unload
    else if Eq(begin, end) && Gt(end, Num(0.0)) then Hold
    else Unknown
  }

  /** Equal demands at or below zero, and any NaN demand, are UNKNOWN. */
  lemma UnknownSegments(begin: Float, end: Float)
    ensures begin.NaN? || end.NaN? ==> SegmentTypeOf(begin, end) == Unknown
    ensures begin.Num? && end.Num? && begin.x == end.x <= 0.0 ==> SegmentTypeOf(begin, end) == Unknown
  {
  }

  /** Labels of the first m segments. */
  function Labels(beginDemand: seq<Float>, endDemand: seq<Float>, m: nat): (r: seq<SegmentType>)
    requires m <= |beginDemand| && m <= |endDemand|
    ensures |r| == m
    ensures forall i :: 0 <= i < m ==> r[i] == SegmentTypeOf(beginDemand[i], endDemand[i])
  {
    seq(m, i requires 0 <= i < m => SegmentTypeOf(beginDemand[i], endDemand[i]))
  }

  /** `array[i]` where the attribute may be None (TypeError). */
  function Subscript(a: Option<seq<Float>>, i: int): (r: Result<Float>)
    ensures a.None? ==> r == Err(TypeError)
    ensures a.Some? ==> r == PyIndex(a.value, i)
  {
    if a.None? then Err(TypeError) else PyIndex(a.value, i)
  }

  /** How many labels calc_segment_types appends before it stops: it walks
      the indices of `time` and fails at the first index one of the demand
      arrays lacks. */
  function LabelCount(time: seq<Float>, beginDemand: Option<seq<Float>>, endDemand: Option<seq<Float>>): (m: nat)
    ensures m <= |time|
    ensures beginDemand.Some? && endDemand.Some? ==> m <= |beginDemand.value| && m <= |endDemand.value|
  {
    if beginDemand.None? || endDemand.None? then 0
    else Min(|time|, Min(|beginDemand.value|, |endDemand.value|))
  }

  /** The exception calc_segment_types stops with, if any: TypeError when
      there is no `time`, otherwise the one raised by indexing a demand array
      at the first index that cannot be labelled (the begin demand is indexed
      first). */
  function LabelError(time: Option<seq<Float>>, beginDemand: Option<seq<Float>>, endDemand: Option<seq<Float>>): (r: Option<Error>)
    ensures r.None? <==> time.Some? && LabelCount(time.value, beginDemand, endDemand) == |time.value|
    ensures r.Some? ==> r.value in {TypeError, IndexError}
    ensures beginDemand.Some? && endDemand.Some? && time.Some? && |time.value| <= |beginDemand.value| && |time.value| <= |endDemand.value| ==> r.None?
  {
    if time.None? then Some(TypeError)
    else
      var m := LabelCount(time.value, beginDemand, endDemand);
      if m == |time.value| then None
      else if Subscript(beginDemand, m).Err? then Some(Subscript(beginDemand, m).error)
      else if Subscript(endDemand, m).Err? then Some(Subscript(endDemand, m).error)
      else assert false; None
  }

  // ---------------------------------------------------------------------
  // The segment-mask scan
  // ---------------------------------------------------------------------

  /** The loop of get_segment_mask from index i on, with `counter` matches
      seen and the bounds of the last match: returns the bounds it ends with
      (None when `begin`/`end` were never bound). */
  function Scan(
    types: seq<SegmentType>, tb: Option<seq<Float>>, te: Option<seq<Float>>, n: nat,
    wanted: SegmentType, occurrence: int, i: nat, counter: int, bounds: Option<(Float, Float)>)
    : Result<Option<(Float, Float)>>
    decreases n - i
  {
    if i >= n then Ok(bounds)
    else
      var st :- PyIndex(types, i);
      if st == wanted then
        var b :- Subscript(tb, i);
        var e :- Subscript(te, i);
        if counter + 1 == occurrence then Ok(Some((b, e)))
        else Scan(types, tb, te, n, wanted, occurrence, i + 1, counter + 1, Some((b, e)))
      else if counter == occurrence then Ok(bounds)
      else Scan(types, tb, te, n, wanted, occurrence, i + 1, counter, bounds)
  }

  /** `(begin <= array) & (array <= end)`. */
  function Mask(values: seq<Float>, begin: Float, end: Float): (m: seq<bool>)
    ensures |m| == |values|
    ensures forall j :: 0 <= j < |m| ==> (m[j] <==> Le(begin, values[j]) && Le(values[j], end))
  {
    seq(|values|, j requires 0 <= j < |values| => Le(begin, values[j]) && Le(values[j], end))
  }

  /** The result of get_segment_mask given the outcome of its scan. */
  function MaskAfterScan(scan: Result<Option<(Float, Float)>>, values: Option<seq<Float>>): Result<seq<bool>>
  {
    if scan.Err? then Err(scan.error)
    else if scan.value.None? then Err(UnboundLocalError)
    else if values.None? then Err(TypeError)
    else Ok(Mask(values.value, scan.value.value.0, scan.value.value.1))
  }

  /** Indices of the segments among the first n labelled `wanted`, in order. */
  function Matches(types: seq<SegmentType>, wanted: SegmentType, n: nat): (r: seq<nat>)
    requires n <= |types|
    ensures |r| <= n
    ensures forall k :: 0 <= k < |r| ==> r[k] < n
  {
    if n == 0 then [] else Matches(types, wanted, n - 1) + (if types[n - 1] == wanted then [n - 1] else [])
  }

  /** Matches lists exactly the indices labelled `wanted`, ascending. */
  lemma MatchesExactly(types: seq<SegmentType>, wanted: SegmentType, n: nat)
    requires n <= |types|
    ensures var m := Matches(types, wanted, n);
            && (forall k :: 0 <= k < |m| ==> types[m[k]] == wanted)
            && (forall k, l :: 0 <= k < l < |m| ==> m[k] < m[l])
            && (forall i :: 0 <= i < n && types[i] == wanted ==> i in m)
  {
    MatchesLabelled(types, wanted, n);
    MatchesAscending(types, wanted, n);
    MatchesComplete(types, wanted, n);
  }

  lemma {:induction false} MatchesLabelled(types: seq<SegmentType>, wanted: SegmentType, n: nat)
    requires n <= |types|
    ensures forall k :: 0 <= k < |Matches(types, wanted, n)| ==> types[Matches(types, wanted, n)[k]] == wanted
  {
    if n > 0 {
      MatchesLabelled(types, wanted, n - 1);
      var p := Matches(types, wanted, n - 1);
      var m := Matches(types, wanted, n);
      if types[n - 1] == wanted {
        assert m == p + [n - 1];
        forall k | 0 <= k < |m| ensures types[m[k]] == wanted {
          if k < |p| {
            assert m[k] == p[k];
          }
        }
      } else {
        assert m == p;
      }
    }
  }

  lemma {:induction false} MatchesAscending(types: seq<SegmentType>, wanted: SegmentType, n: nat)
    requires n <= |types|
    ensures forall k, l :: 0 <= k < l < |Matches(types, wanted, n)| ==> Matches(types, wanted, n)[k] < Matches(types, wanted, n)[l]
  {
    if n > 0 {
      MatchesAscending(types, wanted, n - 1);
      var p := Matches(types, wanted, n - 1);
      var m := Matches(types, wanted, n);
      if types[n - 1] == wanted {
        assert m == p + [n - 1];
        forall k, l | 0 <= k < l < |m| ensures m[k] < m[l] {
          assert m[k] == p[k] && p[k] < n - 1;
          if l < |p| {
            assert m[l] == p[l];
          }
        }
      } else {
        assert m == p;
      }
    }
  }

  lemma {:induction false} MatchesComplete(types: seq<SegmentType>, wanted: SegmentType, n: nat)
    requires n <= |types|
    ensures forall i :: 0 <= i < n && types[i] == wanted ==> i in Matches(types, wanted, n)
  {
    if n > 0 {
      MatchesComplete(types, wanted, n - 1);
      var p := Matches(types, wanted, n - 1);
      var m := Matches(types, wanted, n);
      forall i | 0 <= i < n && types[i] == wanted ensures i in m {
        if i < n - 1 {
          assert i in p;
        }
      }
    }
  }

  lemma {:induction false} MatchesPrefix(types: seq<SegmentType>, wanted: SegmentType, i: nat, n: nat)
    requires i <= n <= |types|
    ensures |Matches(types, wanted, i)| <= |Matches(types, wanted, n)|
    ensures Matches(types, wanted, n)[..|Matches(types, wanted, i)|] == Matches(types, wanted, i)
    decreases n - i
  {
    if i < n {
      MatchesPrefix(types, wanted, i, n - 1);
      var mn := Matches(types, wanted, n);
      var mp := Matches(types, wanted, n - 1);
      assert mn[..|mp|] == mp;
    }
  }

  /** Well-formed segment tables: every per-segment array covers the n
      segments the loop visits. */
  predicate SegmentsCover(types: seq<SegmentType>, tb: Option<seq<Float>>, te: Option<seq<Float>>, n: nat) {
    n <= |types| && tb.Some? && te.Some? && n <= |tb.value| && n <= |te.value|
  }

  /** Which segment get_segment_mask takes its bounds from: the k-th match
      when k >= 1 and there are that many; with occurrence 0 the loop breaks
      at index 0 unless segment 0 matches; otherwise the last match. */
  function SelectedSegment(types: seq<SegmentType>, wanted: SegmentType, n: nat, occurrence: int): (sel: Option<nat>)
    requires n <= |types|
    ensures sel.Some? ==> sel.value < n
  {
    var m := Matches(types, wanted, n);
    if occurrence >= 1 && |m| >= occurrence then Some(m[occurrence - 1])
    else if occurrence == 0 && n > 0 && types[0] != wanted then None
    else if |m| > 0 then Some(m[|m| - 1])
    else None
  }

  function SelectedBounds(types: seq<SegmentType>, tb: Option<seq<Float>>, te: Option<seq<Float>>, n: nat, wanted: SegmentType, occurrence: int)
    : Option<(Float, Float)>
    requires SegmentsCover(types, tb, te, n)
  {
    var sel := SelectedSegment(types, wanted, n, occurrence);
    if sel.Some? then Some((tb.value[sel.value], te.value[sel.value])) else None
  }

  /** The bounds of the last index in m, None when m is empty. */
  function LastBounds(tb: seq<Float>, te: seq<Float>, m: seq<nat>): Option<(Float, Float)>
    requires forall k :: 0 <= k < |m| ==> m[k] < |tb| && m[k] < |te|
  {
    if m == [] then None else Some((tb[m[|m| - 1]], te[m[|m| - 1]]))
  }

  /** One iteration of the get_segment_mask loop. */
  lemma ScanStep(
    types: seq<SegmentType>, tb: Option<seq<Float>>, te: Option<seq<Float>>, n: nat,
    wanted: SegmentType, k: int, i: nat, c: int, bounds: Option<(Float, Float)>)
    requires SegmentsCover(types, tb, te, n) && i < n
    ensures Scan(types, tb, te, n, wanted, k, i, c, bounds)
         == if types[i] == wanted then
              (if c + 1 == k then Ok(Some((tb.value[i], te.value[i])))
               else Scan(types, tb, te, n, wanted, k, i + 1, c + 1, Some((tb.value[i], te.value[i]))))
            else if c == k then Ok(bounds)
            else Scan(types, tb, te, n, wanted, k, i + 1, c, bounds)
  {
  }

  /** At the end of the loop the bounds are those of the last match. */
  lemma SelectedAtEnd(types: seq<SegmentType>, tb: Option<seq<Float>>, te: Option<seq<Float>>, n: nat, wanted: SegmentType, k: int)
    requires SegmentsCover(types, tb, te, n)
    requires k >= 1 ==> |Matches(types, wanted, n)| < k
    requires k == 0 && n > 0 ==> types[0] == wanted
    ensures SelectedBounds(types, tb, te, n, wanted, k) == LastBounds(tb.value, te.value, Matches(types, wanted, n))
  {
  }

  /** The k-th match breaks the loop with its own bounds. */
  lemma SelectedAtKth(types: seq<SegmentType>, tb: Option<seq<Float>>, te: Option<seq<Float>>, n: nat, wanted: SegmentType, k: int, i: nat)
    requires SegmentsCover(types, tb, te, n) && i < n && types[i] == wanted && k >= 1
    requires |Matches(types, wanted, i)| == k - 1
    ensures SelectedBounds(types, tb, te, n, wanted, k) == Some((tb.value[i], te.value[i]))
  {
    MatchesPrefix(types, wanted, i + 1, n);
    var mi1 := Matches(types, wanted, i + 1);
    assert mi1 == Matches(types, wanted, i) + [i];
    var mn := Matches(types, wanted, n);
    assert mn[..k] == mi1;
    assert mn[k - 1] == i;
  }

  /** Occurrence 0 and a first segment of another type: the loop breaks
      at once, with nothing bound. */
  lemma SelectedAtBreak(types: seq<SegmentType>, tb: Option<seq<Float>>, te: Option<seq<Float>>, n: nat, wanted: SegmentType)
    requires SegmentsCover(types, tb, te, n) && 0 < n && types[0] != wanted
    ensures SelectedBounds(types, tb, te, n, wanted, 0) == None
  {
  }

  lemma CountAfterFirst(types: seq<SegmentType>, wanted: SegmentType, i: nat)
    requires 0 < i <= |types| && types[0] == wanted
    ensures |Matches(types, wanted, i)| >= 1
  {
    MatchesPrefix(types, wanted, 1, i);
    assert Matches(types, wanted, 1) == [0];
  }

  /** The loop from index i on, with c matches and the last match's bounds
      seen so far, ends with the selected bounds. */
  lemma {:induction false} ScanFrom(
    types: seq<SegmentType>, tb: Option<seq<Float>>, te: Option<seq<Float>>, n: nat,
    wanted: SegmentType, k: int, i: nat, c: int, bounds: Option<(Float, Float)>)
    requires SegmentsCover(types, tb, te, n) && i <= n
    requires c == |Matches(types, wanted, i)|
    requires bounds == LastBounds(tb.value, te.value, Matches(types, wanted, i))
    requires k >= 1 ==> c < k
    requires k == 0 && i > 0 ==> types[0] == wanted
    ensures Scan(types, tb, te, n, wanted, k, i, c, bounds) == Ok(SelectedBounds(types, tb, te, n, wanted, k))
    decreases n - i, 1
  {
    if k == 0 && i > 0 {
      CountAfterFirst(types, wanted, i);
    }
    if i == n {
      SelectedAtEnd(types, tb, te, n, wanted, k);
    } else if types[i] == wanted {
      ScanFromMatch(types, tb, te, n, wanted, k, i, c, bounds);
    } else {
      ScanFromOther(types, tb, te, n, wanted, k, i, c, bounds);
    }
  }

  /** A segment of the wanted type: either the k-th match, or one more
      match whose bounds are remembered. */
  lemma {:induction false} ScanFromMatch(
    types: seq<SegmentType>, tb: Option<seq<Float>>, te: Option<seq<Float>>, n: nat,
    wanted: SegmentType, k: int, i: nat, c: int, bounds: Option<(Float, Float)>)
    requires SegmentsCover(types, tb, te, n) && i < n && types[i] == wanted
    requires c == |Matches(types, wanted, i)|
    requires k >= 1 ==> c < k
    requires k == 0 ==> types[0] == wanted
    ensures Scan(types, tb, te, n, wanted, k, i, c, bounds) == Ok(SelectedBounds(types, tb, te, n, wanted, k))
    decreases n - i, 0
  {
    ScanStep(types, tb, te, n, wanted, k, i, c, bounds);
    if c + 1 == k {
      SelectedAtKth(types, tb, te, n, wanted, k, i);
    } else {
      var mi := Matches(types, wanted, i);
      var next := Matches(types, wanted, i + 1);
      assert next == mi + [i];
      assert LastBounds(tb.value, te.value, next) == Some((tb.value[i], te.value[i]));
      ScanFrom(types, tb, te, n, wanted, k, i + 1, c + 1, Some((tb.value[i], te.value[i])));
    }
  }

  /** A segment of another type: the loop breaks when c == k, and otherwise
      moves on. */
  lemma {:induction false} ScanFromOther(
    types: seq<SegmentType>, tb: Option<seq<Float>>, te: Option<seq<Float>>, n: nat,
    wanted: SegmentType, k: int, i: nat, c: int, bounds: Option<(Float, Float)>)
    requires SegmentsCover(types, tb, te, n) && i < n && types[i] != wanted
    requires c == |Matches(types, wanted, i)|
    requires bounds == LastBounds(tb.value, te.value, Matches(types, wanted, i))
    requires k >= 1 ==> c < k
    requires k == 0 && i > 0 ==> types[0] == wanted && c >= 1
    ensures Scan(types, tb, te, n, wanted, k, i, c, bounds) == Ok(SelectedBounds(types, tb, te, n, wanted, k))
    decreases n - i, 0
  {
    ScanStep(types, tb, te, n, wanted, k, i, c, bounds);
    if c == k {
      SelectedAtBreak(types, tb, te, n, wanted);
    } else {
      assert Matches(types, wanted, i + 1) == Matches(types, wanted, i);
      ScanFrom(types, tb, te, n, wanted, k, i + 1, c, bounds);
    }
  }

  /** The bounds get_segment_mask ends with, on well-formed tables: those of
      the segment SelectedSegment names, and unbound when it names none. */
  lemma ScanSelects(types: seq<SegmentType>, tb: Option<seq<Float>>, te: Option<seq<Float>>, n: nat, wanted: SegmentType, k: int)
    requires SegmentsCover(types, tb, te, n)
    ensures Scan(types, tb, te, n, wanted, k, 0, 0, None) == Ok(SelectedBounds(types, tb, te, n, wanted, k))
  {
    ScanFrom(types, tb, te, n, wanted, k, 0, 0, None);
  }

  /** With k >= 1 matches available, the k-th segment of the wanted type in
      stored order supplies the bounds. */
  lemma MaskUsesKthMatch(types: seq<SegmentType>, tb: Option<seq<Float>>, te: Option<seq<Float>>, n: nat, wanted: SegmentType, k: int, values: seq<Float>)
    requires SegmentsCover(types, tb, te, n)
    requires k >= 1 && |Matches(types, wanted, n)| >= k
    ensures var i := Matches(types, wanted, n)[k - 1];
            && types[i] == wanted
            && |set j | 0 <= j < i && types[j] == wanted| == k - 1
            && MaskAfterScan(Scan(types, tb, te, n, wanted, k, 0, 0, None), Some(values))
                 == Ok(Mask(values, tb.value[i], te.value[i]))
  {
    ScanSelects(types, tb, te, n, wanted, k);
    MatchesExactly(types, wanted, n);
    KthMatchCount(types, wanted, n, k);
  }

  /** Exactly k - 1 segments before the k-th match have the wanted type. */
  lemma KthMatchCount(types: seq<SegmentType>, wanted: SegmentType, n: nat, k: int)
    requires n <= |types| && k >= 1 && |Matches(types, wanted, n)| >= k
    ensures |set j | 0 <= j < Matches(types, wanted, n)[k - 1] && types[j] == wanted| == k - 1
  {
    MatchesExactly(types, wanted, n);
    KthIndexCount(types, wanted, Matches(types, wanted, n), n, k);
  }

  /** The same for any ascending list of exactly the wanted indices below n. */
  lemma KthIndexCount(types: seq<SegmentType>, wanted: SegmentType, m: seq<nat>, n: nat, k: int)
    requires n <= |types| && 1 <= k <= |m|
    requires forall l :: 0 <= l < |m| ==> m[l] < n && types[m[l]] == wanted
    requires forall l, l' :: 0 <= l < l' < |m| ==> m[l] < m[l']
    requires forall j :: 0 <= j < n && types[j] == wanted ==> j in m
    ensures |set j | 0 <= j < m[k - 1] && types[j] == wanted| == k - 1
  {
    var i := m[k - 1];
    var before := set j | 0 <= j < i && types[j] == wanted;
    var image := set l | 0 <= l < k - 1 :: m[l];
    forall j | j in before ensures j in image {
      assert j in m;
      var l :| 0 <= l < |m| && m[l] == j;
      assert l < k - 1;
    }
    forall l | 0 <= l < k - 1 ensures m[l] in before {
      assert m[l] < i && types[m[l]] == wanted;
    }
    assert before == image;
    DistinctImageSize(m, k - 1);
  }

  /** An ascending list has as many distinct entries in its prefix as the
      prefix is long. */
  lemma {:induction false} DistinctImageSize(m: seq<nat>, len: nat)
    requires len <= |m|
    requires forall k, l :: 0 <= k < l < |m| ==> m[k] < m[l]
    ensures |set l | 0 <= l < len :: m[l]| == len
  {
    if len > 0 {
      DistinctImageSize(m, len - 1);
      var s := set l | 0 <= l < len - 1 :: m[l];
      assert (set l | 0 <= l < len :: m[l]) == s + {m[len - 1]};
      assert m[len - 1] !in s;
    }
  }

  /** Fewer than k matches (or k negative): the LAST match supplies the
      bounds; with no match at all `begin` is unbound and the call fails. */
  lemma MaskFallsBackToLastMatch(types: seq<SegmentType>, tb: Option<seq<Float>>, te: Option<seq<Float>>, n: nat, wanted: SegmentType, k: int, values: seq<Float>)
    requires SegmentsCover(types, tb, te, n)
    requires k < 0 || (k >= 1 && |Matches(types, wanted, n)| < k)
    ensures var m := Matches(types, wanted, n);
            && (m == [] ==> MaskAfterScan(Scan(types, tb, te, n, wanted, k, 0, 0, None), Some(values)) == Err(UnboundLocalError))
            && (m != [] ==> MaskAfterScan(Scan(types, tb, te, n, wanted, k, 0, 0, None), Some(values))
                              == Ok(Mask(values, tb.value[m[|m| - 1]], te.value[m[|m| - 1]])))
  {
    ScanSelects(types, tb, te, n, wanted, k);
  }

  /** Occurrence 0: the count is compared only after segment 0 is examined,
      so the call fails unless segment 0 has the wanted type, and then the
      count passes 0 for good and the last match supplies the bounds. */
  lemma MaskOccurrenceZero(types: seq<SegmentType>, tb: Option<seq<Float>>, te: Option<seq<Float>>, n: nat, wanted: SegmentType, values: seq<Float>)
    requires SegmentsCover(types, tb, te, n) && n > 0
    ensures types[0] != wanted ==>
              MaskAfterScan(Scan(types, tb, te, n, wanted, 0, 0, 0, None), Some(values)) == Err(UnboundLocalError)
    ensures types[0] == wanted ==>
              var m := Matches(types, wanted, n);
              m != [] && MaskAfterScan(Scan(types, tb, te, n, wanted, 0, 0, 0, None), Some(values))
                           == Ok(Mask(values, tb.value[m[|m| - 1]], te.value[m[|m| - 1]]))
  {
    ScanSelects(types, tb, te, n, wanted, 0);
    MatchesExactly(types, wanted, n);
  }

  // ---------------------------------------------------------------------
  // PI88Segments
  // ---------------------------------------------------------------------

  /** Where the reader's opaque `read_from_channel_group` gets its arrays:
      a partial lookup by (group name, channel name). */
  type ChannelLookup = (string, string) -> Option<seq<Float>>

  const SegmentsGroup: string := "Segments"

  class Segments {
    var timestampBegin: Option<seq<Float>>
    var timestampEnd: Option<seq<Float>>
    var time: Option<seq<Float>>
    var beginDemand: Option<seq<Float>>
    var endDemand: Option<seq<Float>>
    var fbMode: Option<seq<Float>>
    var points: Option<seq<Float>>
    var liaStatus: Option<seq<Float>>
    var pointsCompressed: Option<seq<Float>>
    var segmentType: seq<SegmentType>

    /** The attribute part of PI88Segments.__init__: the "Segments" channels
        by their name tuples, and an empty label list. */
    constructor (read: ChannelLookup)
      ensures timestampBegin == read(SegmentsGroup, "Segment Begin Time")
      ensures timestampEnd == read(SegmentsGroup, "Segment End Time")
      ensures time == read(SegmentsGroup, "Segment Time")
      ensures beginDemand == read(SegmentsGroup, "Segment Begin Demand")
      ensures endDemand == read(SegmentsGroup, "Segment End Demand")
      ensures fbMode == read(SegmentsGroup, "Segment FB Mode")
      ensures points == read(SegmentsGroup, "Segment Points")
      ensures liaStatus == read(SegmentsGroup, "Segment LIA Status")
      ensures pointsCompressed == None && segmentType == []
    {
      timestampBegin := read(SegmentsGroup, "Segment Begin Time");
      timestampEnd := read(SegmentsGroup, "Segment End Time");
      time := read(SegmentsGroup, "Segment Time");
      beginDemand := read(SegmentsGroup, "Segment Begin Demand");
      endDemand := read(SegmentsGroup, "Segment End Demand");
      fbMode := read(SegmentsGroup, "Segment FB Mode");
      points := read(SegmentsGroup, "Segment Points");
      liaStatus := read(SegmentsGroup, "Segment LIA Status");
      pointsCompressed := None;
      segmentType := [];
    }

    /** PI88Segments.get_segment_type. */
    function GetSegmentType(index: int): (r: Result<SegmentType>)
      reads this
      ensures r.Ok? <==> Subscript(beginDemand, index).Ok? && Subscript(endDemand, index).Ok?
      ensures r.Ok? ==> r.value == SegmentTypeOf(Subscript(beginDemand, index).value, Subscript(endDemand, index).value)
    {
      var b :- Subscript(beginDemand, index);
      var e :- Subscript(endDemand, index);
      Ok(SegmentTypeOf(b, e))
    }

    /** PI88Segments.calc_segment_types: one label per entry of `time`, in
        index order, appended to the label list; it stops with an error at
        the first index a demand array lacks, keeping what it appended. */
    method CalcSegmentTypes() returns (r: Option<Error>)
      modifies this`segmentType
      ensures r == LabelError(time, beginDemand, endDemand)
      ensures r.None? && old(segmentType) == [] ==> Labelled(this)
      ensures time.None? ==> segmentType == old(segmentType)
      ensures time.Some? ==>
                var m := LabelCount(time.value, beginDemand, endDemand);
                segmentType == old(segmentType) +
                     (if m == 0 then [] else Labels(beginDemand.value, endDemand.value, m))
    {
      if time.None? {
        return Some(TypeError);
      }
      var n := |time.value|;
      var m := LabelCount(time.value, beginDemand, endDemand);
      var index := 0;
      while index < n
        invariant 0 <= index <= m
        invariant segmentType == old(segmentType) + (if index == 0 then [] else Labels(beginDemand.value, endDemand.value, index))
      {
        var kind := GetSegmentType(index);
        if kind.Err? {
          return Some(kind.error);
        }
        segmentType := segmentType + [kind.value];
        index := index + 1;
        assert Labels(beginDemand.value, endDemand.value, index)
            == (if index == 1 then [] else Labels(beginDemand.value, endDemand.value, index - 1)) + [kind.value];
      }
      return None;
    }

    /** The bounds the loop of get_segment_mask ends with; `len(None)`
        raises TypeError. */
    function ScanResult(wanted: SegmentType, occurrence: int): Result<Option<(Float, Float)>>
      reads this
    {
      if beginDemand.None? then Err(TypeError)
      else Scan(segmentType, timestampBegin, timestampEnd, |beginDemand.value|, wanted, occurrence, 0, 0, None)
    }

    /** PI88Segments.get_segment_mask: scan the segments in stored order,
        counting those of the wanted type and breaking when the count equals
        `occurrence`; the mask is true where begin <= t <= end for the bounds
        the scan ended with. */
    method GetSegmentMask(values: Option<seq<Float>>, wanted: SegmentType, occurrence: int) returns (r: Result<seq<bool>>)
      ensures r == MaskAfterScan(ScanResult(wanted, occurrence), values)
      ensures r.Ok? ==> values.Some? && |r.value| == |values.value|
    {
      if beginDemand.None? {
        return Err(TypeError);
      }
      var n := |beginDemand.value|;
      ghost var whole := Scan(segmentType, timestampBegin, timestampEnd, n, wanted, occurrence, 0, 0, None);
      var counter := 0;
      var bounds: Option<(Float, Float)> := None;
      var i := 0;
      while i < n
        invariant 0 <= i <= n
        invariant Scan(segmentType, timestampBegin, timestampEnd, n, wanted, occurrence, i, counter, bounds) == whole
      {
        if i >= |segmentType| {
          return Err(IndexError);
        }
        if segmentType[i] == wanted {
          var b := Subscript(timestampBegin, i);
          if b.Err? {
            return Err(b.error);
          }
          var e := Subscript(timestampEnd, i);
          if e.Err? {
            return Err(e.error);
          }
          bounds := Some((b.value, e.value));
          counter := counter + 1;
        }
        if counter == occurrence {
          break;
        }
        i := i + 1;
      }
      if bounds.None? {
        return Err(UnboundLocalError);
      }
      if values.None? {
        return Err(TypeError);
      }
      return Ok(Mask(values.value, bounds.value.0, bounds.value.1));
    }
  }

  // ---------------------------------------------------------------------
  // PI88AreaFunction
  // ---------------------------------------------------------------------

  type Settings = map<Option<string>, AttrValue>

  /** `settings[key]` when present, None otherwise. */
  function Lookup(settings: Settings, key: string): Option<AttrValue> {
    if Some(key) in settings then Some(settings[Some(key)]) else None
  }

  class AreaFunction {
    var filename: Option<AttrValue>
    var b: Option<AttrValue>
    var c0: Option<AttrValue>
    var c1: Option<AttrValue>
    var c2: Option<AttrValue>
    var c3: Option<AttrValue>
    var c4: Option<AttrValue>
    var c5: Option<AttrValue>

    predicate ReadFrom(settings: Settings)
      reads this
    {
      && filename == Lookup(settings, "Acquisition_Area_Function_Name")
      && b == Lookup(settings, "Current_Area_Function_B")
      && c0 == Lookup(settings, "Current_Area_Function_C0")
      && c1 == Lookup(settings, "Current_Area_Function_C1")
      && c2 == Lookup(settings, "Current_Area_Function_C2")
      && c3 == Lookup(settings, "Current_Area_Function_C3")
      && c4 == Lookup(settings, "Current_Area_Function_C4")
      && c5 == Lookup(settings, "Current_Area_Function_C5")
    }

    constructor (settings: Settings)
      ensures ReadFrom(settings)
    {
      filename, b, c0, c1, c2, c3, c4, c5 := None, None, None, None, None, None, None, None;
      new;
      Read(settings);
    }

    /** PI88AreaFunction.read: each of the eight fields from its settings key,
        None where the key is missing. */
    method Read(settings: Settings)
      modifies this
      ensures ReadFrom(settings)
    {
      filename := Lookup(settings, "Acquisition_Area_Function_Name");
      b := Lookup(settings, "Current_Area_Function_B");
      c0 := Lookup(settings, "Current_Area_Function_C0");
      c1 := Lookup(settings, "Current_Area_Function_C1");
      c2 := Lookup(settings, "Current_Area_Function_C2");
      c3 := Lookup(settings, "Current_Area_Function_C3");
      c4 := Lookup(settings, "Current_Area_Function_C4");
      c5 := Lookup(settings, "Current_Area_Function_C5");
    }
  }

  // ---------------------------------------------------------------------
  // NaN stripping
  // ---------------------------------------------------------------------

  /** `array[np.invert(np.isnan(array))]`. */
  function WithoutNaN(a: seq<Float>): (r: seq<Float>)
    ensures NoNaN(r) && |r| <= |a|
  {
    if a == [] then []
    else (if a[0].NaN? then [] else [a[0]]) + WithoutNaN(a[1..])
  }

  /** NaN stripping only deletes entries. */
  lemma {:induction false} WithoutNaNIsSubsequence(a: seq<Float>)
    ensures IsSubsequence(WithoutNaN(a), a)
    decreases |a|
  {
    if a != [] {
      WithoutNaNIsSubsequence(a[1..]);
      if a[0].Num? {
        var r := WithoutNaN(a);
        assert r[0] == a[0] && r[1..] == WithoutNaN(a[1..]);
      } else {
        assert WithoutNaN(a) == WithoutNaN(a[1..]);
      }
    }
  }

  /** It deletes exactly the NaN entries: every number keeps its
      multiplicity. */
  lemma {:induction false} WithoutNaNKeepsNumbers(a: seq<Float>)
    ensures multiset(WithoutNaN(a)) == multiset(a)[NaN := 0]
    decreases |a|
  {
    if a != [] {
      WithoutNaNKeepsNumbers(a[1..]);
      assert a == [a[0]] + a[1..];
      assert multiset(a) == multiset([a[0]]) + multiset(a[1..]);
    }
  }

  /** An array without NaN is left as it is. */
  lemma {:induction false} WithoutNaNOfNumbers(a: seq<Float>)
    requires NoNaN(a)
    ensures WithoutNaN(a) == a
    decreases |a|
  {
    if a != [] {
      assert a[0].Num?;
      assert NoNaN(a[1..]) by {
        forall i | 0 <= i < |a| - 1 ensures a[1..][i].Num? { assert a[1..][i] == a[i + 1]; }
      }
      WithoutNaNOfNumbers(a[1..]);
      assert a == [a[0]] + a[1..];
    }
  }

  /** Stripping twice is stripping once. */
  lemma WithoutNaNIdempotent(a: seq<Float>)
    ensures WithoutNaN(WithoutNaN(a)) == WithoutNaN(a)
  {
    WithoutNaNOfNumbers(WithoutNaN(a));
  }

  // ---------------------------------------------------------------------
  // PI88Measurement
  // ---------------------------------------------------------------------

  const QuasiStaticGroup: string := "Indentation All Data Points"

  /** static_name_tuples: (attribute, channel) in "Indentation All Data Points". */
  const StaticNames: seq<(string, string)> := [
    ("time", "Test Time"),
    ("depth", "Indent Disp."),
    ("load", "Indent Load"),
    ("load_actual", "Indent Act. Load"),
    ("depth_v", "Indent Disp. Volt."),
    ("load_v", "Indent Act. Load Volt."),
    ("output_v", "Indent Act. Output Volt.")
  ]

  /** dynamic_name_tuples, read from three groups: entries [0:7] from
      "Indentation Averaged Values", [7:14] from "Basic Dynamic Averaged
      Values 1" and [14:] from "Visco-Elastic: Indentation Averaged Values 1". */
  const DynamicNames: seq<(string, string)> := [
    ("average_dynamic_time", "Test Time"),
    ("average_dynamic_depth", "Indent Disp."),
    ("average_dynamic_load", "Indent Load"),
    ("average_dynamic_load_actual", "Indent Act. Load"),
    ("average_dynamic_depth_v", "Indent Disp. Volt."),
    ("average_dynamic_load_v", "Indent Act. Load Volt."),
    ("average_dynamic_output_v", "Indent Act. Output Volt."),
    ("average_dynamic_freq", "Dynamic Freq."),
    ("average_dynamic_disp_amp", "Disp. Amp."),
    ("average_dynamic_phase_shift", "Phase Shift"),
    ("average_dynamic_load_amp", "Load Amp."),
    ("average_dynamic_dyn_comp", "Dynamic Comp."),
    ("average_dynamic_disp_amp_v", "Disp. Amp. Volt."),
    ("average_dynamic_load_amp_v", "Load Amp. Volt."),
    ("average_dynamic_storage_mod", "Storage Mod."),
    ("average_dynamic_loss_mod", "Loss Mod."),
    ("average_dynamic_tan_delta", "Tan-Delta"),
    ("average_dynamic_complex_mod", "Complex Mod."),
    ("average_dynamic_hardness", "Hardness"),
    ("average_dynamic_contact_area", "Contact Area"),
    ("average_dynamic_contact_depth", "Contact Depth")
  ]

  /** The attribute names of a list of name tuples. */
  function AttributeNames(names: seq<(string, string)>): set<string> {
    set k | 0 <= k < |names| :: names[k].0
  }

  lemma AttributeNamesStep(names: seq<(string, string)>, i: nat)
    requires i < |names|
    ensures AttributeNames(names[..i + 1]) == AttributeNames(names[..i]) + {names[i].0}
  {
    var p := names[..i + 1];
    assert forall k :: 0 <= k < i ==> p[k] == names[..i][k];
  }

  /** No attribute is both quasi-static and dynamic (every dynamic name
      starts with 'a', no static one does). */
  lemma StaticAndDynamicDisjoint()
    ensures AttributeNames(StaticNames) !! AttributeNames(DynamicNames)
  {
    forall k | 0 <= k < |StaticNames| ensures StaticNames[k].0[0] != 'a' { }
    forall k | 0 <= k < |DynamicNames| ensures DynamicNames[k].0[0] == 'a' { }
  }

  function Get(m: map<string, seq<Float>>, name: string): Option<seq<Float>> {
    if name in m then Some(m[name]) else None
  }

  /** The attributes read_from_channel_group sets from one group for the
      name tuples names[lo:hi]: each tuple whose channel the lookup finds,
      later tuples winning; an absent entry stands for None. */
  function ReadGroup(read: ChannelLookup, group: string, names: seq<(string, string)>, lo: nat, hi: nat): map<string, seq<Float>>
    requires lo <= hi <= |names|
    decreases hi - lo
  {
    if lo == hi then map[]
    else
      var v := read(group, names[lo].1);
      (if v.Some? then map[names[lo].0 := v.value] else map[]) + ReadGroup(read, group, names, lo + 1, hi)
  }

  lemma {:induction false} ReadGroupKeys(read: ChannelLookup, group: string, names: seq<(string, string)>, lo: nat, hi: nat)
    requires lo <= hi <= |names|
    ensures forall a :: a in ReadGroup(read, group, names, lo, hi) ==> exists j :: lo <= j < hi && names[j].0 == a
    decreases hi - lo
  {
    if lo < hi {
      ReadGroupKeys(read, group, names, lo + 1, hi);
    }
  }

  /** An attribute named by one tuple of the range only holds exactly what
      the lookup finds for that tuple's channel in the group. */
  lemma {:induction false} ReadGroupLookup(read: ChannelLookup, group: string, names: seq<(string, string)>, lo: nat, hi: nat, k: nat)
    requires lo <= k < hi <= |names|
    requires forall j :: lo <= j < hi && j != k ==> names[j].0 != names[k].0
    ensures Get(ReadGroup(read, group, names, lo, hi), names[k].0) == read(group, names[k].1)
    decreases hi - lo
  {
    if lo == k {
      ReadGroupKeys(read, group, names, lo + 1, hi);
    } else {
      ReadGroupLookup(read, group, names, lo + 1, hi, k);
    }
  }

  /** Every channel attribute as _read_quasi_static and _read_average_dynamic
      leave it, before NaN removal. */
  function RawChannels(read: ChannelLookup): map<string, seq<Float>>
  {
    ReadGroup(read, QuasiStaticGroup, StaticNames, 0, |StaticNames|)
    + ReadGroup(read, "Indentation Averaged Values", DynamicNames, 0, 7)
    + ReadGroup(read, "Basic Dynamic Averaged Values 1", DynamicNames, 7, 14)
    + ReadGroup(read, "Visco-Elastic: Indentation Averaged Values 1", DynamicNames, 14, |DynamicNames|)
  }

  /** The attributes after remove_nans was applied to each name in `names`. */
  function Stripped(m: map<string, seq<Float>>, names: set<string>): (r: map<string, seq<Float>>)
    ensures r.Keys == m.Keys
  {
    map a | a in m :: if a in names then WithoutNaN(m[a]) else m[a]
  }

  /** Stripping one more name: stripping an already stripped attribute again
      changes nothing. */
  lemma StripOneMore(m: map<string, seq<Float>>, names: set<string>, a: string)
    ensures var s := Stripped(m, names);
            (if a in s then s[a := WithoutNaN(s[a])] else s) == Stripped(m, names + {a})
  {
    if a in m {
      WithoutNaNIdempotent(m[a]);
    }
  }

  /** After construction a quasi-static attribute is exactly what was read,
      and a dynamic one is what was read without its NaN entries. */
  lemma OnlyDynamicStripped(m: map<string, seq<Float>>, a: string)
    ensures a in AttributeNames(StaticNames) ==> Get(Stripped(m, AttributeNames(DynamicNames)), a) == Get(m, a)
    ensures a in AttributeNames(DynamicNames) && a in m ==>
              Get(Stripped(m, AttributeNames(DynamicNames)), a) == Some(WithoutNaN(m[a])) && NoNaN(Stripped(m, AttributeNames(DynamicNames))[a])
  {
    StaticAndDynamicDisjoint();
  }

  /** Unit text in a header: f"{unit}" renders None as "None". */
  function Header(timeUnit: Option<string>, depthUnit: Option<string>, loadUnit: Option<string>): (h: seq<string>)
    ensures |h| == 3
  {
    ["time [" + FormatOptional(timeUnit) + "]",
     "depth[" + FormatOptional(depthUnit) + "]",
     "load[" + FormatOptional(loadUnit) + "]"]
  }

  /** Boolean-mask indexing `a[mask]`; the lengths must agree. */
  function ApplyMask(a: Option<seq<Float>>, mask: seq<bool>): (r: Result<seq<Float>>)
    ensures a.None? ==> r == Err(TypeError)
    ensures a.Some? ==> (r.Ok? <==> |a.value| == |mask|)
    ensures r.Err? ==> r.error in {TypeError, IndexError}
    ensures r.Ok? ==> r.value == Select(a.value, mask)
  {
    if a.None? then Err(TypeError)
    else if |a.value| != |mask| then Err(IndexError)
    else Ok(Select(a.value, mask))
  }

  /** Masking with a mask true only on entries in [begin, end] keeps only
      such entries. */
  lemma {:induction false} SelectWithin(values: seq<Float>, mask: seq<bool>, begin: Float, end: Float)
    requires |values| == |mask|
    requires forall j :: 0 <= j < |mask| && mask[j] ==> Le(begin, values[j]) && Le(values[j], end)
    ensures forall x :: x in Select(values, mask) ==> Le(begin, x) && Le(x, end)
    decreases |values|
  {
    if values != [] {
      assert forall j :: 0 <= j < |mask| - 1 ==> mask[1..][j] == mask[j + 1] && values[1..][j] == values[j + 1];
      SelectWithin(values[1..], mask[1..], begin, end);
      assert Select(values, mask) == (if mask[0] then [values[0]] else []) + Select(values[1..], mask[1..]);
    }
  }

  /** What get_quasi_static_curve and get_segment_curve return. */
  datatype Curve = Curve(header: seq<string>, time: Option<seq<Float>>, depth: Option<seq<Float>>, load: Option<seq<Float>>)

  /** The exception labelling the "Segments" channels raises, if any. */
  function SegmentLabelError(read: ChannelLookup): Option<Error> {
    LabelError(read(SegmentsGroup, "Segment Time"), read(SegmentsGroup, "Segment Begin Demand"),
               read(SegmentsGroup, "Segment End Demand"))
  }

  /** The channel attributes of `segments` are the "Segments" channels. */
  predicate SegmentsRead(segments: Segments, read: ChannelLookup)
    reads segments
  {
    && segments.timestampBegin == read(SegmentsGroup, "Segment Begin Time")
    && segments.timestampEnd == read(SegmentsGroup, "Segment End Time")
    && segments.time == read(SegmentsGroup, "Segment Time")
    && segments.beginDemand == read(SegmentsGroup, "Segment Begin Demand")
    && segments.endDemand == read(SegmentsGroup, "Segment End Demand")
    && segments.fbMode == read(SegmentsGroup, "Segment FB Mode")
    && segments.points == read(SegmentsGroup, "Segment Points")
    && segments.liaStatus == read(SegmentsGroup, "Segment LIA Status")
  }

  /** Every segment of `segments` carries its label, in index order. */
  predicate Labelled(segments: Segments)
    reads segments
  {
    && segments.time.Some?
    && (|segments.time.value| == 0 ==> segments.segmentType == [])
    && (|segments.time.value| > 0 ==>
          && segments.beginDemand.Some? && |segments.time.value| <= |segments.beginDemand.value|
          && segments.endDemand.Some? && |segments.time.value| <= |segments.endDemand.value|
          && segments.segmentType == Labels(segments.beginDemand.value, segments.endDemand.value, |segments.time.value|))
  }

  /** PI88Segments(data): the "Segments" channels, then calc_segment_types;
      an exception of the labelling ends the construction. */
  method OpenSegments(read: ChannelLookup) returns (r: Result<Segments>)
    ensures r.Err? ==> SegmentLabelError(read) == Some(r.error)
    ensures r.Ok? ==> SegmentLabelError(read).None?
    ensures r.Ok? ==> fresh(r.value) && SegmentsRead(r.value, read) && r.value.pointsCompressed == None
    ensures r.Ok? ==> Labelled(r.value)
  {
    var segments := new Segments(read);
    var failed := segments.CalcSegmentTypes();
    if failed.Some? {
      return Err(failed.value);
    }
    return Ok(segments);
  }

  /** What a measurement is read from: the parsed .tdm document, the channel
      lookup standing for read_from_channel_group, and the unit attributes as
      that reader leaves them. */
  datatype MeasurementSource = MeasurementSource(
    doc: TdmDoc, read: ChannelLookup,
    timeUnit: Option<string>, depthUnit: Option<string>, loadUnit: Option<string>)

  class Measurement {
    var filename: string
    var segments: Segments
    var settings: Settings
    var areaFunction: AreaFunction
    /** Every channel attribute (quasi-static and dynamic) by attribute name. */
    var attributes: map<string, seq<Float>>
    var timeUnit: Option<string>
    var depthUnit: Option<string>
    var loadUnit: Option<string>

    /** The part of PI88Measurement.__init__ after segments and settings:
        area function, the channel attributes `raw` as the quasi-static and
        dynamic readers leave them (RawChannels), then NaN removal on every
        dynamic attribute. */
    constructor (filename: string, segments: Segments, settings: Settings, raw: map<string, seq<Float>>, source: MeasurementSource)
      ensures this.filename == filename && this.segments == segments && this.settings == settings
      ensures fresh(areaFunction) && areaFunction.ReadFrom(settings)
      ensures timeUnit == source.timeUnit && depthUnit == source.depthUnit && loadUnit == source.loadUnit
      ensures attributes == Stripped(raw, AttributeNames(DynamicNames))
    {
      this.filename := filename;
      this.segments := segments;
      this.settings := settings;
      areaFunction := new AreaFunction(settings);
      attributes := raw;
      timeUnit, depthUnit, loadUnit := source.timeUnit, source.depthUnit, source.loadUnit;
      new;
      RemoveNaNs(DynamicNames);
    }

    /** The loop at the end of __init__: remove_nans on each attribute of
        the given name tuples, in order. */
    method RemoveNaNs(names: seq<(string, string)>)
      modifies this`attributes
      ensures attributes == Stripped(old(attributes), AttributeNames(names))
    {
      ghost var raw := attributes;
      var i := 0;
      assert names[..0] == [];
      while i < |names|
        invariant 0 <= i <= |names|
        invariant attributes == Stripped(raw, AttributeNames(names[..i]))
      {
        StripOneMore(raw, AttributeNames(names[..i]), names[i].0);
        RemoveNaN(names[i].0);
        AttributeNamesStep(names, i);
        i := i + 1;
      }
      assert names[..i] == names;
    }

    /** PI88Measurement.remove_nans: replace a present attribute by its
        non-NaN entries; an absent (None) attribute is left alone. */
    method RemoveNaN(attributeName: string)
      modifies this`attributes
      ensures attributeName in old(attributes) ==>
                attributes == old(attributes)[attributeName := WithoutNaN(old(attributes)[attributeName])]
      ensures attributeName !in old(attributes) ==> attributes == old(attributes)
    {
      if attributeName in attributes {
        attributes := attributes[attributeName := WithoutNaN(attributes[attributeName])];
      }
    }

    /** PI88Measurement.get_quasi_static_curve. */
    function GetQuasiStaticCurve(): (c: Curve)
      reads this
      ensures c.header == Header(timeUnit, depthUnit, loadUnit)
      ensures c.time == Get(attributes, "time") && c.depth == Get(attributes, "depth") && c.load == Get(attributes, "load")
    {
      Curve(Header(timeUnit, depthUnit, loadUnit), Get(attributes, "time"), Get(attributes, "depth"), Get(attributes, "load"))
    }

    /** PI88Measurement.get_segment_curve: the mask of the selected segment,
        computed on time, cuts time, depth and load alike. */
    method GetSegmentCurve(wanted: SegmentType, occurrence: int) returns (r: Result<Curve>)
      ensures var time := Get(attributes, "time");
              var mask := MaskAfterScan(segments.ScanResult(wanted, occurrence), time);
              && (mask.Err? ==> r == Err(mask.error))
              && (mask.Ok? ==>
                    var d := ApplyMask(Get(attributes, "depth"), mask.value);
                    var l := ApplyMask(Get(attributes, "load"), mask.value);
                    r == if d.Err? then Err(d.error) else if l.Err? then Err(l.error)
                         else Ok(Curve(Header(timeUnit, depthUnit, loadUnit), Some(Select(time.value, mask.value)), Some(d.value), Some(l.value))))
      ensures r.Ok? ==> r.value.time.Some? && r.value.depth.Some? && r.value.load.Some?
      ensures r.Ok? ==> |r.value.time.value| == |r.value.depth.value| == |r.value.load.value|
      ensures r.Ok? ==> "time" in attributes && IsSubsequence(r.value.time.value, attributes["time"])
      ensures r.Ok? ==>
                var bounds := segments.ScanResult(wanted, occurrence);
                && bounds.Ok? && bounds.value.Some?
                && forall t :: t in r.value.time.value ==> Le(bounds.value.value.0, t) && Le(t, bounds.value.value.1)
    {
      var time := Get(attributes, "time");
      var mask := segments.GetSegmentMask(time, wanted, occurrence);
      if mask.Err? {
        return Err(mask.error);
      }
      var header := Header(timeUnit, depthUnit, loadUnit);
      var t := Select(time.value, mask.value);
      var d := ApplyMask(Get(attributes, "depth"), mask.value);
      if d.Err? {
        return Err(d.error);
      }
      var l := ApplyMask(Get(attributes, "load"), mask.value);
      if l.Err? {
        return Err(l.error);
      }
      SelectIsSubsequence(time.value, mask.value);
      var bounds := segments.ScanResult(wanted, occurrence).value.value;
      SelectWithin(time.value, mask.value, bounds.0, bounds.1);
      return Ok(Curve(header, Some(t), Some(d.value), Some(l.value)));
    }
  }

  /** The exception PI88Measurement(filename) raises, if any, in the order
      of __init__: opening the document, labelling the segments, building the
      settings dictionary. */
  function OpenError(filename: string, source: MeasurementSource): Option<Error> {
    if OpenTdm(filename, source.doc).Err? then Some(OpenTdm(filename, source.doc).error)
    else if SegmentLabelError(source.read).Some? then SegmentLabelError(source.read)
    else if InstanceAttributes(OpenTdm(filename, source.doc).value).Err? then
      Some(InstanceAttributes(OpenTdm(filename, source.doc).value).error)
    else None
  }

  /** PI88Measurement.__init__: open the document, then segments (with their
      labels), settings, the area function and the channels; the first
      failure raises before anything later. */
  method OpenMeasurement(filename: string, source: MeasurementSource) returns (r: Result<Measurement>)
    ensures r.Err? ==> OpenError(filename, source) == Some(r.error)
    ensures r.Ok? ==> OpenError(filename, source).None?
    ensures r.Ok? ==> fresh(r.value) && r.value.filename == filename
    ensures r.Ok? ==> SegmentsRead(r.value.segments, source.read) && Labelled(r.value.segments)
    ensures r.Ok? ==> OpenTdm(filename, source.doc).Ok?
    ensures r.Ok? ==> r.value.settings == InstanceAttributes(OpenTdm(filename, source.doc).value).value
    ensures r.Ok? ==> r.value.areaFunction.ReadFrom(r.value.settings)
    ensures r.Ok? ==> r.value.attributes == Stripped(RawChannels(source.read), AttributeNames(DynamicNames))
  {
    var data :- OpenTdm(filename, source.doc);
    var segments :- OpenSegments(source.read);
    var settings := GetInstanceAttributesDict(data);
    if settings.Err? {
      return Err(settings.error);
    }
    var m := new Measurement(filename, segments, settings.value, RawChannels(source.read), source);
    return Ok(m);
  }
}
