/** Summaries over a list of measurements
    (pi88reader/utils_pi88measurements.py): the set of values of one
    setting, their comma-separated summary, the date interval and the
    aborted measurements. */
module UtilsPi88Measurements {
  import opened Common
  import opened TdmImporter
  import opened Pi88Importer

  /** The Python value a setting holds. String attributes and raw texts
      are both `str` (so equal texts are one set element); a double is kept
      as its literal. */
  datatype PyValue = PyStr(text: string) | PyFloat(literal: string) | PyInt(number: int) | PyNone

  function ToPy(v: AttrValue): (p: PyValue)
    ensures p.PyStr? <==> (v.StrAttr? || v.RawAttr?) && v.text.Some?
  {
    match v
    case StrAttr(t) => if t.Some? then PyStr(t.value) else PyNone
    case RawAttr(t) => if t.Some? then PyStr(t.value) else PyNone
    case DoubleAttr(literal) => PyFloat(literal)
    case LongAttr(n) => PyInt(n)
  }

  /** The settings dictionaries of the measurements, in order. */
  function SettingsOf(ms: seq<Measurement>): (r: seq<Settings>)
    reads set m | m in ms
    ensures |r| == |ms| && forall i :: 0 <= i < |ms| ==> r[i] == ms[i].settings
  {
    if ms == [] then [] else [ms[0].settings] + SettingsOf(ms[1..])
  }

  predicate HasKey(settings: seq<Settings>, name: string) {
    forall i :: 0 <= i < |settings| ==> Some(name) in settings[i]
  }

  /** `settings.dict[name]` of every measurement, in order. */
  function ValuesOf(settings: seq<Settings>, name: string): (r: seq<PyValue>)
    requires HasKey(settings, name)
    ensures |r| == |settings| && forall i :: 0 <= i < |r| ==> r[i] == ToPy(settings[i][Some(name)])
  {
    seq(|settings|, i requires 0 <= i < |settings| => ToPy(settings[i][Some(name)]))
  }

  function Elements<T>(s: seq<T>): set<T> {
    set x | x in s
  }

  /** A set has at most as many elements as the sequence it is collected from. */
  lemma {:induction false} ElementsBound<T>(s: seq<T>)
    ensures |Elements(s)| <= |s|
  {
    if s != [] {
      ElementsBound(s[..|s| - 1]);
      assert Elements(s) == Elements(s[..|s| - 1]) + {s[|s| - 1]} by {
        assert s == s[..|s| - 1] + [s[|s| - 1]];
      }
    }
  }

  /** One more measurement that has the setting extends both the key check
      and the values by its entry. */
  lemma PrefixStep(settings: seq<Settings>, i: nat, name: string)
    requires i < |settings| && HasKey(settings[..i], name) && Some(name) in settings[i]
    ensures HasKey(settings[..i + 1], name)
    ensures ValuesOf(settings[..i + 1], name) == ValuesOf(settings[..i], name) + [ToPy(settings[i][Some(name)])]
  {
    assert settings[..i + 1] == settings[..i] + [settings[i]];
  }

  /** get_set_by_setting_name: the set of `settings.dict[name]` over all
      measurements; a measurement without the setting raises KeyError. */
  method GetSetBySettingName(name: string, ms: seq<Measurement>) returns (r: Result<set<PyValue>>)
    ensures r.Err? <==> !HasKey(SettingsOf(ms), name)
    ensures r.Err? ==> r.error == KeyError
    ensures r.Ok? ==> r.value == Elements(ValuesOf(SettingsOf(ms), name)) && |r.value| <= |ms|
  {
    ghost var settings := SettingsOf(ms);
    var result: set<PyValue> := {};
    ghost var values: seq<PyValue> := [];
    var i := 0;
    while i < |ms|
      invariant 0 <= i <= |ms|
      invariant HasKey(settings[..i], name)
      invariant values == ValuesOf(settings[..i], name)
      invariant result == Elements(values)
    {
      var current := ms[i].settings;
      if Some(name) !in current {
        return Err(KeyError);
      }
      var value := ToPy(current[Some(name)]);
      PrefixStep(settings, i, name);
      result := result + {value};
      values := values + [value];
      i := i + 1;
    }
    assert settings[..i] == settings;
    ElementsBound(values);
    return Ok(result);
  }

  /** The string get_summary_by_set builds from the texts in iteration
      order: ", " goes before a text only when the text so far is not
      empty. */
  function Summary(texts: seq<string>): string {
    if texts == [] then ""
    else
      var before := Summary(texts[..|texts| - 1]);
      (if before != "" then before + ", " else before) + texts[|texts| - 1]
  }

  /** The texts joined by ", " (`", ".join(texts)`). */
  function Join(texts: seq<string>): string {
    if texts == [] then ""
    else if |texts| == 1 then texts[0]
    else Join(texts[..|texts| - 1]) + ", " + texts[|texts| - 1]
  }

  /** For non-empty texts the summary is the ", "-join: every text once,
      with one separator between neighbours. */
  lemma {:induction false} SummaryIsJoin(texts: seq<string>)
    requires forall i :: 0 <= i < |texts| ==> texts[i] != ""
    ensures Summary(texts) == Join(texts)
    ensures texts != [] ==> Summary(texts) != ""
  {
    if texts != [] {
      SummaryIsJoin(texts[..|texts| - 1]);
    }
  }

  /** An empty text contributes no separator: the summary of ["", "x"] is "x". */
  lemma SummarySkipsLeadingEmpty(x: string)
    ensures Summary(["", x]) == x
  {
    assert ["", x][..1] == [""];
    assert [""][..0] == [];
  }

  /** `order` lists the elements of `s`, each once. */
  predicate Enumerates<T>(order: seq<T>, s: set<T>) {
    && |order| == |s|
    && Elements(order) == s
    && forall i, j :: 0 <= i < j < |order| ==> order[i] != order[j]
  }

  function Texts(values: seq<PyValue>): (r: seq<string>)
    requires forall i :: 0 <= i < |values| ==> values[i].PyStr?
    ensures |r| == |values| && forall i :: 0 <= i < |r| ==> r[i] == values[i].text
  {
    seq(|values|, i requires 0 <= i < |values| => values[i].text)
  }

  predicate AllText(s: set<PyValue>) {
    forall v :: v in s ==> v.PyStr?
  }

  /** One more text: the loop step of get_summary_by_set. */
  lemma SummaryStep(order: seq<PyValue>, text: PyValue)
    requires forall i :: 0 <= i < |order| ==> order[i].PyStr?
    requires text.PyStr?
    ensures forall i :: 0 <= i < |order + [text]| ==> (order + [text])[i].PyStr?
    ensures var before := Summary(Texts(order));
            Summary(Texts(order + [text])) == (if before != "" then before + ", " else before) + text.text
  {
    assert Texts(order + [text])[..|order|] == Texts(order);
  }

  /** get_summary_by_set: the summary of the elements in some iteration
      order `order`; a non-string element raises TypeError at `+=`. */
  method GetSummaryBySet(s: set<PyValue>) returns (r: Result<string>, ghost order: seq<PyValue>)
    ensures !AllText(s) ==> r == Err(TypeError)
    ensures AllText(s) ==> Enumerates(order, s) && r == Ok(Summary(Texts(order)))
  {
    var result := "";
    var rest := s;
    order := [];
    while rest != {}
      invariant rest <= s && Elements(order) == s - rest
      invariant |order| + |rest| == |s|
      invariant forall i, j :: 0 <= i < j < |order| ==> order[i] != order[j]
      invariant forall i :: 0 <= i < |order| ==> order[i].PyStr?
      invariant result == Summary(Texts(order))
      decreases |rest|
    {
      var text :| text in rest;
      if !text.PyStr? {
        return Err(TypeError), order;
      }
      if result != "" {
        result := result + ", ";
      }
      result := result + text.text;
      SummaryStep(order, text);
      assert text !in Elements(order);
      assert Elements(order + [text]) == Elements(order) + {text};
      order := order + [text];
      rest := rest - {text};
    }
    assert Elements(order) == s;
    return Ok(result), order;
  }

  const TransducerSerial: string := "Acquisition_Transducer_Serial"
  const TriboScanVersion: string := "Acquisition_TriboScan_Version"

  /** get_transducer_serials_string: the summary of the set of transducer
      serials. */
  method GetTransducerSerialsString(ms: seq<Measurement>) returns (r: Result<string>)
    ensures !HasKey(SettingsOf(ms), TransducerSerial) ==> r == Err(KeyError)
    ensures HasKey(SettingsOf(ms), TransducerSerial) ==>
              var serials := Elements(ValuesOf(SettingsOf(ms), TransducerSerial));
              (!AllText(serials) ==> r == Err(TypeError))
              && (AllText(serials) ==> exists order :: Enumerates(order, serials) && r == Ok(Summary(Texts(order))))
  {
    var serials := GetSetBySettingName(TransducerSerial, ms);
    if serials.Err? {
      return Err(serials.error);
    }
    ghost var order;
    r, order := GetSummaryBySet(serials.value);
  }

  /** get_triboscan_versions_string: the summary of the set of TriboScan
      versions. */
  method GetTriboScanVersionsString(ms: seq<Measurement>) returns (r: Result<string>)
    ensures !HasKey(SettingsOf(ms), TriboScanVersion) ==> r == Err(KeyError)
    ensures HasKey(SettingsOf(ms), TriboScanVersion) ==>
              var versions := Elements(ValuesOf(SettingsOf(ms), TriboScanVersion));
              (!AllText(versions) ==> r == Err(TypeError))
              && (AllText(versions) ==> exists order :: Enumerates(order, versions) && r == Ok(Summary(Texts(order))))
  {
    var versions := GetSetBySettingName(TriboScanVersion, ms);
    if versions.Err? {
      return Err(versions.error);
    }
    ghost var order;
    r, order := GetSummaryBySet(versions.value);
  }

  // ---------------------------------------------------------------------
  // Dates
  // ---------------------------------------------------------------------

  /** A calendar date (datetime.date). */
  datatype Date = Date(year: nat, month: nat, day: nat)

  /** Chronological order: by year, then month, then day. */
  predicate DateLe(a: Date, b: Date) {
    a.year < b.year || (a.year == b.year && (a.month < b.month || (a.month == b.month && a.day <= b.day)))
  }

  /** `n` as at least `width` digits, padded with leading zeros. */
  function ZeroPadded(n: nat, width: nat): (s: string)
    ensures |s| >= width && AllDigits(s)
    ensures DigitsValue(s) == n
  {
    NatToStringValue(n);
    PadDigits(NatToString(n), width)
  }

  function PadDigits(s: string, width: nat): (r: string)
    requires AllDigits(s)
    ensures |r| >= width && |r| >= |s| && AllDigits(r)
    ensures DigitsValue(r) == DigitsValue(s)
    decreases width - |s|
  {
    if |s| >= width then s
    else
      LeadingZero(s);
      PadDigits("0" + s, width)
  }

  /** A leading zero does not change the value of a digit string. */
  lemma {:induction false} LeadingZero(s: string)
    requires AllDigits(s)
    ensures AllDigits("0" + s) && DigitsValue("0" + s) == DigitsValue(s)
    decreases |s|
  {
    var t := "0" + s;
    if s != [] {
      LeadingZero(s[..|s| - 1]);
      assert t[..|t| - 1] == "0" + s[..|s| - 1];
    } else {
      assert t[..|t| - 1] == [];
    }
  }

  /** `str(d)`: ISO format YYYY-MM-DD. */
  function DateToString(d: Date): (s: string) {
    ZeroPadded(d.year, 4) + "-" + ZeroPadded(d.month, 2) + "-" + ZeroPadded(d.day, 2)
  }

  lemma DateAntisymmetric(a: Date, b: Date)
    requires DateLe(a, b) && DateLe(b, a)
    ensures a == b
  {
  }

  /** The earliest date of a non-empty set (Python's `min`). */
  function MinDate(dates: set<Date>): (d: Date)
    requires dates != {}
    ensures d in dates && forall e :: e in dates ==> DateLe(d, e)
  {
    ExtremeExists(dates, true);
    var d :| d in dates && forall e :: e in dates ==> DateLe(d, e);
    d
  }

  /** The latest date of a non-empty set (Python's `max`). */
  function MaxDate(dates: set<Date>): (d: Date)
    requires dates != {}
    ensures d in dates && forall e :: e in dates ==> DateLe(e, d)
  {
    ExtremeExists(dates, false);
    var d :| d in dates && forall e :: e in dates ==> DateLe(e, d);
    d
  }

  /** DateLe is a total order: transitive ... */
  lemma DateLeTransitive(a: Date, b: Date, c: Date)
    requires DateLe(a, b) && DateLe(b, c)
    ensures DateLe(a, c)
  {
  }

  /** ... and total. */
  lemma DateLeTotal(a: Date, b: Date)
    ensures DateLe(a, b) || DateLe(b, a)
  {
  }

  /** Every non-empty set of dates has an earliest and a latest element. */
  lemma {:induction false} ExtremeExists(dates: set<Date>, earliest: bool)
    requires dates != {}
    ensures earliest ==> exists d :: d in dates && forall e :: e in dates ==> DateLe(d, e)
    ensures !earliest ==> exists d :: d in dates && forall e :: e in dates ==> DateLe(e, d)
    decreases |dates|
  {
    var x :| x in dates;
    if dates == {x} {
      assert forall e :: e in dates ==> e == x;
      assert DateLe(x, x);
    } else {
      var rest := dates - {x};
      ExtremeExists(rest, earliest);
      if earliest {
        var d :| d in rest && forall e :: e in rest ==> DateLe(d, e);
        DateLeTotal(d, x);
        var m := if DateLe(d, x) then d else x;
        assert DateLe(m, d) && DateLe(m, x);
        forall e | e in dates ensures DateLe(m, e) {
          if e != x {
            DateLeTransitive(m, d, e);
          }
        }
        assert m in dates;
      } else {
        var d :| d in rest && forall e :: e in rest ==> DateLe(e, d);
        DateLeTotal(x, d);
        var m := if DateLe(x, d) then d else x;
        assert DateLe(d, m) && DateLe(x, m);
        forall e | e in dates ensures DateLe(e, m) {
          if e != x {
            DateLeTransitive(e, d, m);
          }
        }
        assert m in dates;
      }
    }
  }

  const Timestamp: string := "Acquisition_Timestamp"

  /** `value.date()` on a setting value; the attribute values this model
      reads (str, float, int) have no such method, so the conversion is a
      parameter. */
  type DateOf = PyValue -> Result<Date>

  /** Whether a measurement's timestamp exists and converts to a date. */
  predicate DateReadable(settings: Settings, dateOf: DateOf) {
    Some(Timestamp) in settings && dateOf(ToPy(settings[Some(Timestamp)])).Ok?
  }

  /** The exception an unreadable timestamp raises: KeyError when there is
      none, otherwise the one `.date()` raises. */
  function DateError(settings: Settings, dateOf: DateOf): Error
    requires !DateReadable(settings, dateOf)
  {
    if Some(Timestamp) !in settings then KeyError else dateOf(ToPy(settings[Some(Timestamp)])).error
  }

  /** The dates converted one by one, collected into a set: the set of the
      converted timestamp values, no larger than the list. */
  lemma DatesOfValues(settings: seq<Settings>, dates: seq<Date>, dateOf: DateOf)
    requires |settings| == |dates|
    requires forall j :: 0 <= j < |settings| ==>
               DateReadable(settings[j], dateOf) && dateOf(ToPy(settings[j][Some(Timestamp)])) == Ok(dates[j])
    ensures HasKey(settings, Timestamp)
    ensures var values := ValuesOf(settings, Timestamp);
            && (forall i :: 0 <= i < |values| ==> dateOf(values[i]).Ok?)
            && Elements(dates) == set j | 0 <= j < |values| :: dateOf(values[j]).value
    ensures |Elements(dates)| <= |settings|
  {
    var values := ValuesOf(settings, Timestamp);
    forall d | d in Elements(dates) ensures exists j :: 0 <= j < |values| && d == dateOf(values[j]).value {
      var j :| 0 <= j < |dates| && dates[j] == d;
    }
    ElementsBound(dates);
  }

  /** get_measurement_dates: the set of dates of the measurements'
      timestamps; the first missing setting or failed `.date()` raises. */
  method GetMeasurementDates(ms: seq<Measurement>, dateOf: DateOf) returns (r: Result<set<Date>>)
    ensures r.Err? <==> exists i :: 0 <= i < |ms| && !DateReadable(ms[i].settings, dateOf)
    ensures r.Err? ==> exists i :: 0 <= i < |ms| && !DateReadable(ms[i].settings, dateOf) &&
                          r.error == DateError(ms[i].settings, dateOf) &&
                          forall j :: 0 <= j < i ==> DateReadable(ms[j].settings, dateOf)
    ensures r.Ok? ==> HasKey(SettingsOf(ms), Timestamp)
    ensures r.Ok? ==> var values := ValuesOf(SettingsOf(ms), Timestamp);
                      && (forall i :: 0 <= i < |values| ==> dateOf(values[i]).Ok?)
                      && r.value == set i | 0 <= i < |values| :: dateOf(values[i]).value
    ensures r.Ok? ==> |r.value| <= |ms|
  {
    ghost var settings := SettingsOf(ms);
    var result: set<Date> := {};
    ghost var dates: seq<Date> := [];
    var i := 0;
    while i < |ms|
      invariant 0 <= i <= |ms|
      invariant |dates| == i
      invariant forall j :: 0 <= j < i ==> DateReadable(settings[j], dateOf) && dateOf(ToPy(settings[j][Some(Timestamp)])) == Ok(dates[j])
      invariant result == Elements(dates)
    {
      var current := ms[i].settings;
      if Some(Timestamp) !in current {
        assert !DateReadable(ms[i].settings, dateOf);
        return Err(KeyError);
      }
      var date := dateOf(ToPy(current[Some(Timestamp)]));
      if date.Err? {
        assert !DateReadable(ms[i].settings, dateOf);
        return Err(date.error);
      }
      result := result + {date.value};
      dates := dates + [date.value];
      i := i + 1;
    }
    DatesOfValues(settings, dates, dateOf);
    return Ok(result);
  }

  /** The interval string of a set of dates: "" for none, the date for one,
      "earliest ... latest" for several. */
  function IntervalString(dates: set<Date>): (s: string)
    ensures dates == {} ==> s == ""
    ensures |dates| == 1 ==> s == DateToString(MinDate(dates))
    ensures |dates| > 1 ==> s == DateToString(MinDate(dates)) + " ... " + DateToString(MaxDate(dates))
  {
    if |dates| == 1 then DateToString(MinDate(dates))
    else if |dates| > 1 then DateToString(MinDate(dates)) + " ... " + DateToString(MaxDate(dates))
    else ""
  }

  /** A single date is printed alone. */
  lemma SingleDate(d: Date)
    ensures IntervalString({d}) == DateToString(d)
  {
    var m := MinDate({d});
    assert m in {d};
  }

  /** Two different dates are printed earliest first. */
  lemma TwoDates(a: Date, b: Date)
    requires DateLe(a, b) && a != b
    ensures IntervalString({a, b}) == DateToString(a) + " ... " + DateToString(b)
  {
    var lo, hi := MinDate({a, b}), MaxDate({a, b});
    assert |{a, b}| == 2;
    assert DateLe(lo, a) && DateLe(a, lo);
    DateAntisymmetric(lo, a);
    assert DateLe(b, hi) && DateLe(hi, b);
    DateAntisymmetric(hi, b);
  }

  /** get_date_intervall_string. */
  method GetDateIntervallString(ms: seq<Measurement>, dateOf: DateOf) returns (r: Result<string>)
    ensures r.Err? <==> exists i :: 0 <= i < |ms| && !DateReadable(ms[i].settings, dateOf)
    ensures r.Err? ==> exists i :: 0 <= i < |ms| && !DateReadable(ms[i].settings, dateOf) &&
                          r.error == DateError(ms[i].settings, dateOf) &&
                          forall j :: 0 <= j < i ==> DateReadable(ms[j].settings, dateOf)
    ensures r.Ok? ==> HasKey(SettingsOf(ms), Timestamp)
    ensures r.Ok? ==> var values := ValuesOf(SettingsOf(ms), Timestamp);
                      r.value == IntervalString(set i | 0 <= i < |values| :: dateOf(values[i]).value)
    ensures ms == [] ==> r == Ok("")
  {
    var dates := GetMeasurementDates(ms, dateOf);
    if dates.Err? {
      return Err(dates.error);
    }
    if |dates.value| == 1 {
      return Ok(DateToString(MinDate(dates.value)));
    } else if |dates.value| > 1 {
      return Ok(DateToString(MinDate(dates.value)) + " ... " + DateToString(MaxDate(dates.value)));
    }
    return Ok("");
  }

  // ---------------------------------------------------------------------
  // Aborted measurements
  // ---------------------------------------------------------------------

  const TestAborted: string := "Acquisition_Test_Aborted"

  /** Python truthiness of a setting value; whether a float literal is
      zero is a parameter (float() is not modelled). */
  predicate Truthy(v: PyValue, floatIsZero: string -> bool) {
    match v
    case PyStr(t) => t != ""
    case PyFloat(literal) => !floatIsZero(literal)
    case PyInt(n) => n != 0
    case PyNone => false
  }

  /** Whether each measurement's Acquisition_Test_Aborted value is truthy. */
  function AbortedFlags(settings: seq<Settings>, floatIsZero: string -> bool): (flags: seq<bool>)
    requires HasKey(settings, TestAborted)
    ensures |flags| == |settings|
    ensures forall i :: 0 <= i < |flags| ==> flags[i] == Truthy(ToPy(settings[i][Some(TestAborted)]), floatIsZero)
  {
    var values := ValuesOf(settings, TestAborted);
    seq(|values|, i requires 0 <= i < |values| => Truthy(values[i], floatIsZero))
  }

  /** One more measurement that has the setting adds its flag. */
  lemma AbortedStep(settings: seq<Settings>, i: nat, floatIsZero: string -> bool)
    requires i < |settings| && HasKey(settings[..i], TestAborted) && Some(TestAborted) in settings[i]
    ensures HasKey(settings[..i + 1], TestAborted)
    ensures AbortedFlags(settings[..i + 1], floatIsZero)
              == AbortedFlags(settings[..i], floatIsZero) + [Truthy(ToPy(settings[i][Some(TestAborted)]), floatIsZero)]
  {
    assert settings[..i + 1] == settings[..i] + [settings[i]];
  }

  /** get_aborted_measurements: the measurements whose
      Acquisition_Test_Aborted value is truthy, in input order; a
      measurement without the setting raises KeyError. */
  method GetAbortedMeasurements(ms: seq<Measurement>, floatIsZero: string -> bool) returns (r: Result<seq<Measurement>>)
    ensures r.Err? <==> !HasKey(SettingsOf(ms), TestAborted)
    ensures r.Err? ==> r.error == KeyError
    ensures r.Ok? ==> r.value == Select(ms, AbortedFlags(SettingsOf(ms), floatIsZero))
  {
    ghost var settings := SettingsOf(ms);
    var result: seq<Measurement> := [];
    ghost var flags: seq<bool> := [];
    var i := 0;
    while i < |ms|
      invariant 0 <= i <= |ms|
      invariant HasKey(settings[..i], TestAborted)
      invariant flags == AbortedFlags(settings[..i], floatIsZero)
      invariant result == Select(ms[..i], flags)
    {
      var current := ms[i].settings;
      if Some(TestAborted) !in current {
        return Err(KeyError);
      }
      var aborted := Truthy(ToPy(current[Some(TestAborted)]), floatIsZero);
      SelectAppend(ms[..i], flags, ms[i], aborted);
      AbortedStep(settings, i, floatIsZero);
      if aborted {
        result := result + [ms[i]];
      }
      assert ms[..i + 1] == ms[..i] + [ms[i]];
      flags := flags + [aborted];
      i := i + 1;
    }
    assert settings[..i] == settings;
    assert ms[..i] == ms;
    return Ok(result);
  }
}
