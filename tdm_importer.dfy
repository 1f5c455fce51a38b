/** The reader for National Instruments TDM metadata documents
    (pi88reader/tdm_importer.py). The XML document is an abstract record
    tree: every element kind the reader queries is a sequence of records in
    document order, and `root.find(".//tag[@id='x']")` is the first record
    of that kind carrying id x. A child element that is absent is `None`;
    `findtext` of a present but empty child is `Some("")`. */
module TdmImporter {
  import opened Common

  // ---------------------------------------------------------------------
  // Value types
  // ---------------------------------------------------------------------

  /** DTYPE_CONVERTERS: NI value-type names to NumPy type codes. */
  const DtypeConverters: map<string, string> := map[
    "eInt8Usi" := "i1",
    "eInt16Usi" := "i2",
    "eInt32Usi" := "i4",
    "eInt64Usi" := "i8",
    "eUInt8Usi" := "u1",
    "eUInt16Usi" := "u2",
    "eUInt32Usi" := "u4",
    "eUInt64Usi" := "u8",
    "eFloat32Usi" := "f4",
    "eFloat64Usi" := "f8",
    "eStringUsi" := "U"
  ]

  // ---------------------------------------------------------------------
  // The document as a record tree
  // ---------------------------------------------------------------------

  /** `<tdm_channelgroup id=..>` with its `name` and `channels` children. */
  datatype ChannelGroupRec = ChannelGroupRec(id: string, name: Option<string>, channels: Option<string>)

  /** `<tdm_channel id=..>` with the children the reader looks at. */
  datatype ChannelRec = ChannelRec(
    id: string,
    name: Option<string>,
    description: Option<string>,
    unitString: Option<string>,
    dataType: Option<string>,
    localColumns: Option<string>)

  /** `<localcolumn id=..>` and its `values` reference list. */
  datatype LocalColumnRec = LocalColumnRec(id: string, values: Option<string>)

  /** A typed sequence element `<tag id=..>`, with its `<values external=..>`
      child when it has one. */
  datatype SequenceRec = SequenceRec(tag: string, id: string, values: Option<ValuesRec>)
  datatype ValuesRec = ValuesRec(external: Option<string>)

  /** `<block id=..>` under `<file>`: its attributes as text. */
  datatype BlockRec = BlockRec(id: string, byteOffset: Option<string>, length: Option<string>, valueType: Option<string>)

  /** `<file byteOrder=.. url=..>` and its blocks. */
  datatype FileRec = FileRec(byteOrder: Option<string>, url: Option<string>, blocks: seq<BlockRec>)

  /** One child of `instance_attributes`: its tag, its `name` attribute, its
      own text (None when empty) and, when it has an `<s>` child, that
      child's text. */
  datatype AttributeRec = AttributeRec(tag: string, name: Option<string>, text: Option<string>, s: Option<Option<string>>)

  /** `<tdm_root>`: the `channelgroups` reference list and `instance_attributes`. */
  datatype TdmRoot = TdmRoot(channelGroups: Option<string>, instanceAttributes: Option<seq<AttributeRec>>)

  datatype TdmDoc = TdmDoc(
    tdmRoot: Option<TdmRoot>,
    groups: seq<ChannelGroupRec>,
    channels: seq<ChannelRec>,
    localColumns: seq<LocalColumnRec>,
    sequences: seq<SequenceRec>,
    file: Option<FileRec>)

  /** The first element of `s` that satisfies `p`, as `find` returns it. */
  function First<T>(s: seq<T>, p: T -> bool): (r: Option<T>)
    ensures r.None? <==> forall i :: 0 <= i < |s| ==> !p(s[i])
    ensures r.Some? ==> exists i :: 0 <= i < |s| && s[i] == r.value && p(s[i]) &&
                                    forall j :: 0 <= j < i ==> !p(s[j])
  {
    if s == [] then None
    else if p(s[0]) then Some(s[0])
    else
      var r := First(s[1..], p);
      assert r.Some? ==> exists i :: 0 < i < |s| && s[i] == r.value && p(s[i]) &&
                                     forall j :: 0 <= j < i ==> !p(s[j]) by {
        if r.Some? {
          var i :| 0 <= i < |s| - 1 && s[1..][i] == r.value && p(s[1..][i]) &&
                   forall j :: 0 <= j < i ==> !p(s[1..][j]);
          assert forall j :: 1 <= j < i + 1 ==> !p(s[j]) by {
            forall j | 1 <= j < i + 1 ensures !p(s[j]) { assert s[j] == s[1..][j - 1]; }
          }
        }
      }
      r
  }

  function FindGroup(doc: TdmDoc, id: string): Option<ChannelGroupRec> {
    First(doc.groups, (g: ChannelGroupRec) => g.id == id)
  }

  function FindChannel(doc: TdmDoc, id: string): Option<ChannelRec> {
    First(doc.channels, (c: ChannelRec) => c.id == id)
  }

  function FindLocalColumn(doc: TdmDoc, id: string): Option<LocalColumnRec> {
    First(doc.localColumns, (c: LocalColumnRec) => c.id == id)
  }

  /** `root.find(".//tag[@id='id']/values")`: the `values` child of the first
      matching sequence element that has one. */
  function FindSequenceValues(doc: TdmDoc, tag: string, id: string): Option<ValuesRec> {
    var s := First(doc.sequences, (q: SequenceRec) => q.tag == tag && q.id == id && q.values.Some?);
    if s.Some? then s.value.values else None
  }

  /** `root.find(".//file/block[@id='id']")`. */
  function FindBlock(doc: TdmDoc, id: string): Option<BlockRec> {
    if doc.file.None? then None else First(doc.file.value.blocks, (b: BlockRec) => b.id == id)
  }

  /** Attribute access on the result of a `find`: None raises AttributeError. */
  function Found<T>(o: Option<T>): (r: Result<T>)
    ensures r.Ok? <==> o.Some?
    ensures r.Err? ==> r.error == AttributeError
  {
    if o.Some? then Ok(o.value) else Err(AttributeError)
  }

  /** Dictionary subscription `attrib[key]`: a missing key raises KeyError. */
  function Key<T>(o: Option<T>): (r: Result<T>)
    ensures r.Ok? <==> o.Some?
    ensures r.Err? ==> r.error == KeyError
  {
    if o.Some? then Ok(o.value) else Err(KeyError)
  }

  // ---------------------------------------------------------------------
  // Reference lists: re.findall('id\("(.+?)"\)', s)
  // ---------------------------------------------------------------------

  const IdOpen: string := "id(\""

  /** `")` starts at index m of t. */
  predicate ClosesAt(t: string, m: int) {
    0 <= m && m + 2 <= |t| && t[m] == '"' && t[m + 1] == ')'
  }

  /** The lazy group `(.+?)` already holds t[..n]: try n, n+1, ... until `")`
      follows; `.` does not match a newline. */
  function CaptureFrom(t: string, n: nat): (r: Option<nat>)
    requires 1 <= n
    ensures r.Some? ==> n <= r.value && ClosesAt(t, r.value)
    ensures r.Some? ==> forall j :: n <= j < r.value ==> t[j] != '\n' && !ClosesAt(t, j)
    ensures r.None? ==> forall m :: n <= m && ClosesAt(t, m) ==>
                          exists j :: n <= j < m && t[j] == '\n'
    decreases |t| - n
  {
    if n + 2 > |t| then None
    else if ClosesAt(t, n) then Some(n)
    else if t[n] != '\n' then CaptureFrom(t, n + 1)
    else None
  }

  /** The regex matched at the start of s: the length of the captured id. */
  function MatchIdAt(s: string): (r: Option<nat>)
    ensures r.Some? ==> 1 <= r.value && r.value + 6 <= |s| && s[..4] == IdOpen
    ensures r.Some? ==> ClosesAt(s, 4 + r.value)
    ensures r.Some? ==> forall j :: 4 <= j < 4 + r.value ==> s[j] != '\n'
  {
    if |s| >= 5 && s[..4] == IdOpen && s[4] != '\n' then
      var c := CaptureFrom(s[4..], 1);
      if c.Some? then
        assert forall j :: 4 <= j < 4 + c.value ==> s[j] != '\n' by {
          forall j | 5 <= j < 4 + c.value ensures s[j] != '\n' { assert s[j] == s[4..][j - 4]; }
        }
        c
      else None
    else None
  }

  /** All non-overlapping matches, scanning left to right. Each match spans
      at least seven characters and captures a non-empty, single-line id. */
  function FindAllIds(s: string): (r: seq<string>)
    ensures forall k :: 0 <= k < |r| ==> |r[k]| > 0 && '\n' !in r[k]
    ensures 7 * |r| <= |s|
    decreases |s|
  {
    if s == [] then []
    else
      match MatchIdAt(s)
      case Some(n) =>
        var id := s[4..4 + n];
        assert '\n' !in id by {
          forall j | 0 <= j < |id| ensures id[j] != '\n' { assert id[j] == s[4 + j]; }
        }
        [id] + FindAllIds(s[n + 6..])
      case None => FindAllIds(s[1..])
  }

  /** XmlTdmData.get_usi_from_string: the ids of a reference-list string;
      None, the empty string and blank strings have none. */
  function GetUsiFromString(s: Option<string>): (r: seq<string>)
    ensures s.None? || IsBlank(s.value) ==> r == []
    ensures forall k :: 0 <= k < |r| ==> |r[k]| > 0
  {
    if s.None? || Strip(s.value) == "" then [] else FindAllIds(s.value)
  }

  /** The blank-string guard only short-cuts: the regex finds nothing in a
      blank string either. */
  lemma {:induction false} BlankHasNoIds(s: string)
    requires IsBlank(s)
    ensures FindAllIds(s) == []
    decreases |s|
  {
    if s != [] {
      assert s[0] != 'i';
      assert MatchIdAt(s).None? by { if |s| >= 4 { assert s[..4][0] == s[0]; } }
      BlankHasNoIds(s[1..]);
    }
  }

  /** `id("x")`. */
  function IdToken(x: string): string { IdOpen + x + "\")" }

  /** An id the lazy regex captures whole: non-empty, one line, no quote. */
  predicate WellFormedId(x: string) { |x| > 0 && '"' !in x && '\n' !in x }

  /** A reference list as TDM writers produce it: tokens joined by `sep`. */
  function JoinIds(ids: seq<string>, sep: string): string
  {
    if ids == [] then ""
    else if |ids| == 1 then IdToken(ids[0])
    else IdToken(ids[0]) + sep + JoinIds(ids[1..], sep)
  }

  lemma JoinStartsWithToken(ids: seq<string>, sep: string)
    requires ids != []
    ensures |JoinIds(ids, sep)| > 0 && JoinIds(ids, sep)[0] == 'i'
  {
    var s := JoinIds(ids, sep);
    if |ids| == 1 { assert s == IdToken(ids[0]); }
    else { assert s == IdToken(ids[0]) + (sep + JoinIds(ids[1..], sep)); }
  }

  lemma {:induction false} CaptureFinds(t: string, n: nat, target: nat)
    requires 1 <= n <= target && ClosesAt(t, target)
    requires forall j :: n <= j < target ==> t[j] != '\n' && !ClosesAt(t, j)
    ensures CaptureFrom(t, n) == Some(target)
    decreases target - n
  {
    if n < target { CaptureFinds(t, n + 1, target); }
  }

  lemma TokenIsMatched(x: string, rest: string)
    requires WellFormedId(x)
    ensures FindAllIds(IdToken(x) + rest) == [x] + FindAllIds(rest)
  {
    var s := IdToken(x) + rest;
    var t := s[4..];
    assert t == x + "\")" + rest;
    assert s[..4] == IdOpen;
    forall j | 1 <= j < |x| ensures t[j] != '\n' && !ClosesAt(t, j) {
      assert t[j] == x[j];
      assert x[j] in x;
    }
    assert x[0] in x && s[4] == x[0];
    CaptureFinds(t, 1, |x|);
    assert MatchIdAt(s) == Some(|x|);
    assert s[4..4 + |x|] == x;
    assert s[|x| + 6..] == rest;
  }

  lemma {:induction false} BlankPrefixSkipped(sep: string, rest: string)
    requires IsBlank(sep)
    ensures FindAllIds(sep + rest) == FindAllIds(rest)
    decreases |sep|
  {
    if sep != [] {
      var s := sep + rest;
      assert s[0] == sep[0] && s[0] != 'i';
      assert MatchIdAt(s).None? by { if |s| >= 4 { assert s[..4][0] == s[0]; } }
      assert s[1..] == sep[1..] + rest;
      assert IsBlank(sep[1..]);
      BlankPrefixSkipped(sep[1..], rest);
      assert FindAllIds(s) == FindAllIds(s[1..]);
      assert FindAllIds(s[1..]) == FindAllIds(sep[1..] + rest);
    } else {
      assert sep + rest == rest;
    }
  }

  lemma {:induction false} FindAllIdsOfJoin(ids: seq<string>, sep: string)
    requires IsBlank(sep)
    requires forall k :: 0 <= k < |ids| ==> WellFormedId(ids[k])
    ensures FindAllIds(JoinIds(ids, sep)) == ids
    decreases |ids|
  {
    if |ids| == 1 {
      TokenIsMatched(ids[0], "");
      assert IdToken(ids[0]) + "" == IdToken(ids[0]);
    } else if |ids| > 1 {
      var rest := JoinIds(ids[1..], sep);
      assert JoinIds(ids, sep) == IdToken(ids[0]) + (sep + rest);
      TokenIsMatched(ids[0], sep + rest);
      BlankPrefixSkipped(sep, rest);
      FindAllIdsOfJoin(ids[1..], sep);
      assert [ids[0]] + ids[1..] == ids;
    }
  }

  /** Round trip: a reference list of well-formed ids, separated by blanks,
      parses back to those ids in order. */
  lemma GetUsiRoundTrip(ids: seq<string>, sep: string)
    requires IsBlank(sep)
    requires forall k :: 0 <= k < |ids| ==> WellFormedId(ids[k])
    ensures GetUsiFromString(Some(JoinIds(ids, sep))) == ids
  {
    FindAllIdsOfJoin(ids, sep);
    if ids != [] {
      JoinStartsWithToken(ids, sep);
      var s := JoinIds(ids, sep);
      assert !IsBlank(s) by { assert !IsSpace(s[0]); }
    }
  }

  // ---------------------------------------------------------------------
  // XmlTdmData
  // ---------------------------------------------------------------------

  /** XmlTdmData after __init__: the document, its tdm_root and the channel
      groups its `channelgroups` list refers to (None for a dangling id). */
  datatype XmlTdm = XmlTdm(doc: TdmDoc, root: TdmRoot, channelGroups: seq<Option<ChannelGroupRec>>)

  /** XmlTdmData.__init__. */
  function Load(doc: TdmDoc): (r: Result<XmlTdm>)
    ensures r.Ok? <==> doc.tdmRoot.Some?
    ensures r.Err? ==> r.error == AttributeError
    ensures r.Ok? ==> |r.value.channelGroups| == |GetUsiFromString(doc.tdmRoot.value.channelGroups)|
    ensures r.Ok? ==> forall i :: 0 <= i < |r.value.channelGroups| && r.value.channelGroups[i].Some? ==>
                        r.value.channelGroups[i].value in doc.groups &&
                        r.value.channelGroups[i].value.id == GetUsiFromString(doc.tdmRoot.value.channelGroups)[i]
  {
    if doc.tdmRoot.None? then Err(AttributeError)
    else
      var ids := GetUsiFromString(doc.tdmRoot.value.channelGroups);
      Ok(XmlTdm(doc, doc.tdmRoot.value, seq(|ids|, i requires 0 <= i < |ids| => FindGroup(doc, ids[i]))))
  }

  /** XmlTdmData.get_endian_format. */
  function GetEndianFormat(x: XmlTdm): (r: Result<char>)
    ensures r == Ok('<') <==> x.doc.file.Some? && x.doc.file.value.byteOrder == Some("littleEndian")
    ensures r == Ok('>') <==> x.doc.file.Some? && x.doc.file.value.byteOrder == Some("bigEndian")
    ensures r.Ok? ==> r.value in {'<', '>'}
    ensures x.doc.file.None? ==> r == Err(AttributeError)
    ensures x.doc.file.Some? && r.Err? ==> r.error == TypeError
  {
    if x.doc.file.None? then Err(AttributeError)
    else
      var order := x.doc.file.value.byteOrder;
      if order == Some("littleEndian") then Ok('<')
      else if order == Some("bigEndian") then Ok('>')
      else Err(TypeError)
  }

  predicate AllPresent<T>(xs: seq<Option<T>>) { forall i :: 0 <= i < |xs| ==> xs[i].Some? }

  /** `list(filter(lambda x: x.findtext('name') == name, xs))`; the lambda
      raises AttributeError on a None element, wherever it stands. */
  function FilterNamed<T>(xs: seq<Option<T>>, nameOf: T -> Option<string>, name: string): (r: Result<seq<T>>)
    ensures r.Ok? <==> AllPresent(xs)
    ensures r.Err? ==> r.error == AttributeError
    ensures r.Ok? ==> |r.value| <= |xs| && forall k :: 0 <= k < |r.value| ==> nameOf(r.value[k]) == Some(name)
  {
    if xs == [] then Ok([])
    else if xs[0].None? then Err(AttributeError)
    else
      var rest := FilterNamed(xs[1..], nameOf, name);
      assert rest.Ok? <==> AllPresent(xs) by {
        if !AllPresent(xs) {
          var i :| 0 <= i < |xs| && xs[i].None?;
          assert xs[1..][i - 1] == xs[i];
        }
      }
      if rest.Err? then Err(rest.error)
      else Ok(if nameOf(xs[0].value) == Some(name) then [xs[0].value] + rest.value else rest.value)
  }

  /** Reference definition: how many present elements are named `name`. */
  function CountNamed<T>(xs: seq<Option<T>>, nameOf: T -> Option<string>, name: string): nat
  {
    if xs == [] then 0
    else (if xs[0].Some? && nameOf(xs[0].value) == Some(name) then 1 else 0) + CountNamed(xs[1..], nameOf, name)
  }

  /** The filter keeps exactly the named elements, in order: the element at
      index i is the k-th match where k counts the matches before i. */
  lemma {:induction false} FilterNamedNth<T>(xs: seq<Option<T>>, nameOf: T -> Option<string>, name: string, i: nat)
    requires AllPresent(xs) && i < |xs| && nameOf(xs[i].value) == Some(name)
    ensures |FilterNamed(xs, nameOf, name).value| == CountNamed(xs, nameOf, name)
    ensures CountNamed(xs[..i], nameOf, name) < CountNamed(xs, nameOf, name)
    ensures FilterNamed(xs, nameOf, name).value[CountNamed(xs[..i], nameOf, name)] == xs[i].value
    decreases i
  {
    FilterNamedCount(xs, nameOf, name);
    if i > 0 {
      FilterNamedNth(xs[1..], nameOf, name, i - 1);
      assert xs[..i][1..] == xs[1..][..i - 1];
    }
  }

  lemma {:induction false} FilterNamedCount<T>(xs: seq<Option<T>>, nameOf: T -> Option<string>, name: string)
    requires AllPresent(xs)
    ensures |FilterNamed(xs, nameOf, name).value| == CountNamed(xs, nameOf, name)
    decreases |xs|
  {
    if xs != [] { FilterNamedCount(xs[1..], nameOf, name); }
  }

  function GroupNameOf(g: ChannelGroupRec): Option<string> { g.name }
  function ChannelNameOf(c: ChannelRec): Option<string> { c.name }

  /** The channels a reference list points at (None for a dangling id). */
  function ChannelsById(doc: TdmDoc, ids: seq<string>): (r: seq<Option<ChannelRec>>)
    ensures |r| == |ids|
    ensures forall i :: 0 <= i < |r| && r[i].Some? ==> r[i].value.id == ids[i] && r[i].value in doc.channels
  {
    seq(|ids|, i requires 0 <= i < |ids| => FindChannel(doc, ids[i]))
  }

  /** XmlTdmData.channels: the channels of the occurrence-th group named
      groupName (a negative occurrence indexes from the end, as in Python). */
  function Channels(x: XmlTdm, groupName: string, occurrence: int): (r: Result<seq<Option<ChannelRec>>>)
    ensures !AllPresent(x.channelGroups) ==> r == Err(AttributeError)
    ensures AllPresent(x.channelGroups) && occurrence >= 0 ==>
              (r.Ok? <==> occurrence < CountNamed(x.channelGroups, GroupNameOf, groupName))
  {
    var groups :- FilterNamed(x.channelGroups, GroupNameOf, groupName);
    assert |groups| == CountNamed(x.channelGroups, GroupNameOf, groupName) by {
      FilterNamedCount(x.channelGroups, GroupNameOf, groupName);
    }
    if |groups| <= occurrence then Err(IndexError)
    else
      var g :- PyIndex(groups, occurrence);
      Ok(ChannelsById(x.doc, GetUsiFromString(g.channels)))
  }

  /** channels(g, k) selects the k-th group named g in channelgroups order and
      yields its channels in the order of that group's reference list. */
  lemma ChannelsOfNthGroup(x: XmlTdm, groupName: string, i: nat)
    requires AllPresent(x.channelGroups) && i < |x.channelGroups|
    requires x.channelGroups[i].value.name == Some(groupName)
    ensures var k := CountNamed(x.channelGroups[..i], GroupNameOf, groupName);
            Channels(x, groupName, k) == Ok(ChannelsById(x.doc, GetUsiFromString(x.channelGroups[i].value.channels)))
  {
    FilterNamedNth(x.channelGroups, GroupNameOf, groupName, i);
  }

  /** XmlTdmData.channel: the chOccurrence-th channel called channelName in the
      selected group. The explicit guard is `len(result) < ch_occurrence`, so
      chOccurrence == len(result) passes it and fails at the indexing. */
  function Channel(x: XmlTdm, groupName: string, channelName: string, occurrence: int, chOccurrence: int): (r: Result<ChannelRec>)
    ensures r.Ok? ==> r.value.name == Some(channelName)
    ensures Channels(x, groupName, occurrence).Err? ==> r == Err(Channels(x, groupName, occurrence).error)
    ensures Channels(x, groupName, occurrence).Ok? && AllPresent(Channels(x, groupName, occurrence).value) && chOccurrence >= 0 ==>
              (r.Ok? <==> chOccurrence < CountNamed(Channels(x, groupName, occurrence).value, ChannelNameOf, channelName))
  {
    var chans :- Channels(x, groupName, occurrence);
    var result :- FilterNamed(chans, ChannelNameOf, channelName);
    assert |result| == CountNamed(chans, ChannelNameOf, channelName) by {
      FilterNamedCount(chans, ChannelNameOf, channelName);
    }
    if |result| < chOccurrence then Err(IndexError) else PyIndex(result, chOccurrence)
  }

  /** channel(g, name, k, c) is the c-th channel of that group named `name`. */
  lemma ChannelIsNthNamed(x: XmlTdm, groupName: string, channelName: string, occurrence: int, i: nat)
    requires Channels(x, groupName, occurrence).Ok?
    requires var chans := Channels(x, groupName, occurrence).value;
             AllPresent(chans) && i < |chans| && chans[i].value.name == Some(channelName)
    ensures var chans := Channels(x, groupName, occurrence).value;
            Channel(x, groupName, channelName, occurrence, CountNamed(chans[..i], ChannelNameOf, channelName)) == Ok(chans[i].value)
  {
    var chans := Channels(x, groupName, occurrence).value;
    FilterNamedNth(chans, ChannelNameOf, channelName, i);
  }

  /** `s.split(c)` in Python: the pieces between occurrences of c. */
  function Split(s: string, c: char): (r: seq<string>)
    ensures |r| >= 1
    ensures forall k :: 0 <= k < |r| ==> c !in r[k]
  {
    if s == [] then [""]
    else
      var rest := Split(s[1..], c);
      if s[0] == c then [""] + rest
      else
        assert c !in [s[0]] + rest[0];
        [[s[0]] + rest[0]] + rest[1..]
  }

  lemma {:induction false} SplitAfterField(p: string, c: char, rest: string)
    requires c !in p
    ensures Split(p + [c] + rest, c) == [p] + Split(rest, c)
    decreases |p|
  {
    if p == [] {
      assert ([] + [c] + rest)[1..] == rest;
    } else {
      var s := p + [c] + rest;
      assert s[1..] == p[1..] + [c] + rest;
      SplitAfterField(p[1..], c, rest);
      assert [p[0]] + p[1..] == p;
    }
  }

  lemma {:induction false} SplitNoSeparator(p: string, c: char)
    requires c !in p
    ensures Split(p, c) == [p]
    decreases |p|
  {
    if p != [] {
      SplitNoSeparator(p[1..], c);
      assert [p[0]] + p[1..] == p;
    }
  }

  function LowerChar(ch: char): char {
    if 'A' <= ch <= 'Z' then (ch as int + 32) as char else ch
  }

  /** `s.lower()` on ASCII letters. */
  function Lower(s: string): (r: string)
    ensures |r| == |s|
  {
    seq(|s|, i requires 0 <= i < |s| => LowerChar(s[i]))
  }

  /** The element tag of a channel's typed sequence: the lower-cased second
      `_`-field of its datatype plus `_sequence`. */
  function SequenceTag(dataType: Option<string>): (r: Result<string>)
    ensures dataType.None? ==> r == Err(AttributeError)
    ensures dataType.Some? ==> (r.Ok? <==> '_' in dataType.value)
  {
    if dataType.None? then Err(AttributeError)
    else
      var parts := Split(dataType.value, '_');
      assert |parts| >= 2 <==> '_' in dataType.value by {
        if '_' !in dataType.value { SplitNoSeparator(dataType.value, '_'); }
        else {
          var i :| 0 <= i < |dataType.value| && dataType.value[i] == '_';
          var p := dataType.value[..i];
          var j :| 0 <= j <= i && '_' !in dataType.value[..j] && (j == i || dataType.value[j] == '_')
            by { SplitPrefixWitness(dataType.value, i); }
          assert dataType.value == dataType.value[..j] + ['_'] + dataType.value[j + 1..];
          SplitAfterField(dataType.value[..j], '_', dataType.value[j + 1..]);
        }
      }
      var field :- PyIndex(parts, 1);
      Ok(Lower(field) + "_sequence")
  }

  lemma SplitPrefixWitness(s: string, i: nat)
    requires i < |s| && s[i] == '_'
    ensures exists j :: 0 <= j <= i && '_' !in s[..j] && (j == i || s[j] == '_')
    decreases i
  {
    if '_' !in s[..i] {
      assert '_' !in s[..i] && s[i] == '_';
    } else {
      var k :| 0 <= k < i && s[..i][k] == '_';
      SplitPrefixWitness(s, k);
    }
  }

  /** "DT_DOUBLE" names the `double_sequence` element, and a third field
      does not matter. */
  lemma SequenceTagOfFields(p: string, q: string, tail: string)
    requires '_' !in p && '_' !in q
    requires tail == [] || tail[0] == '_'
    ensures SequenceTag(Some(p + "_" + q + tail)) == Ok(Lower(q) + "_sequence")
  {
    var s := p + "_" + q + tail;
    assert s == p + ['_'] + (q + tail);
    SplitAfterField(p, '_', q + tail);
    if tail == [] {
      SplitNoSeparator(q, '_');
      assert q + tail == q;
    } else {
      assert q + tail == q + ['_'] + tail[1..];
      SplitAfterField(q, '_', tail[1..]);
    }
  }

  /** XmlTdmData.get_channel_inc: channel -> first local column -> first
      values id -> the typed sequence's `values/@external` block id. */
  function GetChannelInc(x: XmlTdm, groupName: string, channelName: string, groupOccurrence: int, channelOccurrence: int): (r: Result<Option<string>>)
    ensures Channel(x, groupName, channelName, groupOccurrence, channelOccurrence).Err? ==>
              r == Err(Channel(x, groupName, channelName, groupOccurrence, channelOccurrence).error)
    ensures Channel(x, groupName, channelName, groupOccurrence, channelOccurrence).Ok? &&
            GetUsiFromString(Channel(x, groupName, channelName, groupOccurrence, channelOccurrence).value.localColumns) == [] &&
            SequenceTag(Channel(x, groupName, channelName, groupOccurrence, channelOccurrence).value.dataType).Ok? ==>
              r == Err(IndexError)
  {
    var chx :- Channel(x, groupName, channelName, groupOccurrence, channelOccurrence);
    var tag :- SequenceTag(chx.dataType);
    var localColumnId :- PyIndex(GetUsiFromString(chx.localColumns), 0);
    var localColumn :- Found(FindLocalColumn(x.doc, localColumnId));
    var dataId :- PyIndex(GetUsiFromString(localColumn.values), 0);
    var values :- Found(FindSequenceValues(x.doc, tag, dataId));
    Ok(values.external)
  }

  /** The reference chain is followed through the FIRST id of each list:
      whatever further ids the local-column and values lists carry, the
      block id is the `external` of the sequence the first ids reach. */
  lemma GetChannelIncFollowsFirstIds(
    x: XmlTdm, groupName: string, channelName: string, k: int, c: int,
    p: string, q: string, columnIds: seq<string>, valueIds: seq<string>,
    lc: LocalColumnRec, values: ValuesRec)
    requires Channel(x, groupName, channelName, k, c).Ok?
    requires var chx := Channel(x, groupName, channelName, k, c).value;
             chx.dataType == Some(p + "_" + q) && chx.localColumns == Some(JoinIds(columnIds, " "))
    requires '_' !in p && '_' !in q
    requires columnIds != [] && forall i :: 0 <= i < |columnIds| ==> WellFormedId(columnIds[i])
    requires FindLocalColumn(x.doc, columnIds[0]) == Some(lc)
    requires lc.values == Some(JoinIds(valueIds, " "))
    requires valueIds != [] && forall i :: 0 <= i < |valueIds| ==> WellFormedId(valueIds[i])
    requires FindSequenceValues(x.doc, Lower(q) + "_sequence", valueIds[0]) == Some(values)
    ensures GetChannelInc(x, groupName, channelName, k, c) == Ok(values.external)
  {
    SequenceTagOfFields(p, q, "");
    assert p + "_" + q + "" == p + "_" + q;
    GetUsiRoundTrip(columnIds, " ");
    GetUsiRoundTrip(valueIds, " ");
  }

  // ---------------------------------------------------------------------
  // TdmData
  // ---------------------------------------------------------------------

  /** TdmData after __init__: folder and file name of the .tdm document, its
      parsed XML, and the path of the companion .tdx blob. */
  datatype TdmData = TdmData(folder: string, tdmFilename: string, xml: XmlTdm, tdxPath: string)

  /** os.path.split (POSIX): cut after the last '/', and drop the trailing
      slashes of the head unless it consists of slashes only. */
  function PathSplit(p: string): (r: (string, string))
    ensures '/' !in r.1
  {
    var i := LastSlashEnd(p);
    var head := p[..i];
    var tail := p[i..];
    if head != "" && !AllSlashes(head) then (RStripSlashes(head), tail) else (head, tail)
  }

  /** One past the last '/' of p, or 0. */
  function LastSlashEnd(p: string): (i: nat)
    ensures i <= |p| && '/' !in p[i..]
    ensures i > 0 ==> p[i - 1] == '/'
  {
    if p == [] then 0
    else if p[|p| - 1] == '/' then |p|
    else
      var i := LastSlashEnd(p[..|p| - 1]);
      assert p[i..] == p[..|p| - 1][i..] + [p[|p| - 1]];
      i
  }

  predicate AllSlashes(s: string) { forall i :: 0 <= i < |s| ==> s[i] == '/' }

  function RStripSlashes(s: string): string {
    if s != [] && s[|s| - 1] == '/' then RStripSlashes(s[..|s| - 1]) else s
  }

  /** os.path.join (POSIX) of two components. */
  function PathJoin(a: string, b: string): string {
    if b != [] && b[0] == '/' then b
    else if a == [] || a[|a| - 1] == '/' then a + b
    else a + "/" + b
  }

  /** TdmData.__init__, with the parse of the file given as `doc`. */
  function OpenTdm(tdmFile: string, doc: TdmDoc): (r: Result<TdmData>)
    ensures r.Ok? <==> doc.tdmRoot.Some? && doc.file.Some? && doc.file.value.url.Some?
    ensures doc.tdmRoot.Some? && doc.file.Some? && doc.file.value.url.None? ==> r == Err(TypeError)
  {
    var (folder, name) := PathSplit(tdmFile);
    var xml :- Load(doc);
    var file :- Found(doc.file);
    if file.url.None? then Err(TypeError)
    else Ok(TdmData(folder, name, xml, PathJoin(folder, file.url.value)))
  }

  /** The companion blob is looked up in the folder of the .tdm document,
      under the name its `file/@url` gives. */
  lemma TdxBesideTdm(dir: string, name: string, doc: TdmDoc)
    requires dir != "" && dir[|dir| - 1] != '/' && '/' !in name
    requires doc.tdmRoot.Some? && doc.file.Some? && doc.file.value.url.Some?
    requires var url := doc.file.value.url.value; url != "" && url[0] != '/'
    ensures OpenTdm(dir + "/" + name, doc).Ok?
    ensures OpenTdm(dir + "/" + name, doc).value.tdxPath == dir + "/" + doc.file.value.url.value
    ensures OpenTdm(dir + "/" + name, doc).value.tdmFilename == name
  {
    SplitBesideDir(dir, name);
    var url := doc.file.value.url.value;
    assert PathJoin(dir, url) == dir + "/" + url;
    var xml := Load(doc);
    assert xml.Ok?;
    assert OpenTdm(dir + "/" + name, doc) == Ok(TdmData(dir, name, xml.value, dir + "/" + url));
  }

  /** "dir/name" splits into dir and name. */
  lemma SplitBesideDir(dir: string, name: string)
    requires dir != "" && dir[|dir| - 1] != '/' && '/' !in name
    ensures PathSplit(dir + "/" + name) == (dir, name)
  {
    var p := dir + "/" + name;
    var head := dir + "/";
    LastSlashEndAfter(head, name);
    assert p[..|dir| + 1] == head;
    assert p[|dir| + 1..] == name;
    assert head[|dir| - 1] == dir[|dir| - 1];
    assert head[..|dir|] == dir;
    assert RStripSlashes(head) == RStripSlashes(dir) == dir;
  }

  lemma {:induction false} LastSlashEndAfter(a: string, name: string)
    requires a != "" && a[|a| - 1] == '/' && '/' !in name
    ensures LastSlashEnd(a + name) == |a|
    decreases |name|
  {
    if name == [] {
      assert a + name == a;
    } else {
      var p := a + name;
      assert p[|p| - 1] == name[|name| - 1] && name[|name| - 1] in name;
      assert p[..|p| - 1] == a + name[..|name| - 1];
      LastSlashEndAfter(a, name[..|name| - 1]);
    }
  }

  /** NumPy dtype `order + code`, e.g. '<f8'. */
  datatype Dtype = Dtype(byteOrder: char, code: string)

  /** What np.memmap is opened on: `length` elements of `dtype`, starting
      `byteOffset` bytes into the companion blob. */
  datatype BlockView = BlockView(byteOffset: int, length: int, dtype: Dtype)

  /** An f-string renders None as "None". */
  function FormatOptional(o: Option<string>): string {
    if o.Some? then o.value else "None"
  }

  /** TdmData.get_channel_data: resolve the block a channel's data lives in.
      Any failure while following the reference chain is re-raised as
      ValueError; the block lookup and its attributes are outside that
      guard. */
  function GetChannelData(t: TdmData, groupName: string, channelName: string, groupOccurrence: int, channelOccurrence: int): (r: Result<BlockView>)
    ensures GetChannelInc(t.xml, groupName, channelName, groupOccurrence, channelOccurrence).Err? ==> r == Err(ValueError)
    ensures r.Ok? ==> r.value.dtype.code in DtypeConverters.Values
    ensures r.Ok? ==> GetEndianFormat(t.xml) == Ok(r.value.dtype.byteOrder)
  {
    var inc := GetChannelInc(t.xml, groupName, channelName, groupOccurrence, channelOccurrence);
    if inc.Err? then Err(ValueError)
    else
      var block :- Found(FindBlock(t.xml.doc, FormatOptional(inc.value)));
      var offsetText :- Key(block.byteOffset);
      var offset :- ParseInt(offsetText);
      var lengthText :- Key(block.length);
      var length :- ParseInt(lengthText);
      var order :- GetEndianFormat(t.xml);
      var valueType :- Key(block.valueType);
      var code :- Key(if valueType in DtypeConverters then Some(DtypeConverters[valueType]) else None);
      Ok(BlockView(offset, length, Dtype(order, code)))
  }

  /** A resolved block yields exactly `length` elements from `byteOffset` on,
      typed by DTYPE_CONVERTERS[valueType] in the document's byte order. */
  lemma GetChannelDataGeometry(
    t: TdmData, groupName: string, channelName: string, k: int, c: int,
    id: string, block: BlockRec, offset: int, length: int, valueType: string)
    requires GetChannelInc(t.xml, groupName, channelName, k, c) == Ok(Some(id))
    requires FindBlock(t.xml.doc, id) == Some(block)
    requires block.byteOffset == Some(IntToString(offset)) && block.length == Some(IntToString(length))
    requires block.valueType == Some(valueType) && valueType in DtypeConverters
    requires GetEndianFormat(t.xml).Ok?
    ensures GetChannelData(t, groupName, channelName, k, c)
         == Ok(BlockView(offset, length, Dtype(GetEndianFormat(t.xml).value, DtypeConverters[valueType])))
  {
    ParseIntRoundTrip(offset);
    ParseIntRoundTrip(length);
  }

  /** A little-endian float64 channel opens as '<f8'. */
  lemma LittleEndianFloat64(t: TdmData, groupName: string, channelName: string, id: string, block: BlockRec)
    requires GetChannelInc(t.xml, groupName, channelName, 0, 0) == Ok(Some(id))
    requires FindBlock(t.xml.doc, id) == Some(block)
    requires block.byteOffset == Some("0") && block.length == Some("3") && block.valueType == Some("eFloat64Usi")
    requires t.xml.doc.file.Some? && t.xml.doc.file.value.byteOrder == Some("littleEndian")
    ensures GetChannelData(t, groupName, channelName, 0, 0) == Ok(BlockView(0, 3, Dtype('<', "f8")))
  {
    GetChannelDataGeometry(t, groupName, channelName, 0, 0, id, block, 0, 3, "eFloat64Usi");
  }

  /** A group whose `name` element has text. */
  predicate HasNameText(g: ChannelGroupRec) {
    g.name.Some? && g.name.value != ""
  }

  /** How many groups have a name text. */
  function CountNameText(groups: seq<ChannelGroupRec>): (c: nat)
    ensures c <= |groups|
  {
    if groups == [] then 0 else (if HasNameText(groups[0]) then 1 else 0) + CountNameText(groups[1..])
  }

  /** The non-empty `name` texts of all channel groups, in document order. */
  function GroupNames(groups: seq<ChannelGroupRec>): (r: seq<string>)
    ensures |r| == CountNameText(groups)
  {
    if groups == [] then []
    else (if HasNameText(groups[0]) then [groups[0].name.value] else []) + GroupNames(groups[1..])
  }

  /** Every listed name is the non-empty name of some group. */
  lemma {:induction false} GroupNamesSound(groups: seq<ChannelGroupRec>)
    ensures forall k :: 0 <= k < |GroupNames(groups)| ==>
              GroupNames(groups)[k] != "" && exists i :: 0 <= i < |groups| && groups[i].name == Some(GroupNames(groups)[k])
  {
    if groups != [] {
      GroupNamesSound(groups[1..]);
      var head := if HasNameText(groups[0]) then [groups[0].name.value] else [];
      var rest := GroupNames(groups[1..]);
      assert GroupNames(groups) == head + rest;
      forall k | 0 <= k < |head + rest|
        ensures (head + rest)[k] != "" && exists i :: 0 <= i < |groups| && groups[i].name == Some((head + rest)[k])
      {
        if k < |head| {
          assert groups[0].name == Some((head + rest)[k]);
        } else {
          assert (head + rest)[k] == rest[k - |head|];
          var i :| 0 <= i < |groups[1..]| && groups[1..][i].name == Some(rest[k - |head|]);
          assert groups[i + 1] == groups[1..][i];
        }
      }
    }
  }

  /** Every group with a name text contributes it, at the position given by
      the number of such groups before it: all names, in document order. */
  lemma {:induction false} GroupNamesNth(groups: seq<ChannelGroupRec>, i: nat)
    requires i < |groups| && HasNameText(groups[i])
    ensures CountNameText(groups[..i]) < |GroupNames(groups)|
    ensures GroupNames(groups)[CountNameText(groups[..i])] == groups[i].name.value
    decreases i
  {
    if i > 0 {
      GroupNamesNth(groups[1..], i - 1);
      var head := if HasNameText(groups[0]) then [groups[0].name.value] else [];
      assert groups[..i][1..] == groups[1..][..i - 1];
      assert CountNameText(groups[..i]) == |head| + CountNameText(groups[1..][..i - 1]);
      var rest := GroupNames(groups[1..]);
      var c := CountNameText(groups[1..][..i - 1]);
      assert GroupNames(groups) == head + rest;
      assert (head + rest)[|head| + c] == rest[c];
      assert groups[1..][i - 1] == groups[i];
    } else {
      assert groups[..0] == [];
      assert GroupNames(groups) == [groups[0].name.value] + GroupNames(groups[1..]);
    }
  }

  /** TdmData.get_channel_group_names: every group element of the document
      whose name has text, whether or not tdm_root lists it, in document
      order. */
  function GetChannelGroupNames(t: TdmData): (r: seq<string>)
    ensures |r| == CountNameText(t.xml.doc.groups)
    ensures forall k :: 0 <= k < |r| ==> r[k] != "" && exists i :: 0 <= i < |t.xml.doc.groups| && t.xml.doc.groups[i].name == Some(r[k])
    ensures forall i :: 0 <= i < |t.xml.doc.groups| && HasNameText(t.xml.doc.groups[i]) ==>
              CountNameText(t.xml.doc.groups[..i]) < |r| && r[CountNameText(t.xml.doc.groups[..i])] == t.xml.doc.groups[i].name.value
  {
    var groups := t.xml.doc.groups;
    GroupNamesSound(groups);
    forall i | 0 <= i < |groups| && HasNameText(groups[i])
      ensures CountNameText(groups[..i]) < |GroupNames(groups)| && GroupNames(groups)[CountNameText(groups[..i])] == groups[i].name.value
    {
      GroupNamesNth(groups, i);
    }
    GroupNames(groups)
  }

  /** A present channel with a `name` child. */
  predicate HasChannelName(c: Option<ChannelRec>) {
    c.Some? && c.value.name.Some?
  }

  /** How many channels have a name. */
  function CountChannelNames(chans: seq<Option<ChannelRec>>): (c: nat)
    ensures c <= |chans|
  {
    if chans == [] then 0 else (if HasChannelName(chans[0]) then 1 else 0) + CountChannelNames(chans[1..])
  }

  /** The `name` of every channel that has one; a None channel raises. */
  function ChannelNames(chans: seq<Option<ChannelRec>>): (r: Result<seq<string>>)
    ensures r.Ok? <==> AllPresent(chans)
    ensures r.Err? ==> r.error == AttributeError
    ensures r.Ok? ==> |r.value| == CountChannelNames(chans)
  {
    if chans == [] then Ok([])
    else if chans[0].None? then Err(AttributeError)
    else
      var rest := ChannelNames(chans[1..]);
      assert rest.Ok? <==> AllPresent(chans) by {
        if !AllPresent(chans) {
          var i :| 0 <= i < |chans| && chans[i].None?;
          assert chans[1..][i - 1] == chans[i];
        }
      }
      if rest.Err? then Err(rest.error)
      else Ok((if HasChannelName(chans[0]) then [chans[0].value.name.value] else []) + rest.value)
  }

  /** Every listed name is the name of some channel. */
  lemma {:induction false} ChannelNamesSound(chans: seq<Option<ChannelRec>>)
    ensures ChannelNames(chans).Ok? ==> forall k :: 0 <= k < |ChannelNames(chans).value| ==>
              exists i :: 0 <= i < |chans| && chans[i].value.name == Some(ChannelNames(chans).value[k])
  {
    if chans != [] && chans[0].Some? && ChannelNames(chans[1..]).Ok? {
      ChannelNamesSound(chans[1..]);
      var head := if HasChannelName(chans[0]) then [chans[0].value.name.value] else [];
      var rest := ChannelNames(chans[1..]).value;
      assert ChannelNames(chans).value == head + rest;
      forall k | 0 <= k < |head + rest|
        ensures exists i :: 0 <= i < |chans| && chans[i].value.name == Some((head + rest)[k])
      {
        if k < |head| {
          assert chans[0].value.name == Some((head + rest)[k]);
        } else {
          assert (head + rest)[k] == rest[k - |head|];
          var i :| 0 <= i < |chans[1..]| && chans[1..][i].value.name == Some(rest[k - |head|]);
          assert chans[i + 1] == chans[1..][i];
        }
      }
    }
  }

  /** Every named channel contributes its name, at the position given by the
      number of named channels before it: all names, in reference order. */
  lemma {:induction false} ChannelNamesNth(chans: seq<Option<ChannelRec>>, i: nat)
    requires AllPresent(chans) && i < |chans| && HasChannelName(chans[i])
    ensures ChannelNames(chans).Ok?
    ensures CountChannelNames(chans[..i]) < |ChannelNames(chans).value|
    ensures ChannelNames(chans).value[CountChannelNames(chans[..i])] == chans[i].value.name.value
    decreases i
  {
    if i > 0 {
      assert AllPresent(chans[1..]) by {
        forall j | 0 <= j < |chans[1..]| ensures chans[1..][j].Some? {
          assert chans[1..][j] == chans[j + 1];
        }
      }
      ChannelNamesNth(chans[1..], i - 1);
      var head := if HasChannelName(chans[0]) then [chans[0].value.name.value] else [];
      assert chans[..i][1..] == chans[1..][..i - 1];
      assert CountChannelNames(chans[..i]) == |head| + CountChannelNames(chans[1..][..i - 1]);
      var rest := ChannelNames(chans[1..]).value;
      var c := CountChannelNames(chans[1..][..i - 1]);
      assert ChannelNames(chans).value == head + rest;
      assert (head + rest)[|head| + c] == rest[c];
      assert chans[1..][i - 1] == chans[i];
    } else {
      assert chans[..0] == [];
      assert ChannelNames(chans).value == [chans[0].value.name.value] + ChannelNames(chans[1..]).value;
    }
  }

  /** TdmData.get_channel_names: the channel names of the first group called
      channelGroup. */
  function GetChannelNames(t: TdmData, channelGroup: string): (r: Result<seq<string>>)
    ensures Channels(t.xml, channelGroup, 0).Err? ==> r == Err(Channels(t.xml, channelGroup, 0).error)
    ensures Channels(t.xml, channelGroup, 0).Ok? ==> r == ChannelNames(Channels(t.xml, channelGroup, 0).value)
  {
    var chans :- Channels(t.xml, channelGroup, 0);
    ChannelNames(chans)
  }

  /** TdmData.get_channel_unit: the `unit_string` of the selected channel. */
  function GetChannelUnit(t: TdmData, channelGroup: string, channel: string, occurrence: int, chOccurrence: int): (r: Result<Option<string>>)
    ensures r.Ok? <==> Channel(t.xml, channelGroup, channel, occurrence, chOccurrence).Ok?
    ensures r.Ok? ==> exists c :: Channel(t.xml, channelGroup, channel, occurrence, chOccurrence) == Ok(c) &&
                                  c.name == Some(channel) && r.value == c.unitString
  {
    var c :- Channel(t.xml, channelGroup, channel, occurrence, chOccurrence);
    Ok(c.unitString)
  }

  /** TdmData.channel_description: the `description` of the selected channel. */
  function ChannelDescription(t: TdmData, channelGroupName: string, channelName: string, occurrence: int, chOccurrence: int): (r: Result<Option<string>>)
    ensures r.Ok? <==> Channel(t.xml, channelGroupName, channelName, occurrence, chOccurrence).Ok?
    ensures r.Ok? ==> exists c :: Channel(t.xml, channelGroupName, channelName, occurrence, chOccurrence) == Ok(c) &&
                                  c.name == Some(channelName) && r.value == c.description
  {
    var c :- Channel(t.xml, channelGroupName, channelName, occurrence, chOccurrence);
    Ok(c.description)
  }

  /** A name listed at two positions. */
  predicate Repeated(names: seq<string>, n: string) {
    exists i, j :: 0 <= i < j < |names| && names[i] == n && names[j] == n
  }

  /** What channel_dict returns, and the duplicate names it warns about. */
  datatype ChannelTable = ChannelTable(data: map<string, BlockView>, doublets: set<string>)

  /** TdmData.channel_dict: one entry per channel name of the group; a name
      listed twice is recorded as a doublet, and its entry is always the data
      of its first occurrence (channel_occurrence 0). The `occurrence`
      argument is accepted and not used. */
  method ChannelDict(t: TdmData, channelGroup: string, occurrence: int) returns (r: Result<ChannelTable>)
    ensures GetChannelNames(t, channelGroup).Err? ==> r == Err(GetChannelNames(t, channelGroup).error)
    ensures GetChannelNames(t, channelGroup).Ok? ==>
              var names := GetChannelNames(t, channelGroup).value;
              && (r.Ok? <==> forall i :: 0 <= i < |names| ==> GetChannelData(t, channelGroup, names[i], 0, 0).Ok?)
              && (r.Err? ==> exists i :: 0 <= i < |names| && GetChannelData(t, channelGroup, names[i], 0, 0) == Err(r.error) &&
                               forall j :: 0 <= j < i ==> GetChannelData(t, channelGroup, names[j], 0, 0).Ok?)
              && (r.Ok? ==> r.value.data.Keys == set i | 0 <= i < |names| :: names[i])
              && (r.Ok? ==> forall n :: n in r.value.data ==> GetChannelData(t, channelGroup, n, 0, 0) == Ok(r.value.data[n]))
              && (r.Ok? ==> forall n :: n in r.value.doublets <==> Repeated(names, n))
  {
    var names :- GetChannelNames(t, channelGroup);
    r := FillTable(names, n => GetChannelData(t, channelGroup, n, 0, 0));
  }

  /** The loop of channel_dict over the names, reading each with `read`. */
  method FillTable(names: seq<string>, read: string -> Result<BlockView>) returns (r: Result<ChannelTable>)
    ensures r.Ok? <==> forall i :: 0 <= i < |names| ==> read(names[i]).Ok?
    ensures r.Err? ==> exists i :: 0 <= i < |names| && read(names[i]) == Err(r.error) && forall j :: 0 <= j < i ==> read(names[j]).Ok?
    ensures r.Ok? ==> r.value.data.Keys == set i | 0 <= i < |names| :: names[i]
    ensures r.Ok? ==> forall n :: n in r.value.data ==> read(n) == Ok(r.value.data[n])
    ensures r.Ok? ==> forall n :: n in r.value.doublets <==> Repeated(names, n)
  {
    var data: map<string, BlockView> := map[];
    var doublets: set<string> := {};
    var i := 0;
    while i < |names|
      invariant 0 <= i <= |names|
      invariant data.Keys == set j | 0 <= j < i :: names[j]
      invariant forall n :: n in data ==> read(n) == Ok(data[n])
      invariant forall j :: 0 <= j < i ==> read(names[j]).Ok?
      invariant forall n :: n in doublets <==> Repeated(names[..i], n)
    {
      var name := names[i];
      if name in data {
        doublets := doublets + {name};
      }
      var value := read(name);
      if value.Err? {
        return Err(value.error);
      }
      data := data[name := value.value];
      RepeatedExtend(names, i);
      i := i + 1;
    }
    assert names[..i] == names;
    return Ok(ChannelTable(data, doublets));
  }

  /** Extending the scanned prefix by one name repeats that name exactly when
      it was already seen. */
  lemma RepeatedExtend(names: seq<string>, i: nat)
    requires i < |names|
    ensures forall n :: Repeated(names[..i + 1], n) <==>
              Repeated(names[..i], n) || (n == names[i] && exists j :: 0 <= j < i && names[j] == n)
  {
    var p := names[..i + 1];
    forall n ensures Repeated(p, n) <==> Repeated(names[..i], n) || (n == names[i] && exists j :: 0 <= j < i && names[j] == n) {
      if Repeated(p, n) {
        var a, b :| 0 <= a < b < |p| && p[a] == n && p[b] == n;
        if b < i {
          assert names[..i][a] == n && names[..i][b] == n;
        } else {
          assert names[a] == n;
        }
      }
      if Repeated(names[..i], n) {
        var a, b :| 0 <= a < b < i && names[..i][a] == n && names[..i][b] == n;
        assert p[a] == n && p[b] == n;
      }
      if n == names[i] && exists j :: 0 <= j < i && names[j] == n {
        var j :| 0 <= j < i && names[j] == n;
        assert p[j] == n && p[i] == n;
      }
    }
  }

  /** A value of the instance-attribute dictionary. A double is kept as the
      literal `float()` is applied to; the float conversion itself is not
      modelled. */
  datatype AttrValue =
    | StrAttr(text: Option<string>)
    | DoubleAttr(literal: string)
    | LongAttr(value: int)
    | RawAttr(text: Option<string>)

  /** One loop step of get_instance_attributes_dict: string attributes give
      the text of their `<s>` child, doubles and longs their converted text,
      every other kind its raw text. */
  function ConvertAttribute(a: AttributeRec): (r: Result<AttrValue>)
    ensures a.tag == "string_attribute" ==> (r.Ok? <==> a.s.Some?) && (r.Ok? ==> r.value == StrAttr(a.s.value))
    ensures a.tag == "double_attribute" ==> (r.Ok? <==> a.text.Some?) && (r.Ok? ==> r.value == DoubleAttr(a.text.value))
    ensures a.tag == "long_attribute" ==> (r.Ok? <==> a.text.Some? && ParseInt(a.text.value).Ok?)
    ensures a.tag == "long_attribute" && r.Ok? ==> r.value == LongAttr(ParseInt(a.text.value).value)
    ensures a.tag !in {"string_attribute", "double_attribute", "long_attribute"} ==> r == Ok(RawAttr(a.text))
  {
    if a.tag == "string_attribute" then
      if a.s.None? then Err(AttributeError) else Ok(StrAttr(a.s.value))
    else if a.tag == "double_attribute" then
      if a.text.None? then Err(TypeError) else Ok(DoubleAttr(a.text.value))
    else if a.tag == "long_attribute" then
      if a.text.None? then Err(TypeError)
      else
        var n :- ParseInt(a.text.value);
        Ok(LongAttr(n))
    else Ok(RawAttr(a.text))
  }

  /** A long attribute written as str(n) reads back as n. */
  lemma LongAttributeRoundTrip(name: Option<string>, n: int, s: Option<Option<string>>)
    ensures ConvertAttribute(AttributeRec("long_attribute", name, Some(IntToString(n)), s)) == Ok(LongAttr(n))
  {
    ParseIntRoundTrip(n);
  }

  /** No attribute after index j (and before `end`) carries the same name. */
  predicate LastBefore(attrs: seq<AttributeRec>, j: int, end: int)
    requires 0 <= j < |attrs|
  {
    forall k :: j < k < end && k < |attrs| ==> attrs[k].name != attrs[j].name
  }

  /** The names of the first i attributes. */
  function NamesUpTo(attrs: seq<AttributeRec>, i: nat): set<Option<string>>
    requires i <= |attrs|
  {
    set j | 0 <= j < i :: attrs[j].name
  }

  /** One more attribute adds its name. */
  lemma NamesStep(attrs: seq<AttributeRec>, i: nat)
    requires i < |attrs|
    ensures NamesUpTo(attrs, i + 1) == NamesUpTo(attrs, i) + {attrs[i].name}
  {
    forall n | n in NamesUpTo(attrs, i + 1) ensures n in NamesUpTo(attrs, i) + {attrs[i].name} {
      var j :| 0 <= j < i + 1 && attrs[j].name == n;
      if j < i {
        assert n in NamesUpTo(attrs, i);
      }
    }
  }

  /** In `result`, the last of the first i attributes with a given name
      gives that name's value. */
  predicate LastWins(attrs: seq<AttributeRec>, convert: AttributeRec -> Result<AttrValue>,
                     result: map<Option<string>, AttrValue>, i: nat)
    requires i <= |attrs|
  {
    forall j :: 0 <= j < i && LastBefore(attrs, j, i) ==>
      convert(attrs[j]).Ok? && attrs[j].name in result && result[attrs[j].name] == convert(attrs[j]).value
  }

  /** `result` is the dictionary built from the first i attributes: their
      names are its keys, and the last of each name gives the value. */
  predicate DictUpTo(attrs: seq<AttributeRec>, convert: AttributeRec -> Result<AttrValue>,
                     result: map<Option<string>, AttrValue>, i: nat)
    requires i <= |attrs|
  {
    && (forall j :: 0 <= j < i ==> convert(attrs[j]).Ok?)
    && result.Keys == NamesUpTo(attrs, i)
    && LastWins(attrs, convert, result, i)
  }

  /** Storing the next value keeps the last one of each name. */
  lemma LastWinsStep(attrs: seq<AttributeRec>, convert: AttributeRec -> Result<AttrValue>,
                     result: map<Option<string>, AttrValue>, i: nat)
    requires i < |attrs| && LastWins(attrs, convert, result, i) && convert(attrs[i]).Ok?
    ensures LastWins(attrs, convert, result[attrs[i].name := convert(attrs[i]).value], i + 1)
  {
    var next := result[attrs[i].name := convert(attrs[i]).value];
    forall j | 0 <= j < i + 1 && LastBefore(attrs, j, i + 1)
      ensures convert(attrs[j]).Ok? && attrs[j].name in next && next[attrs[j].name] == convert(attrs[j]).value
    {
      if j < i {
        assert attrs[j].name != attrs[i].name;
        assert LastBefore(attrs, j, i);
      }
    }
  }

  /** Storing the next converted attribute extends the dictionary by one. */
  lemma DictStep(attrs: seq<AttributeRec>, convert: AttributeRec -> Result<AttrValue>,
                 result: map<Option<string>, AttrValue>, i: nat)
    requires i < |attrs| && DictUpTo(attrs, convert, result, i) && convert(attrs[i]).Ok?
    ensures DictUpTo(attrs, convert, result[attrs[i].name := convert(attrs[i]).value], i + 1)
  {
    NamesStep(attrs, i);
    LastWinsStep(attrs, convert, result, i);
  }

  /** The dictionary the loop of get_instance_attributes_dict ends with when
      it starts at index i with `acc`, or the first conversion error. */
  function AttributesFrom(attrs: seq<AttributeRec>, i: nat, acc: map<Option<string>, AttrValue>): (r: Result<map<Option<string>, AttrValue>>)
    requires i <= |attrs|
    decreases |attrs| - i
  {
    if i == |attrs| then Ok(acc)
    else
      var value :- ConvertAttribute(attrs[i]);
      AttributesFrom(attrs, i + 1, acc[attrs[i].name := value])
  }

  /** What get_instance_attributes_dict returns: TypeError without an
      instance_attributes element, otherwise the fold over its children. */
  function InstanceAttributes(t: TdmData): Result<map<Option<string>, AttrValue>> {
    if t.xml.root.instanceAttributes.None? then Err(TypeError)
    else AttributesFrom(t.xml.root.instanceAttributes.value, 0, map[])
  }

  /** TdmData.get_instance_attributes_dict: name -> converted value over the
      children of instance_attributes, where a later attribute overwrites an
      earlier one of the same name. */
  method GetInstanceAttributesDict(t: TdmData) returns (r: Result<map<Option<string>, AttrValue>>)
    ensures r == InstanceAttributes(t)
    ensures t.xml.root.instanceAttributes.None? ==> r == Err(TypeError)
    ensures t.xml.root.instanceAttributes.Some? ==>
              var attrs := t.xml.root.instanceAttributes.value;
              && (r.Ok? <==> forall i :: 0 <= i < |attrs| ==> ConvertAttribute(attrs[i]).Ok?)
              && (r.Err? ==> exists i :: 0 <= i < |attrs| && ConvertAttribute(attrs[i]) == Err(r.error) &&
                               forall j :: 0 <= j < i ==> ConvertAttribute(attrs[j]).Ok?)
              && (r.Ok? ==> r.value.Keys == NamesUpTo(attrs, |attrs|))
              && (r.Ok? ==> forall i :: 0 <= i < |attrs| && LastBefore(attrs, i, |attrs|) ==>
                              r.value[attrs[i].name] == ConvertAttribute(attrs[i]).value)
  {
    if t.xml.root.instanceAttributes.None? {
      return Err(TypeError);
    }
    var attrs := t.xml.root.instanceAttributes.value;
    var result: map<Option<string>, AttrValue> := map[];
    var i := 0;
    while i < |attrs|
      invariant 0 <= i <= |attrs|
      invariant DictUpTo(attrs, ConvertAttribute, result, i)
      invariant InstanceAttributes(t) == AttributesFrom(attrs, i, result)
    {
      var value := ConvertAttribute(attrs[i]);
      if value.Err? {
        return Err(value.error);
      }
      DictStep(attrs, ConvertAttribute, result, i);
      result := result[attrs[i].name := value.value];
      i := i + 1;
    }
    return Ok(result);
  }
}
