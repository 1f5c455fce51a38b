# pi88reader core in Dafny

This project models the reading and curve-processing core of pi88reader, a
reader for measurements taken with a Hysitron PI-88 nanoindenter and stored
as National Instruments TDM/TDX files. It covers:

- **TdmImporter** (`tdm_importer.dfy`): the TDM metadata resolver. The XML
  document is an abstract record tree. The module models:
  - extraction of the `id("...")` reference lists;
  - byte-order selection;
  - group and channel lookup by name and occurrence;
  - the chain channel → local column → typed sequence → external block, and
    the block geometry NumPy would map;
  - the channel dictionary with its duplicate-name set;
  - the instance-attribute dictionary.
- **Pi88Importer** (`pi88_importer.dfy`): the PI-88 measurement. It models:
  - segment classification (LOAD, UNLOAD, HOLD, UNKNOWN);
  - the segment-type list;
  - the counter loop of `get_segment_mask` and its time-window mask;
  - masking of the time, depth and load curves;
  - removal of NaN entries from the dynamic channels;
  - the area-function fields read from the settings.
- **NiAnalyser** (`ni_analyser.dfy`): the preprocessing of the unloading
  fit. It models:
  - the load-window subset filter;
  - the early exits, start values and bounds of `fit_unloading`;
  - `bisect_right`;
  - the window arithmetic of the creep averaging.
- **PlotterStyles** and **Pi88MatplotlibTools**
  (`plotter_styles.dfy`, `pi88_matplotlib_tools.dfy`): the style objects.
  Their cyclic indices advance modulo the length of their maps and are
  checked by assertions.
- **UtilsPi88Measurements** (`utils_pi88measurements.dfy`): summaries over a
  list of measurements:
  - the set of one setting's values and their comma-separated summary;
  - the date interval;
  - the aborted measurements.
- **Common** (`common.dfy`): the Python semantics the other modules share:
  - exceptions as a `Result`;
  - floats with NaN, with comparisons that are false on NaN;
  - negative indexing and clamped slicing;
  - the built-in `max`, `str.strip`, `int()` and `str()` on integers;
  - boolean-mask selection.

Python exceptions become `Err(...)` values named after the exception class.
Functions that update an object's attributes are methods of classes with
`modifies` clauses:
- the segment-type list;
- the area-function fields;
- the NaN removal;
- the style indices.

Loops that accumulate a list, a set, a dictionary or a string are `while`
loops. Each is proved against a function of its inputs.

Python's set iteration order is unspecified. `get_summary_by_set` is
therefore modelled with an iteration order chosen freely and returned as a
ghost value. Its result is specified for every such order.

## Model

| member | source | states |
|---|---|---|
| TdmImporter.First | pi88reader/tdm_importer.py:50 | `find` yields None iff no record matches. Otherwise it yields the first matching record in document order. |
| TdmImporter.FindAllIds | pi88reader/tdm_importer.py:47 | Every captured id is non-empty and contains no newline. Each match consumes at least seven characters. |
| TdmImporter.GetUsiFromString | pi88reader/tdm_importer.py:43-47 | None, the empty string and an all-whitespace string give []. Every id returned is non-empty. |
| TdmImporter.BlankHasNoIds | pi88reader/tdm_importer.py:43-47 | The regex finds nothing in a blank string, so the early return agrees with the regex. |
| TdmImporter.CaptureFinds | pi88reader/tdm_importer.py:47 | The lazy group `(.+?)` stops at the first `")` that is not preceded by a newline. |
| TdmImporter.TokenIsMatched | pi88reader/tdm_importer.py:47 | A well-formed token `id("x")` at the front is matched whole, capturing x. The scan then continues after it. |
| TdmImporter.BlankPrefixSkipped | pi88reader/tdm_importer.py:47 | Whitespace before a token contributes no match. |
| TdmImporter.FindAllIdsOfJoin | pi88reader/tdm_importer.py:47 | The regex returns exactly [x1..xk], in order, for tokens id("x1")..id("xk") joined by whitespace. |
| TdmImporter.GetUsiRoundTrip | pi88reader/tdm_importer.py:43-47 | get_usi_from_string inverts the writing of a reference list: it returns exactly the ids written, in order. |
| TdmImporter.Load | pi88reader/tdm_importer.py:35-40 | XmlTdmData.__init__ fails (AttributeError) iff there is no tdm_root. It keeps one group slot per id of `channelgroups`, and each found group carries that id. |
| TdmImporter.GetEndianFormat | pi88reader/tdm_importer.py:52-63 | "littleEndian" gives '<' and "bigEndian" gives '>', both ways round. A missing `file` element raises AttributeError; any other byteOrder raises TypeError. |
| TdmImporter.FilterNamed | pi88reader/tdm_importer.py:78-91 | Filtering by name fails (AttributeError) iff some slot is a dangling None. Otherwise every kept record carries the name. |
| TdmImporter.FilterNamedNth | pi88reader/tdm_importer.py:78-91 | The i-th record is found at position "number of equally named records before i" of the filtered list. |
| TdmImporter.FilterNamedCount | pi88reader/tdm_importer.py:78-91 | The filtered list holds exactly the records that carry the name. |
| TdmImporter.ChannelsById | pi88reader/tdm_importer.py:95-98 | One slot per referenced id; a found channel carries that id and comes from the document. |
| TdmImporter.Channels | pi88reader/tdm_importer.py:83-99 | channels(g, k) with k >= 0 succeeds iff more than k groups are named g (the `<=` test). |
| TdmImporter.ChannelsOfNthGroup | pi88reader/tdm_importer.py:90-99 | The k-th group named g yields the channels its own `channels` reference list names, in that order. |
| TdmImporter.Channel | pi88reader/tdm_importer.py:68-81 | channel(g, name, k, c) with c >= 0 succeeds iff more than c channels of the group are called `name`. The `<` test plus the indexing reject c == count. The result carries the name, and errors of `channels` pass through. |
| TdmImporter.ChannelIsNthNamed | pi88reader/tdm_importer.py:77-81 | The c-th channel called `name` in stored order is the one returned for ch_occurrence c. |
| TdmImporter.Split | pi88reader/tdm_importer.py:103 | `str.split('_')` yields at least one field, and no field contains the separator. |
| TdmImporter.SplitAfterField | pi88reader/tdm_importer.py:103 | Splitting `p + '_' + rest` gives p followed by the fields of rest. |
| TdmImporter.SplitNoSeparator | pi88reader/tdm_importer.py:103 | A string without the separator splits into itself alone. |
| TdmImporter.Lower | pi88reader/tdm_importer.py:103 | `lower()` keeps the length. |
| TdmImporter.SequenceTag | pi88reader/tdm_importer.py:103 | The tag is defined iff the datatype is present and has a second `_` field. A missing datatype raises AttributeError. |
| TdmImporter.SequenceTagOfFields | pi88reader/tdm_importer.py:103 | For a datatype "p_q..." the tag is lower(q) + "_sequence". |
| TdmImporter.GetChannelInc | pi88reader/tdm_importer.py:101-107 | Errors of the channel lookup pass through. A channel with an empty local-column list raises IndexError at `[0]`. |
| TdmImporter.GetChannelIncFollowsFirstIds | pi88reader/tdm_importer.py:101-107 | The chain follows only the first local-column id and the first values id, and returns the `external` attribute of the matching typed sequence. |
| TdmImporter.PathSplit | pi88reader/tdm_importer.py:118 | The tail produced by os.path.split contains no '/'. |
| TdmImporter.LastSlashEnd | pi88reader/tdm_importer.py:118 | The split point follows the last '/'. |
| TdmImporter.OpenTdm | pi88reader/tdm_importer.py:113-121 | TdmData.__init__ succeeds iff the document has a tdm_root and a `file` with a url. A missing url raises TypeError in os.path.join. |
| TdmImporter.TdxBesideTdm | pi88reader/tdm_importer.py:118-121 | For "dir/name.tdm" and a relative url u, the blob path is "dir/u" and the file name is "name.tdm". |
| TdmImporter.GetChannelData | pi88reader/tdm_importer.py:142-164 | Any failure of get_channel_inc becomes ValueError. A result uses a dtype code from DTYPE_CONVERTERS and the document's byte order. |
| TdmImporter.GetChannelDataGeometry | pi88reader/tdm_importer.py:153-164 | The mapped view starts at byteOffset, holds `length` elements, and has the byte order plus DTYPE_CONVERTERS[valueType] as its dtype. |
| TdmImporter.LittleEndianFloat64 | pi88reader/tdm_importer.py:158-164 | A little-endian eFloat64Usi block maps as dtype '<f8'. |
| TdmImporter.GroupNames | pi88reader/tdm_importer.py:128-129 | One name per group whose name has text, so the count is exactly the number of such groups. Groups without a name text are skipped. |
| TdmImporter.GroupNamesSound | pi88reader/tdm_importer.py:128-129 | Every listed name is non-empty and is the name of some group. |
| TdmImporter.GroupNamesNth | pi88reader/tdm_importer.py:128-129 | A group with a name text appears in the list, at the position given by the number of named groups before it, so the list keeps document order. |
| TdmImporter.GetChannelGroupNames | pi88reader/tdm_importer.py:123-130 | Exactly one entry per group of the document with a non-empty name, in document order. The group at index i sits at the position given by the named groups before it. Every entry is the name of some group. |
| TdmImporter.ChannelNames | pi88reader/tdm_importer.py:139-140 | Names are collected iff no channel slot is dangling. A dangling slot raises AttributeError. There is exactly one name per channel that has a name. |
| TdmImporter.ChannelNamesSound | pi88reader/tdm_importer.py:139-140 | Every listed name is the name of some channel. |
| TdmImporter.ChannelNamesNth | pi88reader/tdm_importer.py:139-140 | A named channel appears in the list, at the position given by the number of named channels before it, so the list keeps channel order. |
| TdmImporter.GetChannelNames | pi88reader/tdm_importer.py:132-140 | The names are those of the channels of occurrence 0 of the group (so ChannelNamesNth and ChannelNamesSound apply to them). Errors of `channels` pass through. |
| TdmImporter.GetChannelUnit | pi88reader/tdm_importer.py:186-196 | Succeeds iff the channel lookup does, and returns that channel's unit_string. |
| TdmImporter.ChannelDescription | pi88reader/tdm_importer.py:198-208 | Succeeds iff the channel lookup does, and returns that channel's description. |
| TdmImporter.ChannelDict | pi88reader/tdm_importer.py:166-184 | The keys are exactly the channel names. Each entry is the data of occurrence 0 of its name. The doublets are exactly the names listed twice. The error is that of the first failing read, all reads before it succeeding. `occurrence` is unused. |
| TdmImporter.FillTable | pi88reader/tdm_importer.py:173-181 | The loop succeeds iff every read does, and otherwise fails with the first failing read. Its keys, entries and doublet set are as for channel_dict. |
| TdmImporter.RepeatedExtend | pi88reader/tdm_importer.py:177-178 | A name becomes a doublet exactly when it is seen again. |
| TdmImporter.ConvertAttribute | pi88reader/tdm_importer.py:219-229 | string → text of `<s>`; double → its literal; long → int(text); any other tag → raw text. A missing `<s>` or text raises, and so does an int() that fails. |
| TdmImporter.LongAttributeRoundTrip | pi88reader/tdm_importer.py:225-226 | A long attribute written as str(n) reads back as n. |
| TdmImporter.GetInstanceAttributesDict | pi88reader/tdm_importer.py:210-230 | The result is the fold InstanceAttributes. The keys are exactly the attribute names. The value of a name is the conversion of its last attribute (a later one overwrites). The error is that of the first failing conversion, and no instance_attributes raises TypeError. |
| Common.ParseIntRoundTrip | pi88reader/tdm_importer.py:226 | `int(str(n)) == n` for every integer n. |
| Common.StripKeepsTrimmed | pi88reader/tdm_importer.py:44 | `strip()` leaves a string without outer whitespace unchanged. |
| Common.Strip | pi88reader/tdm_importer.py:44 | The stripped text is empty iff the string is blank. Otherwise it neither starts nor ends with whitespace. |
| Common.PyMaxIsMaximum | pi88reader/ni_analyser.py:40 | Without NaN, `max` returns an element of the sequence that no element exceeds. |
| Common.PyIndex | pi88reader/pi88_importer.py:130-134 | `s[i]` succeeds iff -len <= i < len, and is s[i] for a non-negative i. Otherwise it raises IndexError. |
| Common.PySlice | pi88reader/ni_analyser.py:117-126 | An in-range slice is the Dafny subsequence, and no slice is longer than the sequence. |
| Common.Select | pi88reader/pi88_importer.py:297 | Boolean-mask selection keeps one entry per true flag. |
| Common.SelectIsSubsequence | pi88reader/pi88_importer.py:297 | Masking deletes entries and keeps the order of the rest. |
| Common.SelectAppend | pi88reader/utils_pi88measurements.py:62-64 | One more item with its flag appends the item iff the flag is set: the step of an order-preserving filter loop. |
| Pi88Importer.SegmentTypeOf | pi88reader/pi88_importer.py:130-136 | LOAD iff begin < end; UNLOAD iff begin > end; HOLD iff begin == end > 0. |
| Pi88Importer.UnknownSegments | pi88reader/pi88_importer.py:136 | A NaN demand, or equal demands <= 0, give UNKNOWN. |
| Pi88Importer.Labels | pi88reader/pi88_importer.py:121-123 | m labels, the i-th being the classification of segment i. |
| Pi88Importer.Subscript | pi88reader/pi88_importer.py:130 | Indexing an unread (None) channel raises TypeError. Otherwise it is Python indexing. |
| Pi88Importer.LabelCount | pi88reader/pi88_importer.py:122-123 | The loop can label at most len(time) segments, and no more than both demand arrays hold. |
| Pi88Importer.LabelError | pi88reader/pi88_importer.py:121-136 | calc_segment_types raises nothing iff `time` is present and every index of it can be labelled. This always holds when both demand arrays cover `time`. Otherwise the exception is TypeError or IndexError. |
| Pi88Importer.Segments.constructor | pi88reader/pi88_importer.py:98-118 | The eight segment fields are the channels of group "Segments" under their TDM names. The label list is empty. |
| Pi88Importer.Segments.GetSegmentType | pi88reader/pi88_importer.py:125-136 | Succeeds iff both demands can be indexed, and then is the classification of those two values. |
| Pi88Importer.Segments.CalcSegmentTypes | pi88reader/pi88_importer.py:121-123 | Appends exactly one label per entry of `time`, in index order, to the existing list. It stops with the exception LabelError names, at the first entry that cannot be classified, keeping the labels already appended. |
| Pi88Importer.OpenSegments | pi88reader/pi88_importer.py:98-118 | Constructing PI88Segments fails iff labelling fails, with that exception. Otherwise the new segments hold the "Segments" channels, and every segment carries its label in order. |
| Pi88Importer.Mask | pi88reader/pi88_importer.py:156 | The mask has the array's length and is true exactly where begin <= t <= end. |
| Pi88Importer.Matches | pi88reader/pi88_importer.py:148-149 | The indices of matching segments lie below n. |
| Pi88Importer.MatchesExactly | pi88reader/pi88_importer.py:148-149 | The match list is increasing, holds only segments of the wanted type, and holds all of them. |
| Pi88Importer.MatchesPrefix | pi88reader/pi88_importer.py:148-152 | The matches among the first i segments are a prefix of the matches among the first n. |
| Pi88Importer.SelectedSegment | pi88reader/pi88_importer.py:147-154 | The segment the bounds come from lies below n. |
| Pi88Importer.ScanStep | pi88reader/pi88_importer.py:148-154 | One loop iteration: take the bounds of a match, count it, and break when the counter equals the occurrence. |
| Pi88Importer.SelectedAtEnd | pi88reader/pi88_importer.py:147-154 | Without a break, the bounds are those of the last match. |
| Pi88Importer.SelectedAtKth | pi88reader/pi88_importer.py:150-154 | The match with k-1 matches before it provides the bounds for occurrence k. |
| Pi88Importer.SelectedAtBreak | pi88reader/pi88_importer.py:153-154 | With occurrence 0 and a first segment of another type, the loop breaks before binding anything. |
| Pi88Importer.CountAfterFirst | pi88reader/pi88_importer.py:149-152 | A matching first segment is counted. |
| Pi88Importer.ScanFrom | pi88reader/pi88_importer.py:147-154 | The loop from any intermediate state ends with the selected bounds. |
| Pi88Importer.ScanSelects | pi88reader/pi88_importer.py:147-154 | The loop from counter 0 ends with the bounds of the selected segment. |
| Pi88Importer.MaskUsesKthMatch | pi88reader/pi88_importer.py:147-156 | When at least k >= 1 segments match, the mask uses the begin/end of the segment with exactly k-1 matching segments before it. |
| Pi88Importer.DistinctImageSize | pi88reader/pi88_importer.py:147-154 | An increasing list of k indices names k different segments. |
| Pi88Importer.MaskFallsBackToLastMatch | pi88reader/pi88_importer.py:147-156 | With fewer than k matches, or k < 0, the last match supplies the bounds. With no match at all the call raises UnboundLocalError. |
| Pi88Importer.MaskOccurrenceZero | pi88reader/pi88_importer.py:147-156 | With occurrence 0 the loop breaks at index 0. That raises UnboundLocalError unless segment 0 matches, in which case the last match is used. |
| Pi88Importer.Segments.GetSegmentMask | pi88reader/pi88_importer.py:138-156 | The counter loop computes the bounds of the selected segment and returns the mask over the array, of the array's length. |
| Pi88Importer.AreaFunction.constructor | pi88reader/pi88_importer.py:48-53 | A new area function has read the settings. |
| Pi88Importer.AreaFunction.Read | pi88reader/pi88_importer.py:55-65 | Each of the eight fields is settings[key] when the key is present and None otherwise. |
| Pi88Importer.WithoutNaN | pi88reader/pi88_importer.py:268-271 | The result holds no NaN and is no longer than the input. |
| Pi88Importer.WithoutNaNIsSubsequence | pi88reader/pi88_importer.py:270-271 | Removing NaNs keeps the order of the remaining entries. |
| Pi88Importer.WithoutNaNKeepsNumbers | pi88reader/pi88_importer.py:270-271 | Exactly the non-NaN entries are kept, each as often as it occurs. |
| Pi88Importer.WithoutNaNOfNumbers | pi88reader/pi88_importer.py:270-271 | An array without NaN is unchanged. |
| Pi88Importer.WithoutNaNIdempotent | pi88reader/pi88_importer.py:260-271 | Removing NaNs twice equals removing them once. |
| Pi88Importer.AttributeNamesStep | pi88reader/pi88_importer.py:241-242 | Each name tuple adds its attribute name to the set of cleaned attributes. |
| Pi88Importer.StaticAndDynamicDisjoint | pi88reader/pi88_importer.py:182-219 | No quasi-static attribute is a dynamic one. |
| Pi88Importer.ReadGroupKeys | pi88reader/pi88_importer.py:244-258 | A channel group sets only the attributes of its own name tuples. |
| Pi88Importer.ReadGroupLookup | pi88reader/pi88_importer.py:244-258 | A name tuple's attribute holds the lookup of its channel in its group. |
| Pi88Importer.Stripped | pi88reader/pi88_importer.py:241-242 | Cleaning attributes keeps the same attribute keys. |
| Pi88Importer.StripOneMore | pi88reader/pi88_importer.py:260-271 | Cleaning one more attribute replaces a present array by its NaN-free version and leaves an absent one absent. |
| Pi88Importer.OnlyDynamicStripped | pi88reader/pi88_importer.py:241-242 | Quasi-static attributes are never cleaned. Every dynamic attribute present is NaN-free afterwards. |
| Pi88Importer.Header | pi88reader/pi88_importer.py:280-282 | The header has three entries. |
| Pi88Importer.ApplyMask | pi88reader/pi88_importer.py:297 | `a[mask]` raises TypeError on None and IndexError on a length mismatch. Otherwise it is the masked selection. |
| Pi88Importer.SelectWithin | pi88reader/pi88_importer.py:293-297 | Every entry selected by the time-window mask lies in the window. |
| Pi88Importer.Measurement.constructor | pi88reader/pi88_importer.py:221-242 | The measurement keeps its file name, segments and settings. Its area function has read the settings. Its channels are the ones it is given, with the NaN entries removed from every dynamic channel. |
| Pi88Importer.Measurement.RemoveNaNs | pi88reader/pi88_importer.py:241-242 | The loop over the name tuples cleans exactly the attributes they name. |
| Pi88Importer.Measurement.RemoveNaN | pi88reader/pi88_importer.py:260-271 | A present attribute is replaced by its NaN-free version. A None attribute is left untouched, and nothing else changes. |
| Pi88Importer.Measurement.GetQuasiStaticCurve | pi88reader/pi88_importer.py:273-283 | The header from the stored units, then the time, depth and load arrays as stored. |
| Pi88Importer.Measurement.GetSegmentCurve | pi88reader/pi88_importer.py:285-297 | One mask, computed on time, is applied to time, depth and load. The outputs have equal length, and time is a subsequence of the stored time lying within the segment's bounds. Errors of the mask or the indexing pass through. |
| Pi88Importer.OpenMeasurement | pi88reader/pi88_importer.py:221-242 | The first failure raises, in the order of __init__: opening the document (tdm.TdmData(filename), as OpenTdm), labelling the segments, then building the settings dictionary. Otherwise the measurement is created. Its segments are the "Segments" channels, each labelled in order. Its settings are the instance-attribute dictionary of the opened document, and its area function has read them. Its channels are those read from the quasi-static group and the three dynamic groups, with NaN entries removed from the dynamic ones. |
| NiAnalyser.Zip | pi88reader/ni_analyser.py:42 | zip pairs the i-th entries up to the shorter length. |
| NiAnalyser.Keep | pi88reader/ni_analyser.py:42-45 | Filtering keeps at most the pairs given. |
| NiAnalyser.KeepAppend | pi88reader/ni_analyser.py:42-45 | One more pair is appended iff its y lies in the window. |
| NiAnalyser.KeepIsFilter | pi88reader/ni_analyser.py:42-45 | The kept pairs are an order-preserving subsequence of the zipped pairs, and a pair is kept iff lower·max(y) <= y <= upper·max(y). |
| NiAnalyser.Unzip | pi88reader/ni_analyser.py:44-45 | The x and y lists have equal length and pair up to the kept pairs. |
| NiAnalyser.SubsetByY | pi88reader/ni_analyser.py:37-47 | The only failure is `max` of an empty y (ValueError). |
| NiAnalyser.GetSubsetByY | pi88reader/ni_analyser.py:37-47 | The loop computes the filtered subset, with x and y of equal length, no longer than either input. |
| NiAnalyser.InvertedLimitsKeepNothing | pi88reader/ni_analyser.py:40-43 | With upper < lower and a positive maximum, nothing is kept. |
| NiAnalyser.StartValues | pi88reader/ni_analyser.py:64-68 | The start values are [0.1, 0.9·h_max, 1.8]. |
| NiAnalyser.UnloadingBounds | pi88reader/ni_analyser.py:70-72 | Three lower and three upper bounds, with upper bound h_max for hf. |
| NiAnalyser.StartValuesFeasible | pi88reader/ni_analyser.py:60-72 | For 0 <= h_max <= 1e6 every start value lies within its bounds. For a negative h_max the hf bounds are inverted. |
| NiAnalyser.FitUnloading | pi88reader/ni_analyser.py:50-77 | Empty displacement gives {"S": 0} without fitting, and so does an empty subset. An empty load raises ValueError from `max`. Otherwise the fit of the subset with the start values and bounds is used, with S = calc_S(fit, h_max). |
| NiAnalyser.BisectFrom | pi88reader/ni_analyser.py:98 | The binary search returns a position between lo and hi. |
| NiAnalyser.BisectSplits | pi88reader/ni_analyser.py:98 | On a sorted, NaN-free sequence the position splits it into entries <= x and entries > x. |
| NiAnalyser.CountAtMost | pi88reader/ni_analyser.py:98 | The number of entries <= x is at most the length. |
| NiAnalyser.SplitIsCount | pi88reader/ni_analyser.py:98 | A split point is the number of entries <= x. |
| NiAnalyser.BisectRight | pi88reader/ni_analyser.py:97-98 | The loop computes bisect_right. On sorted time without NaN, min_index is the number of entries <= 50. |
| NiAnalyser.WindowStartIs | pi88reader/ni_analyser.py:115-123 | Window k starts at min_index + k·n. The seed window (k = -1) starts at min_index - n. |
| NiAnalyser.WindowsInside | pi88reader/ni_analyser.py:101-123 | With n = (len - min_index) div 10, all ten windows lie inside the data. |
| NiAnalyser.SeedWindow | pi88reader/ni_analyser.py:115-119 | The seed slice is the n entries before min_index. When min_index < n its negative start makes the slice empty. |
| NiAnalyser.WindowOfSlices | pi88reader/ni_analyser.py:117-126 | Window k averages the slices [min_index + k·n, min_index + (k+1)·n). |
| NiAnalyser.AverageWindows | pi88reader/ni_analyser.py:115-139 | The loop yields ten creep rates and ten stresses. Entry k is computed from windows k-1 and k. |
| NiAnalyser.GetAvgStrainRateAndSigma | pi88reader/ni_analyser.py:87-139 | Both result lists have exactly `parts` = 10 entries. Entry k uses min_index = bisect(time, 50), n = (len(time) - min_index) div 10, and windows k-1 and k. |
| PlotterStyles.NextIndex | pi88reader/plotter_styles.py:79-86 | (i + 1) mod len lies in [0, len). It counts up below len-1 and wraps to 0 at len-1. An empty map raises ZeroDivisionError. |
| PlotterStyles.CycleCountsUp | pi88reader/plotter_styles.py:79-86 | From index 0, the first len-1 steps reach 1, 2, … in turn. |
| PlotterStyles.CycleIsPeriodic | pi88reader/plotter_styles.py:79-86 | After len steps the index repeats. |
| PlotterStyles.CycleStaysInRange | pi88reader/plotter_styles.py:55-86 | From an in-range index, any number of steps stays in range, so the assertions never fire. |
| PlotterStyles.GraphStyler.constructor | pi88reader/plotter_styles.py:44-53 | Marker map ["."], linestyle map [""], size 4 and edge width 0. All three indices are 0, and the styler is valid iff the colour map is non-empty. |
| PlotterStyles.GraphStyler.ColorEntry | pi88reader/plotter_styles.py:55-58 | {"color": cmap[i]} iff the colour index is in range; AssertionError otherwise. |
| PlotterStyles.GraphStyler.MarkerEntry | pi88reader/plotter_styles.py:60-64 | The assertion checks the colour index. The marker is marker_map[i mod len] for every marker index, so an out-of-range index still yields a marker of the map. The entry carries the configured edge width and size. |
| PlotterStyles.GraphStyler.LinestyleEntry | pi88reader/plotter_styles.py:66-70 | {"linestyle": map[i]} iff the linestyle index is in range; AssertionError otherwise. |
| PlotterStyles.GraphStyler.Dict | pi88reader/plotter_styles.py:72-77 | The merge of the colour, marker and linestyle entries, with five keys. It succeeds iff all three succeed. The first failing entry, in the order colour, marker, linestyle, gives the error. |
| PlotterStyles.GraphStyler.ValidDict | pi88reader/plotter_styles.py:72-77 | A valid styler's dict never raises. |
| PlotterStyles.GraphStyler.NextColor | pi88reader/plotter_styles.py:79-80 | The colour index becomes (old + 1) mod len(cmap), and nothing else changes. |
| PlotterStyles.GraphStyler.NextMarker | pi88reader/plotter_styles.py:82-83 | The marker index becomes (old + 1) mod len(marker_map), and nothing else changes. |
| PlotterStyles.GraphStyler.NextLinestyle | pi88reader/plotter_styles.py:85-86 | The linestyle index becomes (old + 1) mod len(linestyle_map), and nothing else changes. |
| PlotterStyles.GraphStyler.NextStyle | pi88reader/plotter_styles.py:79-91 | Each index advances by one step modulo its map. An empty map raises ZeroDivisionError, leaving that index and the ones after it unchanged. A valid styler stays valid. |
| PlotterStyles.PlotterStyle.constructor | pi88reader/plotter_styles.py:9-14 | Stores dpi and figure size, with no graph styler. |
| PlotterStyles.DefaultPlotterStyle | pi88reader/plotter_styles.py:17-19 | dpi 150 and figure size (5.6, 5.0). |
| PlotterStyles.Bernhard4PlotterStyle | pi88reader/plotter_styles.py:22-36 | No dpi or size. A valid styler with four colours (black, red, blue, green), the markers o s < > and one empty linestyle, all indices 0. |
| Pi88MatplotlibTools.PlotStyle.constructor | pi88reader/pi88_matplotlib_tools.py:8-14 | Line style "", the marker map ["x", "+", "1"] and both indices 0. The style is valid iff the colour map is non-empty. |
| Pi88MatplotlibTools.PlotStyle.CurrentColor | pi88reader/pi88_matplotlib_tools.py:16-19 | cmap[i] iff the colour index is in range; AssertionError otherwise. |
| Pi88MatplotlibTools.PlotStyle.MarkerEntry | pi88reader/pi88_matplotlib_tools.py:21-25 | The assertion checks the colour index. The marker is marker_map[i mod len] for every marker index, with edge width 1 and size 6. |
| Pi88MatplotlibTools.PlotStyle.MarkerChecksColorIndex | pi88reader/pi88_matplotlib_tools.py:23-24 | An out-of-range marker index does not make `marker` fail. |
| Pi88MatplotlibTools.PlotStyle.NextColor | pi88reader/pi88_matplotlib_tools.py:27-28 | The colour index becomes (old + 1) mod len(cmap), and the marker index is untouched. |
| Pi88MatplotlibTools.PlotStyle.NextMarker | pi88reader/pi88_matplotlib_tools.py:30-31 | The marker index becomes (old + 1) mod len(marker_map), and the colour index is untouched. |
| Pi88MatplotlibTools.PlotStyle.NextStyle | pi88reader/pi88_matplotlib_tools.py:27-35 | Both indices advance by one step modulo their map. An empty map raises ZeroDivisionError, leaving that index and the one after it unchanged. A valid style stays valid. |
| UtilsPi88Measurements.ToPy | pi88reader/utils_pi88measurements.py:15 | A setting value is a Python str exactly when it is a present string or raw text. |
| UtilsPi88Measurements.SettingsOf | pi88reader/utils_pi88measurements.py:14-15 | One settings dictionary per measurement, in order. |
| UtilsPi88Measurements.ValuesOf | pi88reader/utils_pi88measurements.py:15 | `m.settings.dict[name]` for every measurement, in order. |
| UtilsPi88Measurements.ElementsBound | pi88reader/utils_pi88measurements.py:12-16 | A set collected from n values has at most n elements. |
| UtilsPi88Measurements.GetSetBySettingName | pi88reader/utils_pi88measurements.py:12-16 | The set of the setting's values over all measurements, with at most one element per measurement. A measurement without the key raises KeyError (iff). |
| UtilsPi88Measurements.SummaryIsJoin | pi88reader/utils_pi88measurements.py:18-24 | For non-empty texts the summary is the ", "-join: every text once, with a separator between neighbours. |
| UtilsPi88Measurements.SummarySkipsLeadingEmpty | pi88reader/utils_pi88measurements.py:21-23 | An empty first text adds no separator: ["", x] gives x. |
| UtilsPi88Measurements.Texts | pi88reader/utils_pi88measurements.py:20-23 | The texts of the values, in order. |
| UtilsPi88Measurements.SummaryStep | pi88reader/utils_pi88measurements.py:20-23 | One iteration: ", " is added only when the text so far is non-empty, then the text is appended. |
| UtilsPi88Measurements.GetSummaryBySet | pi88reader/utils_pi88measurements.py:18-24 | The summary of the elements in an iteration order that lists each element once. A non-string element raises TypeError, and the empty set gives "". |
| UtilsPi88Measurements.GetTransducerSerialsString | pi88reader/utils_pi88measurements.py:29-31 | The summary of the set of Acquisition_Transducer_Serial values. A missing key raises KeyError. |
| UtilsPi88Measurements.GetTriboScanVersionsString | pi88reader/utils_pi88measurements.py:36-38 | The summary of the set of Acquisition_TriboScan_Version values. A missing key raises KeyError. |
| UtilsPi88Measurements.ZeroPadded | pi88reader/utils_pi88measurements.py:53-55 | Zero padding gives at least `width` digits with the number's value. |
| UtilsPi88Measurements.PadDigits | pi88reader/utils_pi88measurements.py:53-55 | Padding keeps the digits' value. |
| UtilsPi88Measurements.LeadingZero | pi88reader/utils_pi88measurements.py:53-55 | A leading zero does not change a digit string's value. |
| UtilsPi88Measurements.DateAntisymmetric | pi88reader/utils_pi88measurements.py:53-55 | Two dates each no later than the other are equal. |
| UtilsPi88Measurements.MinDate | pi88reader/utils_pi88measurements.py:53-55 | `min` of a non-empty set is an element no later than any other. |
| UtilsPi88Measurements.MaxDate | pi88reader/utils_pi88measurements.py:55 | `max` of a non-empty set is an element no earlier than any other. |
| UtilsPi88Measurements.ExtremeExists | pi88reader/utils_pi88measurements.py:53-55 | Every non-empty set of dates has an earliest and a latest element. |
| UtilsPi88Measurements.DatesOfValues | pi88reader/utils_pi88measurements.py:43-47 | Collecting the converted dates gives the set of conversions of the values. |
| UtilsPi88Measurements.GetMeasurementDates | pi88reader/utils_pi88measurements.py:43-47 | The set of `.date()` of every timestamp, with at most one element per measurement. It fails iff some timestamp is missing or does not convert, and then with the exception of the first such measurement (KeyError or that of `.date()`). |
| UtilsPi88Measurements.IntervalString | pi88reader/utils_pi88measurements.py:50-56 | "" for no dates, str(d) for one date, and "min ... max" for several. |
| UtilsPi88Measurements.SingleDate | pi88reader/utils_pi88measurements.py:52-53 | A single date is printed alone. |
| UtilsPi88Measurements.TwoDates | pi88reader/utils_pi88measurements.py:54-55 | Two different dates are printed earliest first. |
| UtilsPi88Measurements.GetDateIntervallString | pi88reader/utils_pi88measurements.py:50-56 | The interval string of the measurements' dates. It fails iff some timestamp is missing or does not convert, with the exception of the first such measurement. No measurements give "". |
| UtilsPi88Measurements.AbortedFlags | pi88reader/utils_pi88measurements.py:62 | One flag per measurement: the truthiness of its Acquisition_Test_Aborted value. |
| UtilsPi88Measurements.GetAbortedMeasurements | pi88reader/utils_pi88measurements.py:59-65 | Exactly the measurements whose Acquisition_Test_Aborted value is truthy, in input order. A missing key raises KeyError (iff). |

## Left out

- XML parsing (ElementTree) and the reading of the binary blob with
  `np.memmap`. The document is an abstract record tree, and
  `get_channel_data` returns the block geometry (offset, length, dtype) that
  would be mapped, not the decoded values.
- Character sets: strings are sequences of characters. `lower()` is
  modelled on ASCII only. `isspace()` (used by `strip()` and `int()`)
  covers Python's whole whitespace set.
- Common.ParseInt: `int()` also accepts underscores between digits
  (`1_000`) and non-ASCII decimal digits. The model rejects both with
  ValueError. IntToString never produces either, so the round trip is
  unaffected.
- TdmImporter.PathSplit and TdmImporter.PathJoin model POSIX `os.path`:
  the separator is '/'. The Windows flavour (backslash separators, drive
  letters such as `C:`) is not modelled.
- TdmImporter.ConvertAttribute: a double attribute keeps its literal, and
  `float()` is not applied. A literal float() would reject (ValueError) is
  therefore accepted.
- `read_from_channel_group`, which fills the segment and measurement
  arrays, is not part of this model. It is a lookup parameter that yields
  an optional array per (group, channel). Later name tuples win over earlier
  ones with the same attribute name.
- `PI88AreaFunction.get_area`, `calc_S`, the SciPy `curve_fit` call, and the
  `np.mean`, creep-rate and stress arithmetic are floating-point numerics.
  They are function parameters. `Float` has real numbers and NaN but no
  infinities.
- NiAnalyser.FitUnloading: `upper` and `lower` are reals, and the window
  bounds are their products with max(load). NaN in the loads follows the
  IEEE comparisons, and so does `max`, which keeps its order-dependent NaN
  behaviour.
- NiAnalyser.GetAvgStrainRateAndSigma: the `delta_*`, `avg_*` and
  `area_avg` lists are not returned by the source. Only the two returned
  lists are modelled, via the mean, creep-rate and stress parameters.
- `np.isnan` is the `NaN?` test on `Float`.
- The colour maps (`plt.cm.viridis(np.linspace(0, 1, n_colors))`) are a
  constructor parameter. Bernhard4PlotterStyle takes it and replaces it by
  the four fixed colours, as the source does.
- UtilsPi88Measurements.GetSetBySettingName: a double setting is kept as
  its literal (see TdmImporter.ConvertAttribute), so set membership compares
  doubles by text. Python compares the float values: "1.0" and "1.00", or
  the long 1 and the double "1.0", are one element there and two here. Each
  NaN is a distinct element in Python, while equal NaN literals are one
  element here.
- Pi88Importer.OpenMeasurement: the time, depth and load units are taken
  from the reader (MeasurementSource). __init__ sets them to None, and
  whether read_from_channel_group sets them is not part of this model.
- UtilsPi88Measurements.GetMeasurementDates: `.date()` is a parameter.
  The settings values this reader produces (str, float, int) have no such
  method, so the conversion a caller supplies decides the dates.
- UtilsPi88Measurements.GetAbortedMeasurements: whether a float value is
  zero is a parameter, because float() is not modelled. The `print` of each
  aborted value is output only and is not modelled.
- `get_measurement_types` has an empty body (`pass`) and is not modelled.
- `warnings.warn` in `channel_dict` is output only. The doublet set it
  reports is returned instead.
- Python's set iteration order is not determined. get_summary_by_set is
  specified for every order that lists each element once.
