# Benchmark log readers, modelled in Dafny

This project models the data side of a storage benchmark's evaluation
scripts, together with proofs about that model.

- **`data_parse.py`** reads a benchmark's timing and statistics logs.
  - `parse` scans the log line by line. A summary line yields a row of
    nine fields: epoch, time, ops, read amplification, write
    amplification, then four pending statistics slots.
  - A statistics line that passes the `10:…20:…95:` pre-filter fills
    either the read slots or the write slots.
  - `Data` keeps the steady-state rows, those with `100 <= epoch < 200`.
    It derives per-row latency from the cumulative timer and takes the
    statistics columns from the second table.
- **`e2e.py`** reads the end-to-end metrics log.
  - `metrics_loader` groups consecutive lines that share a leading
    timestamp into records.
  - `Pattern.extract` reads one counter out of a record.
  - `load` builds a table of ten columns from the records.
  - `Data` windows that table from ten seconds after the debug mark,
    rebaselines every column, rescales the timestamps, and offers `rate`
    and `mean`.
- **`plot.py`** contributes only its bookkeeping:
  - the tick search `list_ceil`;
  - the `None` cleaning `remove_none`;
  - the two plot accumulators;
  - the label checks `BarPlot.draw` makes before drawing.

Files:

| file | module | contents |
|---|---|---|
| `Common.dfy` | `Common` | `Option` and `Result`, decimal digits, simple scanners (`RunEnd`, `Head`, `LitAt`), `Join`, and `Steps`/`Sum` on columns |
| `DataParse.dfy` | `DataParse` | `to_float`, the two line patterns, the parser as both a fold (`Run`) and a loop (`Parse`), `path`, the `Data` view and `load` |
| `E2E.dfy` | `E2E` | the loader as a fold (`ScanRun`) and a loop (`MetricsLoader`), `Pattern.extract`, the table, the window, and class `Data` over a 2-D array |
| `Plot.dfy` | `Plot` | `list_ceil`, `remove_none` (as written and corrected), and classes `LinePlot` and `BarPlot` |

Modelling choices:

- The regular expressions are not run by a regex engine. Each pattern is
  a recogniser written for its own shape.
  - Every element of the source's patterns stops at a newline. Each
    recogniser therefore reads `Head(line)`, the text before the first
    `\n`.
  - A greedy character-class run followed by a literal is handled by a
    longest-run split. For an anchored literal that split is unique
    (`SplitUnique`), and every literal of the summary pattern is anchored
    (`SummaryPiecesAnchored`). The statistics and metric patterns are
    recognised with `RunEnd`, `LastTrue` and `LastValue` instead.
- Generators are modelled in two ways:
  - as a left fold over the lines, giving the rows yielded before the
    generator stopped and the error that stopped it, if any;
  - as an imperative loop with the branches of the source, proved equal
    to that fold.
- Numbers are exact. `int` is unbounded, and Python and numpy floats
  become `real`.

## Model

| member | source | states |
|---|---|---|
| DataParse.Strip | data_parse.py:13 | no comma or space survives, and the result is never longer than the input |
| DataParse.StripConcat | data_parse.py:13 | deleting separators distributes over concatenation |
| DataParse.StripClean | data_parse.py:13 | text without separators is left unchanged |
| DataParse.StripDropsSeparator | data_parse.py:13 | deleting one comma or space anywhere does not change the stripped text |
| DataParse.UnsignedDecimalAccepts | data_parse.py:13 | the decimal reader succeeds exactly on digits with at most one dot that are not a lone dot |
| DataParse.ToFloatAccepts | data_parse.py:12-13 | to_float succeeds iff the stripped text, less one optional leading sign, is an unsigned decimal; any other residue fails |
| DataParse.ToFloatIgnoresSeparator | data_parse.py:12-13 | inserting a comma or space anywhere does not change to_float's result |
| DataParse.ToFloatNat | data_parse.py:12-13 | to_float of a rendered natural number gives that number |
| DataParse.ToFloatExample | data_parse.py:12-13 | `" 1,234 "` converts to 1234 |
| DataParse.ParseFloat | data_parse.py:13 | Python's `float` on stripped text: an optional sign, then an unsigned decimal; its meaning is stated by `ToFloatAccepts` |
| DataParse.ToFloat | data_parse.py:12-13 | to_float, with `None` for the ValueError; stated by `ToFloatAccepts`, `ToFloatIgnoresSeparator`, `ToFloatNat` and `ToFloatExample` |
| DataParse.Backtrack | data_parse.py:9 | a backtracking split point is the latest literal occurrence at least `min` past the start, and none exists when it fails |
| DataParse.Split | data_parse.py:9 | a class run of at least `min` characters, the literal, then the rest, which put back together give the input |
| DataParse.SplitUnique | data_parse.py:9 | when the literal is anchored against the class, any valid run followed by the literal is the split found |
| DataParse.MatchPiecesFits | data_parse.py:9 | the groups of a summary-pattern match have each piece's length and class |
| DataParse.MatchPiecesPrefix | data_parse.py:9 | the groups rendered with their literals are a prefix of the line |
| DataParse.MatchPiecesComplete | data_parse.py:9 | every fitting group sequence, rendered and followed by any tail, is matched back to exactly those groups |
| DataParse.SummaryPiecesAnchored | data_parse.py:9 | every literal of the summary pattern begins with a character outside the class before it |
| DataParse.MatchSummarySound | data_parse.py:9 | a matched summary line begins with the pattern's text, and its five captured fields fit their classes |
| DataParse.MatchSummaryComplete | data_parse.py:9 | any line built from fitting fields and an arbitrary tail is recognised, with exactly those five fields |
| DataParse.MatchSummary | data_parse.py:9 | `re.match` of the summary pattern, giving the five captured fields; sound and complete by `MatchSummarySound` and `MatchSummaryComplete` |
| DataParse.StatTail | data_parse.py:10 | a match after `> Cnt` has a non-empty digit count and an average that is digits, `none` or digits with `k`/`m` |
| DataParse.MatchStat | data_parse.py:10 | stat_pattern matches iff its tail matches from some position, and then the count is non-empty digits |
| DataParse.MatchStatLatest | data_parse.py:10 | the greedy leading `.*` takes the latest position from which the tail matches |
| DataParse.PrefilterMeaning | data_parse.py:23 | the pre-filter holds iff `10:`, `20:` and `95:` occur in that order without overlap |
| DataParse.PassesPrefilter | data_parse.py:23 | the pre-filter on `10:`, `20:` and `95:`; characterised by `PrefilterMeaning` |
| DataParse.SummaryRow | data_parse.py:20-21 | a row exists iff all five captured fields convert; its five numbers are to_float of those fields and its last four fields are the pending slots |
| DataParse.StatEffect | data_parse.py:24-35 | the read message sets rn to int(cnt) and rs to int(avg) and nothing else, the write message does the same for wn/ws; any other message changes nothing; `int(avg)` fails exactly on a non-digit average of those two messages |
| DataParse.LineEffectMeaning | data_parse.py:18-37 | the summary test comes first and a summary line yields or fails on a number; only summary lines yield, carrying the slots; an ignored line changes nothing; the mismatch error arises exactly on a pre-filtered line that stat_pattern rejects |
| DataParse.LineEffect | data_parse.py:18-37 | one pass of the loop body on a line; its cases are stated by `LineEffectMeaning`, and `ParseLine` computes it |
| DataParse.Run | data_parse.py:15-37 | the generator's state after a prefix of the lines; stated by `RowsFollowSummaries`, `LastStatWins`, `IgnoredLinesChangeNothing` and `ErrorIsFinal`, and `Parse` computes it |
| DataParse.ErrorIsFinal | data_parse.py:15-37 | once the generator has raised, no later line changes the outcome |
| DataParse.RunStep | data_parse.py:17-37 | while no error has occurred, each line applies its effect to the state |
| DataParse.ParseLine | data_parse.py:18-37 | the loop body's branches compute the line's effect |
| DataParse.Parse | data_parse.py:15-37 | the loop yields exactly the rows of the fold over the lines and stops with its error |
| DataParse.RowsFollowSummaries | data_parse.py:17-22 | row k holds the converted fields of the k-th summary line; rows never outnumber summary lines, and match them one for one without an error |
| DataParse.IgnoredLineChangesNothing | data_parse.py:23-37 | an ignored line leaves the whole state unchanged |
| DataParse.IgnoredLinesChangeNothing | data_parse.py:23-37 | appending any number of ignored lines leaves the outcome unchanged |
| DataParse.OnlyIgnoredLinesYieldNothing | data_parse.py:17-37 | a file of ignored lines yields no row and raises nothing |
| DataParse.ErrorPersists | data_parse.py:15-37 | if no error has occurred after a line, none had occurred before it |
| DataParse.SummaryResetsSlots | data_parse.py:16-22 | a summary line appends exactly one row carrying the pending slots, and then all four slots are None |
| DataParse.PendingStep | data_parse.py:24-35 | a non-summary line that does not fail updates the slots to those of the longer segment |
| DataParse.LastStatWins | data_parse.py:24-35 | after a summary, the slots after a run of non-summary lines are those of the last read and last write statistics line in it, and no row is added |
| DataParse.EmittedRowCarriesLastStats | data_parse.py:21-33 | the next row carries the statistics of the last matching lines since the previous summary |
| DataParse.NoStatsMeansUnset | data_parse.py:16-22 | with no statistics line since the last summary, all four statistics fields are None |
| DataParse.StatAndTimePathsDiffer | data_parse.py:40-49 | the statistics log and a timing log of the same run have different paths |
| DataParse.PathPrecedence | data_parse.py:40-49 | `stat` ignores the memory options, `low_mem` overrides `high_mem`, and a non-positive `high_mem` adds nothing |
| DataParse.HighMemPathsDiffer | data_parse.py:46-47 | different positive `high_mem` sizes give different paths |
| DataParse.Path | data_parse.py:40-49 | the log path for the options; stated by `StatAndTimePathsDiffer`, `PathPrecedence` and `HighMemPathsDiffer` |
| DataParse.Keep | data_parse.py:66-67 | every kept row has `100 <= epoch < 200` and comes from the input |
| DataParse.KeepConcat | data_parse.py:66-67 | the mask keeps order: masking a concatenation concatenates the masked parts |
| DataParse.KeepComplete | data_parse.py:66-67 | every row inside the window survives the mask |
| DataParse.Window | data_parse.py:65-67 | the masked rows when `skip_start` is set, and all rows otherwise; stated by `Keep`, `KeepConcat`, `KeepComplete` and `LoadWindowsUnlessReal` |
| DataParse.LatencyPrefix | data_parse.py:75-77 | the latencies of a prefix of the timer are a prefix of the latencies |
| DataParse.LatencyPrefixSums | data_parse.py:75-77 | the first i + 1 latencies add up to timer value i: the first is timer[0] and each later one is a step of the timer |
| DataParse.Latency | data_parse.py:75-77 | one latency per timer value; the values are stated by `LatencyPrefixSums` and `DataLatencySum` |
| DataParse.MakeData | data_parse.py:62-88 | fails exactly on an empty time table, a missing stat table or an empty stat table; the time columns share one length; with `skip_start` every kept epoch lies in the window; without it every row is kept; each time column is that field of the window of the time table, latency is the latency of that timer, and rn/rs/wn/ws are fields 5-8 of the window of the stat table |
| DataParse.StatColumnsIndependent | data_parse.py:80-88 | the statistics columns are fields 5-8 of the stat table masked by the same window rule, and the time table does not affect them |
| DataParse.DataLatencySum | data_parse.py:75-77 | the view's latencies add up to its last timer value |
| DataParse.Load | data_parse.py:52-58 | a parse error in the timing log, then in the statistics log, is the load's error |
| DataParse.LoadWindowsUnlessReal | data_parse.py:58-67 | the window applies exactly when `keys` is not "real": then all epochs lie in it, otherwise every timing row is kept |
| E2E.LeadingDigits | e2e.py:13 | a match is the line's leading digits, followed by a comma |
| E2E.LeadingDigitsComplete | e2e.py:13 | any leading digits followed by a comma are exactly what matches |
| E2E.Closed | e2e.py:17-24 | every group but the open one becomes a record of its timestamp and its lines joined by newlines |
| E2E.LoaderStep | e2e.py:16-24 | a line with the group's timestamp extends the open group; a new timestamp closes it into a record and opens a new group |
| E2E.Step | e2e.py:13-24 | one pass of the loader loop; stated by `LoaderStep`, `StepFlatten` and `StepWellGrouped` |
| E2E.ScanRun | e2e.py:12-24 | the loader state after a prefix of the lines; stated by `ScanConsumes`, `ScanWellGrouped` and `HaltIsFinal` |
| E2E.Outcome | e2e.py:8-26 | the records yielded and the error raised; stated by `RecordsAreGroups`, `AdjacentRecordsDiffer`, `UnprefixedLineEndsInput`, `NoPrefixedLines` and `BareCommaRaises`, and `MetricsLoader` computes it |
| E2E.HaltIsFinal | e2e.py:14-15 | after the break or the raise, later lines are never read |
| E2E.MetricsLoader | e2e.py:8-26 | the loop yields exactly the records of the fold over the lines and stops with its error |
| E2E.FirstUnprefixedMeaning | e2e.py:13-15 | every line before the stopping line has the prefix, and the stopping line does not |
| E2E.StepWellGrouped | e2e.py:17-24 | one step keeps groups non-empty, each line carrying its group's timestamp, and neighbouring groups with different timestamps |
| E2E.ScanWellGrouped | e2e.py:17-24 | the groups of any scan are well formed in that sense |
| E2E.ScanConsumes | e2e.py:12-24 | without an error, the groups hold exactly the lines before the first unprefixed line, in order; the scan stopped iff such a line exists |
| E2E.AdjacentRecordsDiffer | e2e.py:19-24 | adjacent records always have different timestamps |
| E2E.RecordsAreGroups | e2e.py:9-26 | one record per group, and `(None, "")` when there is none; inner records join with newlines and the last joins with nothing |
| E2E.UnprefixedLineEndsInput | e2e.py:13-15 | lines after the first unprefixed line never influence the records |
| E2E.NoPrefixedLines | e2e.py:9-26 | an empty file, or one whose first line lacks the prefix, yields the single record `(None, "")` |
| E2E.BareCommaRaises | e2e.py:13-16 | a line starting with a comma, reached while scanning, makes `int("")` raise |
| E2E.DefaultPattern | e2e.py:30 | the meter defaults to "count" |
| E2E.ValueAtDigits | e2e.py:31 | at a key followed by digits and a comma, the value read is those digits' number |
| E2E.ValueAtSplit | e2e.py:31 | the same, for a line given as prefix, key, digits and rest |
| E2E.LastValue | e2e.py:31 | when no value is found, no position of the range holds the key, a number and a comma |
| E2E.LastValueFinds | e2e.py:31 | the greedy `.*` picks the last position holding the key, a number and a comma, whatever key occurrences without a number follow it |
| E2E.ValueAtSound | e2e.py:31 | a value is read only where the key is followed by a digit run that a comma ends, and it is that run's number |
| E2E.LastValueSound | e2e.py:31 | a found value is the value at some position of the range, and no later position of the range holds one |
| E2E.ValueAtShift | e2e.py:31 | the value at a position does not depend on the text before it |
| E2E.SearchSkips | e2e.py:31-34 | `re.search` passes over positions that do not start a line |
| E2E.SearchShift | e2e.py:31-34 | searching after a complete first line is searching the rest |
| E2E.MatchLine | e2e.py:31 | the pattern tried on one line: digits, the group header, then the last key followed by a number and a comma; stated by `MatchLineSound`, `MatchLineNone`, `MatchLineComplete` and `MatchLineRoundTrip` |
| E2E.MatchLineSound | e2e.py:31 | a matched line starts with digits and the header, and the value comes from the last position after the header holding the key, a number and a comma |
| E2E.MatchLineNone | e2e.py:31 | a line fails to match exactly when the header does not follow its digits or no position after the header holds the key and a number |
| E2E.MatchLineComplete | e2e.py:31 | the header after the digits and a last position holding the key and a number make the line match with that number |
| E2E.Search | e2e.py:31-34 | `re.search`: the value at the first line start from which the pattern matches; stated by `SearchNone`, `SearchSound`, `SearchFinds`, `SearchSkips` and `SearchShift` |
| E2E.SearchNone | e2e.py:31-34 | the search finds nothing exactly when no line start from the given position on begins a matching line (both directions) |
| E2E.SearchSound | e2e.py:31-34 | a found value is the match of a line start, and no earlier line start from the given position matches |
| E2E.SearchFinds | e2e.py:31-34 | the first matching line start is the one the search reports |
| E2E.Extract | e2e.py:33-38 | the captured number, or 0; stated by `ExtractMeaning`, `ExtractFirstLine`, `ExtractSkipsLine`, `ExtractEmpty` and `ExtractRoundTrip` |
| E2E.ExtractMeaning | e2e.py:33-38 | 0 when no line of the record matches; otherwise the number of the first line that matches |
| E2E.ExtractFirstLine | e2e.py:33-38 | a matching first line gives the number it carries |
| E2E.ExtractSkipsLine | e2e.py:33-38 | a first line that does not match is skipped |
| E2E.ExtractEmpty | e2e.py:35-36 | nothing to search gives 0 |
| E2E.NoLaterKey | e2e.py:31 | in a metric line whose tail has no key followed by a number, no position after the value's key holds one |
| E2E.NoKeyInNumber | e2e.py:31 | the key cannot start inside a metric line's number or at its comma |
| E2E.MetricLineHeader | e2e.py:31 | a metric line starts with its timestamp digits and then the group header |
| E2E.MetricLineValue | e2e.py:31 | at the key of a metric line the value read is the line's value |
| E2E.MatchLineRoundTrip | e2e.py:31 | a line `<ts>, <group>, Group, {…<name>.<meter>: <v>,…` is matched with value v, whenever the text after the comma holds no key followed by a number and a comma |
| E2E.ExtractRoundTrip | e2e.py:31-38 | extract of a record that starts with such a line returns v, under the same condition on the text after the comma |
| E2E.RegistryShape | e2e.py:41-51 | the registry has nine counters, all with the default meter: good_tps first, then seven timers, then the debug counter; a table row is ten wide |
| E2E.TableRow | e2e.py:63 | a row has ten entries: the timestamp, then the nine extractors in registry order |
| E2E.Table | e2e.py:62-63 | one row per record, in order, whenever every record has a timestamp |
| E2E.UntimedRecordHasNoMark | e2e.py:79 | a record without a timestamp is the only record and its debug value is below 1 |
| E2E.TableTimestampsDiffer | e2e.py:19-24 | neighbouring rows of the table have different timestamps |
| E2E.FirstAtLeastOne | e2e.py:79 | the first index whose value is at least 1, or none |
| E2E.FirstAbove | e2e.py:81 | the first index above the bound, or none |
| E2E.LastBelow | e2e.py:82 | the last index below the bound, or none |
| E2E.WarmupStart | e2e.py:73-77 | one past the last step below 1 of the column, or 0 when there is none |
| E2E.WindowStart | e2e.py:79-82 | the start found is an index of the table |
| E2E.Window | e2e.py:79-89 | a successful window is non-empty and rectangular |
| E2E.WindowFails | e2e.py:79-82 | the window fails iff no debug value reaches 1, no timestamp exceeds the mark plus 10000, or none lies below the last minus 10000; the first of these is NoMark |
| E2E.WindowShape | e2e.py:81-89 | the window runs from the first timestamp above the mark plus 10000 to the last row; its first row is all 0; columns are rows minus the first kept row; timestamps are divided by 1000 |
| E2E.WindowTimestampsDiffer | e2e.py:84-89 | distinct neighbouring timestamps stay distinct in the window |
| E2E.Rebased | e2e.py:84-89 | as many rows as given, each `width` wide; the values are stated by `WindowShape` |
| E2E.RateOf | e2e.py:103-106 | n - 1 rates, each a step of the column over the step of the timestamps |
| E2E.MeanOf | e2e.py:100-101 | the mean times the last timestamp is the last value |
| E2E.RatesAddUp | e2e.py:103-106 | rates weighted by the time steps give back the column's steps, which add up to its last minus its first value |
| E2E.MeanIsTotalOverSpan | e2e.py:100-101 | on a rebaselined column, the mean is the total change over the total time |
| E2E.Data.Create | e2e.py:67-91 | an empty table leaves `data` unset; otherwise the object fails exactly when the window fails, with its error, and otherwise holds the window column by column |
| E2E.Data.Copy | e2e.py:84-85 | the sliced rows, as an array indexed by column and then row |
| E2E.Data.Rebase | e2e.py:86 | every entry minus the same column of the first row, in place |
| E2E.Data.ScaleTimestamps | e2e.py:89 | column 0 divided by 1000, in place; the array holds the rebased rows |
| E2E.Data.Col | e2e.py:104 | column `col` of the array |
| E2E.Data.Timestamp | e2e.py:93-95 | column 0 |
| E2E.Data.Rate | e2e.py:103-106 | one entry fewer than rows; each is the column's step over the timestamp's step |
| E2E.Data.Mean | e2e.py:100-101 | the mean times the last timestamp is the column's last value |
| E2E.Data.Tps | e2e.py:108-110 | the rate of column 1 |
| E2E.Data.MeanTps | e2e.py:112-114 | the mean of column 1 |
| E2E.Load | e2e.py:54-63 | a loader error is the load's error; a missing timestamp means no mark; otherwise load fails iff the window does; on success the object holds the window and the timestamps strictly change from row to row |
| Plot.ListCeil | plot.py:3-4 | None iff no tick exceeds the value; otherwise a tick above the value |
| Plot.ListCeilFirst | plot.py:3-4 | the tick found is the first one above the value |
| Plot.RemoveNone | plot.py:19 | same length; None becomes 0 and every other value is kept |
| Plot.RemoveNoneAsWritten | plot.py:19 | same length as the input |
| Plot.RemoveNoneTruncates | plot.py:19 | as written, `[None, 2.5]` becomes `[0, 2]` and its maximum falls below 2.5; corrected, it becomes `[0, 2.5]` |
| Plot.RemoveNoneAsWrittenWithoutNone | plot.py:19 | without a None, the as-written and corrected versions agree |
| Plot.SeqMax | plot.py:28 | `max` of a non-empty sequence bounds every element and is one of them |
| Plot.RemoveNoneBound | plot.py:51 | the maximum of a cleaned bar bounds every non-None value, and is at least 0 when a None is present |
| Plot.LinePlot.constructor | plot.py:22-24 | no series and maxY 0 |
| Plot.LinePlot.Add | plot.py:26-28 | the series is appended; an empty Y fails with maxY unchanged; otherwise maxY becomes the larger of itself and max(Y); maxY never decreases and bounds every y added |
| Plot.BarPlot.constructor | plot.py:38-42 | cols None, no data, no labels, maxY 0 |
| Plot.BarPlot.Add | plot.py:44-51 | the first add fixes cols; a width mismatch fails with nothing changed; otherwise exactly one row and one label are appended, empty args fail (in `remove_none`, which refuses an empty input) with maxY unchanged, and maxY never decreases and bounds every non-None value |
| Plot.BarPlot.Labels | plot.py:53-59 | without labels only a single column succeeds, with `[""]`, and anything else is "Label lost"; given labels succeed iff they number `cols` |
| Common.NatToStringValue | e2e.py:16 | reading back a rendered number gives the number |
| Common.StepsTelescope | e2e.py:104-106 | the steps of a column add up to its last value minus its first |

## Left out

- File and path I/O: `open`, `os.path.join` and the `path` module that supplies the base paths are not part of this model. Both parsers and both loaders take the lines of a file as a sequence of strings.
- `main.py` is not part of this model: the figure drivers, helpers such as `labelize` and `maybe`, and the plotting calls.
- plot.py beyond its bookkeeping is left out: `decompose`, `ceilY` (logarithms and floors on floats), `LinePlot.draw`, the bar geometry and axis calls of `BarPlot.draw`, `BarPlot.number`, and the keyword arguments passed to the plot calls.
- `Data.goodput` (e2e.py:116-118) is left out. It calls `self.data(1)`, but the instance's array shadows the method, so it always raises.
- `\d` is modelled as the ASCII digits only, and Python's `float` grammar as an optional sign, digits and at most one dot. Exponents, `inf`, `nan` and underscores are not accepted.
- IEEE floating point, NaN and numpy dtypes are not modelled, except for the vectorize cast under Findings. Values are exact `real`s.
- E2E.RateOf: requires every timestamp step to be non-zero. numpy would give `inf` or `nan` there instead.
- E2E.Data.Rate: requires every timestamp step to be non-zero, for the same reason.
- E2E.Data.Tps: requires every timestamp step to be non-zero, for the same reason.
- E2E.MeanOf: requires a non-zero last timestamp. numpy's division by zero is not modelled.
- E2E.Data.Mean: requires a non-zero last timestamp, for the same reason.
- E2E.Data.MeanTps: requires a non-zero last timestamp, for the same reason.
- E2E.Data.Timestamp: requires `loaded`. An object built from an empty table keeps `self.data` as the bound method, so `self.data[0]` raises TypeError (e2e.py:93-95); that error is not modelled. `load` never builds such an object, because `metrics_loader` always yields a record.
- E2E.Data.Rate: requires `loaded`; the TypeError of an unloaded object (e2e.py:103-106) is not modelled, for the same reason.
- E2E.Data.Mean: requires `loaded`; the TypeError of an unloaded object (e2e.py:100-101) is not modelled, for the same reason.
- E2E.Data.Tps: requires `loaded`; the TypeError of an unloaded object (e2e.py:108-110) is not modelled, for the same reason.
- E2E.Data.MeanTps: requires `loaded`; the TypeError of an unloaded object (e2e.py:112-114) is not modelled, for the same reason.
- E2E.Data.Copy: copies the kept rows into a fresh array, where numpy's slice and transpose (e2e.py:84-87) are views of the original table. The original table is not used afterwards, so no aliasing is observable, but the model does not capture it.
- Plot.BarPlot.Add: uses the corrected `Plot.RemoveNone`, not the as-written `Plot.RemoveNoneAsWritten`. For a bar such as `None, 2.5` the model's maxY is 2.5 where the code as written gives 2 (see Findings).
- E2E.Data.Create: requires a rectangular table at least two columns wide. That is the only shape `load` builds.
- E2E.Data.Create: the warm-up scan on column 1 (e2e.py:73-77) is computed and then discarded, as in the source. Its result is stated only by `E2E.WarmupStart`.
- E2E.Window: the cool-down index (e2e.py:82) is used only for its failure when no timestamp lies below the last minus 10000. As in the source, it slices nothing.
- E2E.ExtractRoundTrip: proved for every counter whose key contains no digit, comma or newline. That each of the nine registry entries has such a key is not proved.
- DataParse.MatchSummarySound: states that the line begins with the rendered groups. It does not state that the rest of the line is arbitrary (the closing `.*`).
- DataParse.MakeData: the default `stat=None` is modelled as the error `MissingStat`, that is, the failure of `None.T`.
- Facts of the code that the model follows:
  - `int(cnt)` and `int(avg)` (data_parse.py:29-33) take no `k`/`m` suffix, so the `none` and `<digits>[km]` averages that the statistics pattern admits raise, modelled as `BadAverage`;
  - the rows carry no percentile vectors;
  - `Data` keeps the fixed `100 <= epoch < 200`;
  - the end-to-end window runs to the last row.

## Findings

| source | as written | input that shows it | evidently intended | confidence | as-written member | corrected member |
|---|---|---|---|---|---|---|
| plot.py:19 | `np.vectorize` without `otypes` takes its output type from the result for the first element. When a bar holds a `None`, its values form an object array. If the first value is `None` or an `int`, the output is then an integer array, and every float in it is truncated. | `BarPlot.add("x", None, 2.5)`: `remove_none` gives `[0, 2]` and `maxY` becomes 2, below the 2.5 that was added | `None` becomes 0 and every other value is kept, so `maxY` bounds every value added | not executed | Plot.RemoveNoneAsWritten, Plot.RemoveNoneTruncates | Plot.RemoveNone, Plot.RemoveNoneBound, Plot.BarPlot.Add |
