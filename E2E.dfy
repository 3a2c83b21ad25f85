/** The end-to-end metrics reader (e2e.py): grouping metric lines into
    per-timestamp records, extracting counters from a record, building the
    table of a run and the windowed `Data` view with its rates and means. */
module E2E {
  import opened Common

  const DigitClass := CharClass(false, false, false, true)

  // ===========================================================================
  // metrics_loader

  /** The group of `(\d*),.*` matched at the start of a line: the leading
      digits, provided a comma follows them. */
  function LeadingDigits(line: string): (r: Option<string>)
    ensures r.Some? ==> |r.value| < |line| && line[|r.value|] == ',' && r.value == line[..|r.value|] && AllDigits(r.value)
  {
    var k := RunEnd(line, 0, DigitClass);
    if k < |line| && line[k] == ',' then
      DigitRun(line, 0, k);
      assert line[0..k] == line[..k];
      Some(line[..k])
    else None
  }

  /** Any digits followed by a comma at the start of a line are the ones
      found: the match is unique, and it exists whenever such digits do. */
  lemma LeadingDigitsComplete(line: string, k: nat)
    requires k < |line| && AllDigits(line[..k]) && line[k] == ','
    ensures LeadingDigits(line) == Some(line[..k])
  {
    forall m | 0 <= m < k ensures InClass(line[m], DigitClass) {
      assert line[..k][m] == line[m];
    }
    RunEndMaximal(line, 0, DigitClass, k);
  }

  /** The timestamps of consecutive lines that share it, in file order. */
  datatype Group = Group(ts: int, lines: seq<string>)

  /** One yielded `(timestamp, record)` pair; `None` only for a file
      whose first line lacks the prefix. */
  datatype Record = Record(ts: Option<int>, blob: string)

  /** `int("")` on a line that starts with a bare comma. */
  datatype LoaderError = EmptyTimestamp

  /** The loader's progress: the groups so far (the last one still open),
      whether a line without the prefix ended the scan, and whether `int`
      raised. */
  datatype Scan = Scan(groups: seq<Group>, stopped: bool, failed: bool)

  function Step(sc: Scan, line: string): Scan {
    if sc.stopped || sc.failed then sc
    else match LeadingDigits(line)
      case None => sc.(stopped := true)
      case Some(d) =>
        if d == [] then sc.(failed := true)
        else
          var t := DigitsValue(d);
          var n := |sc.groups|;
          if n > 0 && sc.groups[n - 1].ts == t
          then sc.(groups := sc.groups[..n - 1] + [Group(t, sc.groups[n - 1].lines + [line])])
          else sc.(groups := sc.groups + [Group(t, [line])])
  }

  function ScanRun(lines: seq<string>): Scan {
    if lines == [] then Scan([], false, false) else Step(ScanRun(lines[..|lines| - 1]), lines[|lines| - 1])
  }

  /** The scan of the first i + 1 lines is one step after the first i. */
  lemma ScanTake(lines: seq<string>, i: nat)
    requires i < |lines|
    ensures ScanRun(lines[..i + 1]) == Step(ScanRun(lines[..i]), lines[i])
  {
    TakeSnoc(lines, i);
    ScanSnoc(lines[..i], lines[i]);
  }

  lemma ScanSnoc(lines: seq<string>, line: string)
    ensures ScanRun(lines + [line]) == Step(ScanRun(lines), line)
  {
    assert (lines + [line])[..|lines|] == lines;
  }

  /** The records yielded inside the loop: every closed group, its lines
      joined with a newline. */
  function Closed(groups: seq<Group>): (r: seq<Record>)
    ensures |r| == if groups == [] then 0 else |groups| - 1
    ensures forall k :: 0 <= k < |r| ==> r[k] == Record(Some(groups[k].ts), Join("\n", groups[k].lines))
  {
    if |groups| <= 1 then []
    else seq(|groups| - 1, k requires 0 <= k < |groups| - 1 => Record(Some(groups[k].ts), Join("\n", groups[k].lines)))
  }

  /** The `timestamp` variable: the open group's timestamp, `None` before the first line. */
  function OpenTs(groups: seq<Group>): Option<int> {
    if groups == [] then None else Some(groups[|groups| - 1].ts)
  }

  /** The `lines` variable: the open group's lines. */
  function OpenLines(groups: seq<Group>): seq<string> {
    if groups == [] then [] else groups[|groups| - 1].lines
  }

  /** The record yielded after the loop: the open group joined with "". */
  function Final(groups: seq<Group>): Record {
    Record(OpenTs(groups), Join("", OpenLines(groups)))
  }

  /** A line with a new timestamp closes the open group and opens another. */
  lemma ClosedOpen(groups: seq<Group>, g: Group)
    ensures Closed(groups + [g]) ==
      Closed(groups) + (if groups == [] then [] else [Record(OpenTs(groups), Join("\n", OpenLines(groups)))])
  {
  }

  /** A line with the open group's timestamp joins that group. */
  lemma ClosedExtend(groups: seq<Group>, g: Group)
    requires groups != []
    ensures Closed(groups[..|groups| - 1] + [g]) == Closed(groups)
  {
  }

  /** One line with a non-empty timestamp, in terms of the loop's variables. */
  lemma LoaderStep(sc: Scan, line: string)
    requires !sc.stopped && !sc.failed
    requires LeadingDigits(line).Some? && LeadingDigits(line).value != []
    ensures var gs, gs' := sc.groups, Step(sc, line).groups;
      var t := DigitsValue(LeadingDigits(line).value);
      && !Step(sc, line).stopped && !Step(sc, line).failed
      && OpenTs(gs') == Some(t)
      && (if OpenTs(gs) == Some(t)
          then Closed(gs') == Closed(gs) && OpenLines(gs') == OpenLines(gs) + [line]
          else (OpenLines(gs') == [line]
                && Closed(gs') == Closed(gs) + (if gs == [] then [] else [Record(OpenTs(gs), Join("\n", OpenLines(gs)))])))
  {
    var gs := sc.groups;
    var t := DigitsValue(LeadingDigits(line).value);
    if OpenTs(gs) == Some(t) {
      ClosedExtend(gs, Group(t, OpenLines(gs) + [line]));
    } else {
      ClosedOpen(gs, Group(t, [line]));
    }
  }

  /** What metrics_loader yields before it returns or raises. */
  function Outcome(lines: seq<string>): (seq<Record>, Option<LoaderError>) {
    var sc := ScanRun(lines);
    if sc.failed then (Closed(sc.groups), Some(EmptyTimestamp))
    else (Closed(sc.groups) + [Final(sc.groups)], None)
  }

  /** The loader's state is the same as at the point where it stopped or raised. */
  lemma {:induction false} HaltIsFinal(lines: seq<string>, k: nat)
    requires k <= |lines| && (ScanRun(lines[..k]).stopped || ScanRun(lines[..k]).failed)
    ensures ScanRun(lines) == ScanRun(lines[..k])
    decreases |lines|
  {
    if k < |lines| {
      var init := lines[..|lines| - 1];
      assert init[..k] == lines[..k];
      HaltIsFinal(init, k);
    } else {
      assert lines[..k] == lines;
    }
  }

  /** metrics_loader over the lines of a file. */
  method MetricsLoader(lines: seq<string>) returns (records: seq<Record>, error: Option<LoaderError>)
    ensures (records, error) == Outcome(lines)
  {
    var timestamp: Option<int> := None;
    var current: seq<string> := [];
    records, error := [], None;
    var i := 0;
    ghost var sc := Scan([], false, false);
    assert lines[..0] == [];
    while i < |lines|
      invariant 0 <= i <= |lines|
      invariant sc == ScanRun(lines[..i])
      invariant !sc.stopped && !sc.failed
      invariant records == Closed(sc.groups)
      invariant timestamp == OpenTs(sc.groups)
      invariant current == OpenLines(sc.groups)
    {
      ScanTake(lines, i);
      var d := LeadingDigits(lines[i]);
      if d.None? {
        HaltIsFinal(lines, i + 1);
        break;
      }
      if d.value == [] {
        error := Some(EmptyTimestamp);
        HaltIsFinal(lines, i + 1);
        return;
      }
      LoaderStep(sc, lines[i]);
      var lineTimestamp := DigitsValue(d.value);
      if timestamp.None? {
        timestamp := Some(lineTimestamp);
      }
      if timestamp.value == lineTimestamp {
        current := current + [lines[i]];
      } else {
        records := records + [Record(timestamp, Join("\n", current))];
        current := [lines[i]];
        timestamp := Some(lineTimestamp);
      }
      sc := ScanRun(lines[..i + 1]);
      i := i + 1;
    }
    if i == |lines| {
      assert lines[..i] == lines;
    }
    records := records + [Record(timestamp, Join("", current))];
  }

  // ---------------------------------------------------------------------------
  // What metrics_loader promises about its records.

  /** The timestamp a line carries, when it has a non-empty one. */
  function Stamp(line: string): Option<int> {
    match LeadingDigits(line)
    case Some(d) => if d != [] then Some(DigitsValue(d)) else None
    case None => None
  }

  /** Every group is non-empty, its lines carry its timestamp, and
      neighbouring groups have different timestamps. */
  predicate WellGrouped(groups: seq<Group>) {
    && (forall k :: 0 <= k < |groups| ==> groups[k].lines != [])
    && (forall k, j :: 0 <= k < |groups| && 0 <= j < |groups[k].lines| ==> Stamp(groups[k].lines[j]) == Some(groups[k].ts))
    && (forall k :: 0 <= k < |groups| - 1 ==> groups[k].ts != groups[k + 1].ts)
  }

  /** The lines of the groups, in order. */
  function Flatten(groups: seq<Group>): seq<string> {
    if groups == [] then [] else Flatten(groups[..|groups| - 1]) + groups[|groups| - 1].lines
  }

  /** The index of the first line without the `digits,` prefix, or the number of lines. */
  function FirstUnprefixed(lines: seq<string>): (k: nat)
    ensures k <= |lines|
  {
    if lines == [] then 0
    else
      var init := lines[..|lines| - 1];
      var k := FirstUnprefixed(init);
      if k < |init| then k
      else if LeadingDigits(lines[|lines| - 1]).None? then |init|
      else |lines|
  }

  /** Every line before that index has the prefix and the line at it has not. */
  lemma {:induction false} FirstUnprefixedMeaning(lines: seq<string>)
    ensures forall j :: 0 <= j < FirstUnprefixed(lines) ==> LeadingDigits(lines[j]).Some?
    ensures FirstUnprefixed(lines) < |lines| ==> LeadingDigits(lines[FirstUnprefixed(lines)]).None?
    decreases |lines|
  {
    if lines != [] {
      var init := lines[..|lines| - 1];
      FirstUnprefixedMeaning(init);
      assert forall j :: 0 <= j < |init| ==> lines[j] == init[j];
    }
  }

  /** A step keeps the groups well formed. */
  lemma StepWellGrouped(sc: Scan, line: string)
    requires WellGrouped(sc.groups)
    ensures WellGrouped(Step(sc, line).groups)
  {
    var gs := sc.groups;
    if !sc.stopped && !sc.failed && LeadingDigits(line).Some? && LeadingDigits(line).value != [] {
      var t := DigitsValue(LeadingDigits(line).value);
      assert Stamp(line) == Some(t);
      var gs' := Step(sc, line).groups;
      var n := |gs|;
      if n > 0 && gs[n - 1].ts == t {
        assert forall k :: 0 <= k < n - 1 ==> gs'[k] == gs[k];
      } else {
        assert forall k :: 0 <= k < n ==> gs'[k] == gs[k];
      }
    }
  }

  lemma FlattenAppend(gs: seq<Group>, g: Group)
    ensures Flatten(gs + [g]) == Flatten(gs) + g.lines
  {
    assert (gs + [g])[..|gs|] == gs;
  }

  lemma FlattenExtendLast(gs: seq<Group>, line: string)
    requires gs != []
    ensures Flatten(gs[..|gs| - 1] + [Group(gs[|gs| - 1].ts, gs[|gs| - 1].lines + [line])]) == Flatten(gs) + [line]
  {
    var n := |gs|;
    FlattenAppend(gs[..n - 1], Group(gs[n - 1].ts, gs[n - 1].lines + [line]));
    assert Flatten(gs) == Flatten(gs[..n - 1]) + gs[n - 1].lines;
    AppendAssoc(Flatten(gs[..n - 1]), gs[n - 1].lines, line);
  }

  /** A step that neither stops nor raises adds its line at the end of the
      last group; one that stops changes nothing else. */
  lemma StepFlatten(sc: Scan, line: string)
    ensures !Step(sc, line).failed && !Step(sc, line).stopped && !sc.stopped ==>
      Flatten(Step(sc, line).groups) == Flatten(sc.groups) + [line]
    ensures !sc.stopped && !sc.failed && LeadingDigits(line).None? ==> Step(sc, line) == sc.(stopped := true)
    ensures sc.stopped || sc.failed ==> Step(sc, line) == sc
  {
    var gs := sc.groups;
    var d := LeadingDigits(line);
    if !sc.stopped && !sc.failed && d.Some? && d.value != [] {
      var t := DigitsValue(d.value);
      var n := |gs|;
      if n > 0 && gs[n - 1].ts == t {
        FlattenExtendLast(gs, line);
      } else {
        FlattenAppend(gs, Group(t, [line]));
      }
    }
  }

  /** The groups are always well formed. */
  lemma {:induction false} ScanWellGrouped(lines: seq<string>)
    ensures WellGrouped(ScanRun(lines).groups)
    decreases |lines|
  {
    if lines != [] {
      ScanWellGrouped(lines[..|lines| - 1]);
      StepWellGrouped(ScanRun(lines[..|lines| - 1]), lines[|lines| - 1]);
    }
  }

  /** Unless `int` raised, the groups hold exactly the lines before the
      first line without the prefix, and the scan stopped exactly when
      such a line exists. */
  lemma {:induction false} ScanConsumes(lines: seq<string>)
    ensures !ScanRun(lines).failed ==> Flatten(ScanRun(lines).groups) == lines[..FirstUnprefixed(lines)]
    ensures !ScanRun(lines).failed ==> (ScanRun(lines).stopped <==> FirstUnprefixed(lines) < |lines|)
    decreases |lines|
  {
    if lines != [] {
      var init, line := lines[..|lines| - 1], lines[|lines| - 1];
      ScanConsumes(init);
      var sc := ScanRun(init);
      assert ScanRun(lines) == Step(sc, line);
      StepFlatten(sc, line);
      var k := FirstUnprefixed(init);
      if !ScanRun(lines).failed {
        if sc.stopped {
          assert k < |init| && FirstUnprefixed(lines) == k;
          assert lines[..k] == init[..k];
        } else if LeadingDigits(line).None? {
          assert FirstUnprefixed(lines) == |init|;
          assert lines[..|init|] == init;
          assert init[..k] == init;
        } else {
          assert !sc.failed && k == |init|;
          assert FirstUnprefixed(lines) == |lines|;
          assert init[..k] == init;
          SplitLast(lines);
          assert lines[..|lines|] == lines;
        }
      }
    }
  }

  /** Neighbouring records never share a timestamp; a timestamp that comes
      back later starts a record of its own. */
  lemma AdjacentRecordsDiffer(lines: seq<string>)
    ensures var recs := Outcome(lines).0;
      forall k :: 0 <= k < |recs| - 1 ==> recs[k].ts != recs[k + 1].ts
  {
    ScanWellGrouped(lines);
  }

  /** Every record but the one for an empty scan has a timestamp, and its
      lines are exactly those of one group. */
  lemma RecordsAreGroups(lines: seq<string>)
    requires Outcome(lines).1.None?
    ensures var recs, gs := Outcome(lines).0, ScanRun(lines).groups;
      && |recs| == (if gs == [] then 1 else |gs|)
      && (gs == [] ==> recs == [Record(None, "")])
      && (forall k :: 0 <= k < |gs| - 1 ==> recs[k] == Record(Some(gs[k].ts), Join("\n", gs[k].lines)))
      && (gs != [] ==> recs[|gs| - 1] == Record(Some(gs[|gs| - 1].ts), Concat(gs[|gs| - 1].lines)))
  {
    var gs := ScanRun(lines).groups;
    if gs != [] {
      JoinEmptyIsConcat(gs[|gs| - 1].lines);
    }
  }

  /** A line without the prefix ends the input: nothing after it is read. */
  lemma {:induction false} UnprefixedLineEndsInput(pre: seq<string>, line: string, rest: seq<string>)
    requires LeadingDigits(line).None?
    ensures Outcome(pre + [line] + rest) == Outcome(pre)
  {
    var all := pre + [line] + rest;
    assert all[..|pre| + 1] == pre + [line];
    assert all[..|pre|] == pre;
    ScanSnoc(pre, line);
    var sc := ScanRun(pre);
    if sc.stopped || sc.failed {
      HaltIsFinal(all, |pre|);
    } else {
      HaltIsFinal(all, |pre| + 1);
    }
  }

  /** An empty file, or one whose first line lacks the prefix, yields the
      single record `(None, "")`. */
  lemma NoPrefixedLines(lines: seq<string>)
    requires lines == [] || LeadingDigits(lines[0]).None?
    ensures Outcome(lines) == ([Record(None, "")], None)
  {
    var none: seq<string> := [];
    assert Outcome(none).0 == [Record(None, "")] && Outcome(none).1 == None;
    if lines != [] {
      UnprefixedLineEndsInput(none, lines[0], lines[1..]);
      assert none + [lines[0]] + lines[1..] == lines;
    }
  }

  /** A line that starts with a bare comma makes `int("")` raise. */
  lemma BareCommaRaises(pre: seq<string>, line: string, rest: seq<string>)
    requires FirstUnprefixed(pre) == |pre| && |line| > 0 && line[0] == ','
    ensures Outcome(pre + [line] + rest).1 == Some(EmptyTimestamp)
  {
    var all := pre + [line] + rest;
    assert LeadingDigits(line) == Some([]);
    ScanConsumes(pre);
    ScanSnoc(pre, line);
    assert all[..|pre| + 1] == pre + [line];
    HaltIsFinal(all, |pre| + 1);
  }

  // ===========================================================================
  // Pattern.extract

  /** A counter: the metric group, the metric name and the meter read. */
  datatype Pattern = Pattern(group: string, name: string, meter: string)

  /** `Pattern(group, name)`: the meter defaults to "count". */
  function DefaultPattern(group: string, name: string): (p: Pattern)
    ensures p.meter == "count"
  {
    Pattern(group, name, "count")
  }

  /** The literal after the leading digits: `, <group>, Group, {`. */
  function Header(p: Pattern): string {
    ", " + p.group + ", Group, {"
  }

  /** The literal before the value: `<name>.<meter>: `. */
  function Key(p: Pattern): string {
    p.name + "." + p.meter + ": "
  }

  /** `<name>.<meter>: (\d+),` at position q of h: the value. */
  function ValueAt(h: string, q: nat, key: string): (r: Option<nat>)
    requires q <= |h|
    ensures r.Some? ==> LitAt(h, q, key)
  {
    if !LitAt(h, q, key) then None
    else
      var e := RunEnd(h, q + |key|, DigitClass);
      if e > q + |key| && e < |h| && h[e] == ',' then
        DigitRun(h, q + |key|, e);
        Some(DigitsValue(h[q + |key|..e]))
      else None
  }

  /** The greedy `.*` before the key: the last position in `from .. to`
      where the key, a number and a comma follow. */
  function LastValue(h: string, from: nat, upto: nat, key: string): (r: Option<nat>)
    requires from <= upto <= |h|
    ensures r.None? ==> forall q :: from <= q <= upto ==> ValueAt(h, q, key).None?
    decreases upto
  {
    if ValueAt(h, upto, key).Some? then ValueAt(h, upto, key)
    else if upto == from then None
    else LastValue(h, from, upto - 1, key)
  }

  /** The pattern matched against one line `h` (no newline in it): digits,
      the header, then the last key followed by a number and a comma. */
  function MatchLine(p: Pattern, h: string): Option<nat> {
    var k := RunEnd(h, 0, DigitClass);
    if LitAt(h, k, Header(p)) then LastValue(h, k + |Header(p)|, |h|, Key(p)) else None
  }

  /** `(^|(?<=\n))`: position j begins a line of the blob. */
  predicate LineStart(blob: string, j: nat)
    requires j <= |blob|
  {
    j == 0 || blob[j - 1] == '\n'
  }

  /** `re.search`: the first start of a line, from position i on, where the
      pattern matches. */
  function Search(p: Pattern, blob: string, i: nat): Option<nat>
    requires i <= |blob|
    decreases |blob| - i
  {
    if LineStart(blob, i) && MatchLine(p, Head(blob[i..])).Some? then MatchLine(p, Head(blob[i..]))
    else if i == |blob| then None
    else Search(p, blob, i + 1)
  }

  /** extract(record): the captured number, or 0 when nothing matches. */
  function Extract(p: Pattern, blob: string): real {
    match Search(p, blob, 0)
    case Some(v) => v as real
    case None => 0.0
  }

  /** Positions that do not start a line are passed over. */
  lemma {:induction false} SearchSkips(p: Pattern, blob: string, i: nat, j: nat)
    requires 0 < i <= j <= |blob|
    requires forall m :: i - 1 <= m < j - 1 ==> blob[m] != '\n'
    ensures Search(p, blob, i) == Search(p, blob, j)
    decreases j - i
  {
    if i < j {
      SearchSkips(p, blob, i + 1, j);
    }
  }

  /** Searching after a complete first line is searching the rest. */
  lemma {:induction false} SearchShift(p: Pattern, a: string, b: string, j: nat)
    requires a != [] && a[|a| - 1] == '\n' && j <= |b|
    ensures Search(p, a + b, |a| + j) == Search(p, b, j)
    decreases |b| - j
  {
    var blob := a + b;
    var i := |a| + j;
    assert blob[i..] == b[j..];
    var starts := i == 0 || blob[i - 1] == '\n';
    if j == 0 {
      assert blob[|a| - 1] == '\n';
    } else {
      assert blob[i - 1] == b[j - 1];
    }
    assert starts == (j == 0 || b[j - 1] == '\n');
    var m := MatchLine(p, Head(b[j..]));
    assert MatchLine(p, Head(blob[i..])) == m;
    if j < |b| {
      SearchShift(p, a, b, j + 1);
      assert Search(p, blob, i) == if starts && m.Some? then m else Search(p, blob, i + 1);
    } else {
      assert Search(p, blob, i) == if starts && m.Some? then m else None;
    }
  }

  /** The first line of a record decides when it matches. */
  lemma ExtractFirstLine(p: Pattern, line: string, rest: string)
    requires '\n' !in line && MatchLine(p, line).Some?
    ensures Extract(p, line + "\n" + rest) == MatchLine(p, line).value as real
    ensures Extract(p, line) == MatchLine(p, line).value as real
  {
    HeadOfLine(line, "\n" + rest);
    HeadOfLine(line, "");
    assert line + "" == line && line[0..] == line;
    assert (line + "\n" + rest)[0..] == line + ("\n" + rest);
  }

  /** A first line that does not match is passed over. */
  lemma ExtractSkipsLine(p: Pattern, line: string, rest: string)
    requires '\n' !in line && MatchLine(p, line).None?
    ensures Extract(p, line + "\n" + rest) == Extract(p, rest)
  {
    var a := line + "\n";
    var blob := a + rest;
    assert blob == line + "\n" + rest;
    HeadOfLine(line, "\n" + rest);
    assert blob[0..] == line + ("\n" + rest);
    forall m | 0 <= m < |a| - 1 ensures blob[m] != '\n' {
      assert blob[m] == line[m];
    }
    SearchSkips(p, blob, 1, |a|);
    SearchShift(p, a, rest, 0);
  }

  /** A record without any matching line reads as 0, the empty one in particular. */
  lemma ExtractEmpty(p: Pattern)
    ensures Extract(p, "") == 0.0
  {
    assert Head(""[0..]) == "";
  }

  lemma DigitRun(s: string, i: nat, j: nat)
    requires i <= j <= |s| && forall k :: i <= k < j ==> InClass(s[k], DigitClass)
    ensures AllDigits(s[i..j])
  {
    forall m | 0 <= m < j - i ensures IsDigit(s[i..j][m]) {
      assert s[i..j][m] == s[i + m];
      assert InClass(s[i + m], DigitClass);
    }
  }

  lemma {:induction false} HeadOfLine(line: string, rest: string)
    requires '\n' !in line && (rest == [] || rest[0] == '\n')
    ensures Head(line + rest) == line
    decreases |line|
  {
    if line != [] {
      assert (line + rest)[1..] == line[1..] + rest;
      HeadOfLine(line[1..], rest);
    } else {
      assert line + rest == rest;
    }
  }

  /** The last position with a key and a number is the one found. */
  lemma {:induction false} LastValueFinds(h: string, from: nat, upto: nat, key: string, pos: nat)
    requires from <= pos <= upto <= |h|
    requires ValueAt(h, pos, key).Some?
    requires forall q :: pos < q <= upto ==> ValueAt(h, q, key).None?
    ensures LastValue(h, from, upto, key) == ValueAt(h, pos, key)
    decreases upto
  {
    if upto > pos {
      LastValueFinds(h, from, upto - 1, key, pos);
    }
  }

  /** A value is read only from a run of digits right after the key that a
      comma ends, and it is the number of those digits. */
  lemma ValueAtSound(h: string, q: nat, key: string)
    requires q <= |h| && ValueAt(h, q, key).Some?
    ensures var vs, e := q + |key|, RunEnd(h, q + |key|, DigitClass);
      && LitAt(h, q, key) && vs < e < |h| && h[e] == ','
      && AllDigits(h[vs..e]) && ValueAt(h, q, key).value == DigitsValue(h[vs..e])
  {
    DigitRun(h, q + |key|, RunEnd(h, q + |key|, DigitClass));
  }

  /** What the greedy `.*` finds is the value at some position of the range,
      and no later position of the range holds one. */
  lemma {:induction false} LastValueSound(h: string, from: nat, upto: nat, key: string) returns (q: nat)
    requires from <= upto <= |h| && LastValue(h, from, upto, key).Some?
    ensures from <= q <= upto && ValueAt(h, q, key) == LastValue(h, from, upto, key)
    ensures forall q' :: q < q' <= upto ==> ValueAt(h, q', key).None?
    decreases upto
  {
    if ValueAt(h, upto, key).Some? {
      q := upto;
    } else {
      q := LastValueSound(h, from, upto - 1, key);
    }
  }

  /** A matched line is digits, the header, and then a position holding the
      key and the value, after which no position holds the key and a number. */
  lemma MatchLineSound(p: Pattern, h: string) returns (q: nat)
    requires MatchLine(p, h).Some?
    ensures LitAt(h, RunEnd(h, 0, DigitClass), Header(p))
    ensures RunEnd(h, 0, DigitClass) + |Header(p)| <= q <= |h| && ValueAt(h, q, Key(p)) == MatchLine(p, h)
    ensures forall q' :: q < q' <= |h| ==> ValueAt(h, q', Key(p)).None?
  {
    var k := RunEnd(h, 0, DigitClass);
    q := LastValueSound(h, k + |Header(p)|, |h|, Key(p));
  }

  /** A line fails to match exactly when the header does not follow its
      digits, or no position after the header holds the key and a number. */
  lemma MatchLineNone(p: Pattern, h: string)
    ensures var k := RunEnd(h, 0, DigitClass);
      MatchLine(p, h).None? <==>
        (!LitAt(h, k, Header(p)) || forall q :: k + |Header(p)| <= q <= |h| ==> ValueAt(h, q, Key(p)).None?)
  {
    if MatchLine(p, h).Some? {
      var q := MatchLineSound(p, h);
    }
  }

  /** Conversely, the header after the digits and a last position holding the
      key and a number make the line match with that number. */
  lemma MatchLineComplete(p: Pattern, h: string, q: nat)
    requires LitAt(h, RunEnd(h, 0, DigitClass), Header(p))
    requires RunEnd(h, 0, DigitClass) + |Header(p)| <= q <= |h| && ValueAt(h, q, Key(p)).Some?
    requires forall q' :: q < q' <= |h| ==> ValueAt(h, q', Key(p)).None?
    ensures MatchLine(p, h) == ValueAt(h, q, Key(p))
  {
    MatchLineNone(p, h);
    var q0 := MatchLineSound(p, h);
    assert q0 == q;
  }

  /** The search finds nothing exactly when no line start from i on matches. */
  lemma {:induction false} SearchNone(p: Pattern, blob: string, i: nat)
    requires i <= |blob|
    ensures Search(p, blob, i).None? ==>
      forall j :: i <= j <= |blob| && LineStart(blob, j) ==> MatchLine(p, Head(blob[j..])).None?
    ensures (forall j :: i <= j <= |blob| && LineStart(blob, j) ==> MatchLine(p, Head(blob[j..])).None?) ==>
      Search(p, blob, i).None?
    decreases |blob| - i
  {
    if i < |blob| {
      SearchNone(p, blob, i + 1);
    }
  }

  /** A found value comes from a line start from i on whose line matches,
      the first such line start. */
  lemma {:induction false} SearchSound(p: Pattern, blob: string, i: nat) returns (j: nat)
    requires i <= |blob| && Search(p, blob, i).Some?
    ensures i <= j <= |blob| && LineStart(blob, j) && MatchLine(p, Head(blob[j..])) == Search(p, blob, i)
    ensures forall j' :: i <= j' < j && LineStart(blob, j') ==> MatchLine(p, Head(blob[j'..])).None?
    decreases |blob| - i
  {
    if LineStart(blob, i) && MatchLine(p, Head(blob[i..])).Some? {
      j := i;
    } else {
      j := SearchSound(p, blob, i + 1);
    }
  }

  /** The first matching line start from i on is the one the search reports. */
  lemma {:induction false} SearchFinds(p: Pattern, blob: string, i: nat, j: nat)
    requires i <= j <= |blob| && LineStart(blob, j) && MatchLine(p, Head(blob[j..])).Some?
    requires forall j' :: i <= j' < j && LineStart(blob, j') ==> MatchLine(p, Head(blob[j'..])).None?
    ensures Search(p, blob, i) == MatchLine(p, Head(blob[j..]))
    decreases j - i
  {
    if i < j {
      SearchFinds(p, blob, i + 1, j);
    }
  }

  /** extract gives 0 when no line of the record matches, and otherwise the
      number of the first line that does. */
  lemma ExtractMeaning(p: Pattern, blob: string)
    ensures (forall j :: 0 <= j <= |blob| && LineStart(blob, j) ==> MatchLine(p, Head(blob[j..])).None?) ==>
      Extract(p, blob) == 0.0
    ensures forall j ::
      (&& 0 <= j <= |blob| && LineStart(blob, j) && MatchLine(p, Head(blob[j..])).Some?
       && forall j' :: 0 <= j' < j && LineStart(blob, j') ==> MatchLine(p, Head(blob[j'..])).None?) ==>
      Extract(p, blob) == MatchLine(p, Head(blob[j..])).value as real
  {
    SearchNone(p, blob, 0);
    forall j |
      && 0 <= j <= |blob| && LineStart(blob, j) && MatchLine(p, Head(blob[j..])).Some?
      && forall j' :: 0 <= j' < j && LineStart(blob, j') ==> MatchLine(p, Head(blob[j'..])).None?
      ensures Extract(p, blob) == MatchLine(p, Head(blob[j..])).value as real
    {
      SearchFinds(p, blob, 0, j);
    }
  }

  /** A run of digits followed by a non-digit ends there. */
  lemma RunEndAt(h: string, i: nat, d: string)
    requires i + |d| < |h| && h[i..i + |d|] == d && AllDigits(d) && !IsDigit(h[i + |d|])
    ensures RunEnd(h, i, DigitClass) == i + |d|
  {
    forall k | i <= k < i + |d| ensures InClass(h[k], DigitClass) {
      assert h[k] == d[k - i];
    }
    RunEndMaximal(h, i, DigitClass, i + |d|);
  }

  /** The counters whose key and group text can be found back in a line:
      no newline anywhere, and no digit or comma in the key. */
  predicate Plain(p: Pattern) {
    && '\n' !in p.group
    && |Key(p)| > 0
    && forall i :: 0 <= i < |Key(p)| ==> !IsDigit(Key(p)[i]) && Key(p)[i] != ',' && Key(p)[i] != '\n'
  }

  /** A metric line: `<ts>, <group>, Group, {<mid><name>.<meter>: <v>,<tail>`. */
  function MetricLine(p: Pattern, ts: nat, mid: string, v: nat, tail: string): string {
    NatToString(ts) + Header(p) + mid + Key(p) + NatToString(v) + "," + tail
  }

  /** No position after the key of a metric line holds the key and a
      number when its tail holds none. */
  lemma NoLaterKey(p: Pattern, ts: nat, mid: string, v: nat, tail: string, q: nat)
    requires Plain(p) && forall t :: 0 <= t <= |tail| ==> ValueAt(tail, t, Key(p)).None?
    requires |NatToString(ts) + Header(p) + mid| < q <= |MetricLine(p, ts, mid, v, tail)|
    ensures ValueAt(MetricLine(p, ts, mid, v, tail), q, Key(p)).None?
  {
    var h := MetricLine(p, ts, mid, v, tail);
    var e := |NatToString(ts) + Header(p) + mid| + |Key(p)| + |NatToString(v)|;
    if q > e {
      var pre := (NatToString(ts) + Header(p) + mid) + Key(p) + NatToString(v) + ",";
      assert h == pre + tail && |pre| == e + 1;
      ValueAtShift(pre, tail, q - e - 1, Key(p));
    } else {
      NoKeyInNumber(p, ts, mid, v, tail, q);
    }
  }

  /** Nor can the key start inside the number or at its comma. */
  lemma NoKeyInNumber(p: Pattern, ts: nat, mid: string, v: nat, tail: string, q: nat)
    requires Plain(p)
    requires |NatToString(ts) + Header(p) + mid| < q <= |NatToString(ts) + Header(p) + mid| + |Key(p)| + |NatToString(v)|
    ensures !LitAt(MetricLine(p, ts, mid, v, tail), q, Key(p))
  {
    var h := MetricLine(p, ts, mid, v, tail);
    var key, num := Key(p), NatToString(v);
    var pos := |NatToString(ts) + Header(p) + mid|;
    var vs := pos + |key|;
    var e := vs + |num|;
    assert h == (NatToString(ts) + Header(p) + mid) + key + num + "," + tail;
    if q + |key| <= |h| {
      var w := h[q..q + |key|];
      if q < vs {
        assert w[vs - q] == h[vs] == num[0];
        assert w[vs - q] != key[vs - q];
      } else if q < e {
        assert w[0] == h[q] == num[q - vs];
        assert w[0] != key[0];
      } else {
        assert w[0] == h[q] == ',';
        assert w[0] != key[0];
      }
    }
  }


  /** The value at position t of s is the value at |pre| + t of pre + s. */
  lemma ValueAtShift(pre: string, s: string, t: nat, key: string)
    requires t <= |s|
    ensures ValueAt(pre + s, |pre| + t, key) == ValueAt(s, t, key)
  {
    var h := pre + s;
    LitAtShift(pre, s, t, key);
    if LitAt(s, t, key) {
      var vs := t + |key|;
      RunEndShift(pre, s, vs, DigitClass);
      var e := RunEnd(s, vs, DigitClass);
      if e < |s| {
        assert h[|pre| + e] == s[e];
      }
      assert h[|pre| + vs..|pre| + e] == s[vs..e];
    }
  }

  /** Digits, then a text that starts with a non-digit: the digit run ends
      where that text begins. */
  lemma DigitsThen(d: string, hd: string, rest: string)
    requires AllDigits(d) && hd != [] && !IsDigit(hd[0])
    ensures RunEnd(d + hd + rest, 0, DigitClass) == |d| && LitAt(d + hd + rest, |d|, hd)
  {
    var h := d + hd + rest;
    assert h[..|d|] == d && h[|d|] == hd[0];
    RunEndAt(h, 0, d);
    assert h[|d|..|d| + |hd|] == hd;
  }

  /** The leading digits of a metric line are its timestamp, and the header follows them. */
  lemma MetricLineHeader(p: Pattern, ts: nat, mid: string, v: nat, tail: string)
    ensures var h, d := MetricLine(p, ts, mid, v, tail), NatToString(ts);
      RunEnd(h, 0, DigitClass) == |d| && LitAt(h, |d|, Header(p))
  {
    var d, hd := NatToString(ts), Header(p);
    var rest := mid + Key(p) + NatToString(v) + "," + tail;
    assert MetricLine(p, ts, mid, v, tail) == d + hd + rest;
    assert hd[0] == ',';
    DigitsThen(d, hd, rest);
  }

  /** A key at `pos`, then a run of digits, then a comma: the number of the digits. */
  lemma ValueAtDigits(h: string, pos: nat, key: string, num: string)
    requires LitAt(h, pos, key) && |num| > 0 && AllDigits(num)
    requires pos + |key| + |num| < |h| && h[pos + |key|..pos + |key| + |num|] == num
    requires h[pos + |key| + |num|] == ','
    ensures ValueAt(h, pos, key) == Some(DigitsValue(num))
  {
    var vs, e := pos + |key|, pos + |key| + |num|;
    assert h[vs..e] == num;
    RunEndAt(h, vs, num);
    ValueAtEnd(h, pos, key, e);
  }

  /** A key whose digit run ends at a comma is read as that run. */
  lemma ValueAtEnd(h: string, pos: nat, key: string, e: nat)
    requires LitAt(h, pos, key) && pos + |key| < e < |h| && h[e] == ','
    requires RunEnd(h, pos + |key|, DigitClass) == e
    ensures ValueAt(h, pos, key) == Some(DigitsValue(h[pos + |key|..e]))
  {
  }

  /** A key, a run of digits and a comma are read as the number of the digits. */
  lemma ValueAtSplit(pre: string, key: string, num: string, rest: string)
    requires |num| > 0 && AllDigits(num) && rest != [] && rest[0] == ','
    ensures ValueAt(pre + key + num + rest, |pre|, key) == Some(DigitsValue(num))
  {
    var h := pre + key + num + rest;
    var pos, vs := |pre|, |pre| + |key|;
    var e := vs + |num|;
    assert h[pos..vs] == key;
    assert h[vs..e] == num && h[e] == ',';
    ValueAtDigits(h, pos, key, num);
  }

  /** Right after the key of a metric line stands its value and a comma. */
  lemma MetricLineValue(p: Pattern, ts: nat, mid: string, v: nat, tail: string)
    ensures var h, pos := MetricLine(p, ts, mid, v, tail), |NatToString(ts) + Header(p) + mid|;
      pos <= |h| && ValueAt(h, pos, Key(p)) == Some(v)
  {
    var pre, num := NatToString(ts) + Header(p) + mid, NatToString(v);
    assert MetricLine(p, ts, mid, v, tail) == pre + Key(p) + num + ("," + tail);
    ValueAtSplit(pre, Key(p), num, "," + tail);
    NatToStringValue(v);
  }

  /** The value written into a metric line is the value matched, whatever
      the tail holds short of the key followed by a number. */
  lemma MatchLineRoundTrip(p: Pattern, ts: nat, mid: string, v: nat, tail: string)
    requires Plain(p) && forall t :: 0 <= t <= |tail| ==> ValueAt(tail, t, Key(p)).None?
    ensures MatchLine(p, MetricLine(p, ts, mid, v, tail)) == Some(v)
  {
    var h := MetricLine(p, ts, mid, v, tail);
    var start := |NatToString(ts)| + |Header(p)|;
    var pos := |NatToString(ts) + Header(p) + mid|;
    MetricLineHeader(p, ts, mid, v, tail);
    MetricLineValue(p, ts, mid, v, tail);
    forall q | pos < q <= |h| ensures ValueAt(h, q, Key(p)).None? {
      NoLaterKey(p, ts, mid, v, tail, q);
    }
    LastValueFinds(h, start, |h|, Key(p), pos);
  }

  /** A record whose first line is a metric line reads as the value in it. */
  lemma ExtractRoundTrip(p: Pattern, ts: nat, mid: string, v: nat, tail: string, rest: string)
    requires Plain(p) && '\n' !in mid && '\n' !in tail
    requires forall t :: 0 <= t <= |tail| ==> ValueAt(tail, t, Key(p)).None?
    ensures Extract(p, MetricLine(p, ts, mid, v, tail) + "\n" + rest) == v as real
  {
    var line := MetricLine(p, ts, mid, v, tail);
    MatchLineRoundTrip(p, ts, mid, v, tail);
    assert '\n' !in line by {
      assert '\n' !in NatToString(ts);
      assert '\n' !in Header(p);
      assert '\n' !in Key(p);
      assert '\n' !in NatToString(v);
    }
    ExtractFirstLine(p, line, rest);
  }

  // ===========================================================================
  // The registry and the table load builds

  /** `patterns`: the nine counters of a row, in column order 1 .. 9. */
  const Patterns: seq<Pattern> := [
    DefaultPattern("system_metrics", "good_tps"),
    DefaultPattern("timer", "storage::get"),
    DefaultPattern("timer", "storage::set"),
    DefaultPattern("timer", "storage::commit"),
    DefaultPattern("timer", "backend::get"),
    DefaultPattern("timer", "backend::set"),
    DefaultPattern("timer", "backend::commit"),
    DefaultPattern("timer", "consensus::handle_epoch_execution"),
    DefaultPattern("debug", "debug")
  ]

  /** The registry holds nine counters, all read with the default meter,
      the seven timers between the good-TPS counter and the debug mark. */
  lemma RegistryShape()
    ensures |Patterns| == 9 && Width == 10 && DebugColumn == 9
    ensures forall k :: 0 <= k < |Patterns| ==> Patterns[k].meter == "count"
    ensures Patterns[0].group == "system_metrics" && Patterns[0].name == "good_tps"
    ensures forall k :: 1 <= k < 8 ==> Patterns[k].group == "timer"
    ensures Patterns[DebugColumn - 1] == Pattern("debug", "debug", "count")
  {
  }

  /** A row has the timestamp and one column per counter. */
  const Width := 1 + |Patterns|

  /** The column of the debug counter, the last one. */
  const DebugColumn := |Patterns|

  /** The row `load` builds for a record: its timestamp, then each
      counter of the registry extracted from it. */
  function TableRow(ts: int, blob: string): (row: seq<real>)
    ensures |row| == Width && row[0] == ts as real
    ensures forall k :: 0 <= k < |Patterns| ==> row[k + 1] == Extract(Patterns[k], blob)
  {
    [ts as real] + seq(|Patterns|, k requires 0 <= k < |Patterns| => Extract(Patterns[k], blob))
  }

  /** The table of a run, one row per record; `None` when a record has no
      timestamp. */
  function Table(records: seq<Record>): (t: Option<seq<seq<real>>>)
    ensures t.Some? <==> forall k :: 0 <= k < |records| ==> records[k].ts.Some?
    ensures t.Some? ==> |t.value| == |records| && forall k :: 0 <= k < |records| ==>
      t.value[k] == TableRow(records[k].ts.value, records[k].blob)
  {
    if forall k :: 0 <= k < |records| ==> records[k].ts.Some? then
      Some(seq(|records|, k requires 0 <= k < |records| => TableRow(records[k].ts.value, records[k].blob)))
    else None
  }

  /** A record without a timestamp is the lone record of an empty scan; its
      debug column reads 0, so the window has no mark to start from. */
  lemma UntimedRecordHasNoMark(lines: seq<string>, k: nat)
    requires Outcome(lines).1.None? && k < |Outcome(lines).0| && Outcome(lines).0[k].ts.None?
    ensures Outcome(lines).0 == [Record(None, "")]
    ensures Extract(Patterns[DebugColumn - 1], Outcome(lines).0[k].blob) < 1.0
  {
    RecordsAreGroups(lines);
    ExtractEmpty(Patterns[DebugColumn - 1]);
  }

  /** Neighbouring rows of the table of a run have different timestamps. */
  lemma TableTimestampsDiffer(lines: seq<string>)
    requires Outcome(lines).1.None? && Table(Outcome(lines).0).Some?
    ensures var t := Table(Outcome(lines).0).value;
      forall i :: 0 <= i < |t| - 1 ==> t[i][0] != t[i + 1][0]
  {
    AdjacentRecordsDiffer(lines);
    var recs := Outcome(lines).0;
    var t := Table(recs).value;
    forall i | 0 <= i < |t| - 1 ensures t[i][0] != t[i + 1][0] {
      assert recs[i].ts != recs[i + 1].ts;
    }
  }

  // ===========================================================================
  // Data: the window of a run

  predicate Rectangular(table: seq<seq<real>>, width: nat) {
    forall i :: 0 <= i < |table| ==> |table[i]| == width
  }

  function Column(table: seq<seq<real>>, width: nat, c: nat): (col: seq<real>)
    requires Rectangular(table, width) && c < width
    ensures |col| == |table| && forall i :: 0 <= i < |table| ==> col[i] == table[i][c]
  {
    seq(|table|, i requires 0 <= i < |table| => table[i][c])
  }

  /** The first index whose value is at least 1 (the debug mark). */
  function FirstAtLeastOne(col: seq<real>): (r: Option<nat>)
    ensures r.Some? ==> r.value < |col| && col[r.value] >= 1.0 && forall j :: 0 <= j < r.value ==> col[j] < 1.0
    ensures r.None? ==> forall j :: 0 <= j < |col| ==> col[j] < 1.0
  {
    if col == [] then None
    else if col[0] >= 1.0 then Some(0)
    else match FirstAtLeastOne(col[1..])
      case None => None
      case Some(j) => Some(j + 1)
  }

  /** The first index whose value exceeds `bound`. */
  function FirstAbove(col: seq<real>, bound: real): (r: Option<nat>)
    ensures r.Some? ==> r.value < |col| && col[r.value] > bound && forall j :: 0 <= j < r.value ==> col[j] <= bound
    ensures r.None? ==> forall j :: 0 <= j < |col| ==> col[j] <= bound
  {
    if col == [] then None
    else if col[0] > bound then Some(0)
    else match FirstAbove(col[1..], bound)
      case None => None
      case Some(j) => Some(j + 1)
  }

  /** The last index whose value is below `bound`. */
  function LastBelow(col: seq<real>, bound: real): (r: Option<nat>)
    ensures r.Some? ==> r.value < |col| && col[r.value] < bound && forall j :: r.value < j < |col| ==> col[j] >= bound
    ensures r.None? ==> forall j :: 0 <= j < |col| ==> col[j] >= bound
  {
    if col == [] then None
    else if col[|col| - 1] < bound then Some(|col| - 1)
    else LastBelow(col[..|col| - 1], bound)
  }

  /** The warm-up scan on column 1: one past the last step below 1, or 0.
      Its result is overwritten before use. */
  function WarmupStart(col: seq<real>): (r: nat)
    ensures r <= |col|
    ensures r > 0 ==> r < |col| && col[r] - col[r - 1] < 1.0
    ensures forall j :: r <= j < |col| - 1 ==> col[j + 1] - col[j] >= 1.0
  {
    if |col| <= 1 then 0
    else if col[|col| - 1] - col[|col| - 2] < 1.0 then |col| - 1
    else WarmupStart(col[..|col| - 1])
  }

  /** How `Data.__init__` fails: no debug value reaches 1, no timestamp
      passes the mark by 10000, no timestamp is 10000 before the last;
      or the loader raised. */
  datatype E2EError = NoMark | NoStart | NoEnd | LoaderFailed(cause: LoaderError)

  const SkipMillis := 10000.0

  /** The first row of the window. */
  function WindowStart(table: seq<seq<real>>, width: nat): (r: Result<nat, E2EError>)
    requires table != [] && width >= 2 && Rectangular(table, width)
    ensures r.Ok? ==> r.value < |table|
  {
    var ts := Column(table, width, 0);
    match FirstAtLeastOne(Column(table, width, width - 1))
    case None => Err(NoMark)
    case Some(mark) =>
      match FirstAbove(ts, ts[mark] + SkipMillis)
      case None => Err(NoStart)
      case Some(start) =>
        match LastBelow(ts, ts[|ts| - 1] - SkipMillis)
        case None => Err(NoEnd)
        case Some(_) => Ok(start)
  }

  /** The window an anchor row `base` defines: every column minus the
      anchor's, timestamps then in thousands. */
  function Rebased(rows: seq<seq<real>>, width: nat, base: seq<real>): (r: seq<seq<real>>)
    requires Rectangular(rows, width) && |base| == width
    ensures |r| == |rows| && Rectangular(r, width)
  {
    seq(|rows|, i requires 0 <= i < |rows| =>
      seq(width, c requires 0 <= c < width => if c == 0 then (rows[i][c] - base[c]) / 1000.0 else rows[i][c] - base[c]))
  }

  /** The table `Data.__init__` keeps: from the window start to the end,
      re-based on the first kept row. */
  function Window(table: seq<seq<real>>, width: nat): (r: Result<seq<seq<real>>, E2EError>)
    requires table != [] && width >= 2 && Rectangular(table, width)
    ensures r.Ok? ==> |r.value| > 0 && Rectangular(r.value, width)
  {
    var start :- WindowStart(table, width);
    Ok(Rebased(table[start..], width, table[start]))
  }

  /** The window fails exactly when one of the three searches finds nothing. */
  lemma WindowFails(table: seq<seq<real>>, width: nat)
    requires table != [] && width >= 2 && Rectangular(table, width)
    ensures var ts := Column(table, width, 0);
      && (Window(table, width) == Err(NoMark) <==> FirstAtLeastOne(Column(table, width, width - 1)).None?)
      && (Window(table, width).Err? <==>
          || FirstAtLeastOne(Column(table, width, width - 1)).None?
          || FirstAbove(ts, ts[FirstAtLeastOne(Column(table, width, width - 1)).value] + SkipMillis).None?
          || LastBelow(ts, ts[|ts| - 1] - SkipMillis).None?)
  {
  }

  /** The kept rows run from the first timestamp past the mark plus 10000
      to the last row; the first kept row becomes all zeros, and every kept
      value is its difference from that row, timestamps in thousands. */
  lemma WindowShape(table: seq<seq<real>>, width: nat)
    requires table != [] && width >= 2 && Rectangular(table, width)
    requires Window(table, width).Ok?
    ensures var w, start := Window(table, width).value, WindowStart(table, width).value;
      && |w| == |table| - start
      && table[start][0] > table[FirstAtLeastOne(Column(table, width, width - 1)).value][0] + SkipMillis
      && (forall j :: 0 <= j < start ==> table[j][0] <= table[FirstAtLeastOne(Column(table, width, width - 1)).value][0] + SkipMillis)
      && (forall c :: 0 <= c < width ==> w[0][c] == 0.0)
      && (forall i :: 0 <= i < |w| ==> w[i][0] * 1000.0 == table[start + i][0] - table[start][0])
      && (forall i, c :: 0 <= i < |w| && 1 <= c < width ==> w[i][c] == table[start + i][c] - table[start][c])
  {
    var start := WindowStart(table, width).value;
    var ts := Column(table, width, 0);
    var mark := FirstAtLeastOne(Column(table, width, width - 1)).value;
    assert FirstAbove(ts, ts[mark] + SkipMillis) == Some(start);
  }

  /** Re-basing keeps neighbouring timestamps apart. */
  lemma WindowTimestampsDiffer(table: seq<seq<real>>, width: nat)
    requires table != [] && width >= 2 && Rectangular(table, width)
    requires Window(table, width).Ok?
    requires forall i :: 0 <= i < |table| - 1 ==> table[i][0] != table[i + 1][0]
    ensures var w := Window(table, width).value;
      forall i :: 0 <= i < |w| - 1 ==> w[i][0] != w[i + 1][0]
  {
    var w, start := Window(table, width).value, WindowStart(table, width).value;
    forall i | 0 <= i < |w| - 1 ensures w[i][0] != w[i + 1][0] {
      assert table[start + i][0] != table[start + i + 1][0];
    }
  }

  // ---------------------------------------------------------------------------
  // Rates and means on columns

  /** Neighbouring values differ, so every step can divide. */
  predicate DistinctSteps(t: seq<real>) {
    forall i :: 0 <= i < |t| - 1 ==> t[i + 1] - t[i] != 0.0
  }

  /** Each step of column `a` divided by the matching step of the
      timestamps `t`. */
  function RateOf(a: seq<real>, t: seq<real>): (r: seq<real>)
    requires |a| == |t| && DistinctSteps(t)
    ensures |r| == |Steps(a)|
    ensures forall i :: 0 <= i < |r| ==> r[i] == Steps(a)[i] / Steps(t)[i]
  {
    if |a| <= 1 then []
    else seq(|a| - 1, i requires 0 <= i < |a| - 1 => (a[i + 1] - a[i]) / (t[i + 1] - t[i]))
  }

  /** `A[-1] / T[-1]`. */
  function MeanOf(a: seq<real>, t: seq<real>): (m: real)
    requires |a| == |t| > 0 && t[|t| - 1] != 0.0
    ensures m * t[|t| - 1] == a[|a| - 1]
  {
    a[|a| - 1] / t[|t| - 1]
  }

  /** Each rate times the length of its time step. */
  function Weighted(r: seq<real>, d: seq<real>): (w: seq<real>)
    requires |r| == |d|
    ensures |w| == |r|
    ensures forall i :: 0 <= i < |w| ==> w[i] == r[i] * d[i]
  {
    seq(|r|, i requires 0 <= i < |r| => r[i] * d[i])
  }

  lemma DivTimes(r: real, x: real, y: real)
    requires y != 0.0 && r == x / y
    ensures r * y == x
  {
  }

  /** The rates, weighted by their time steps, give back the column's steps
      and so add up to its change over the window. */
  lemma RatesAddUp(a: seq<real>, t: seq<real>)
    requires |a| == |t| > 0 && DistinctSteps(t)
    ensures Weighted(RateOf(a, t), Steps(t)) == Steps(a)
    ensures Sum(Weighted(RateOf(a, t), Steps(t))) == a[|a| - 1] - a[0]
  {
    var w := Weighted(RateOf(a, t), Steps(t));
    forall i | 0 <= i < |w| ensures w[i] == Steps(a)[i] {
      WeightedRate(a, t, i);
    }
    assert w == Steps(a);
    StepsTelescope(a);
  }

  /** One weighted rate is the column's step. */
  lemma WeightedRate(a: seq<real>, t: seq<real>, i: nat)
    requires |a| == |t| && DistinctSteps(t) && i < |a| - 1
    ensures Weighted(RateOf(a, t), Steps(t))[i] == Steps(a)[i]
  {
    RateTimesStep(a, t, i);
  }

  /** A rate times its time step is the column's step. */
  lemma RateTimesStep(a: seq<real>, t: seq<real>, i: nat)
    requires |a| == |t| && DistinctSteps(t) && i < |a| - 1
    ensures RateOf(a, t)[i] * Steps(t)[i] == Steps(a)[i]
  {
    StepNonZero(t, i);
    RateAt(a, t, i);
    QuotientTimes(RateOf(a, t), Steps(a), Steps(t), i);
  }

  lemma StepNonZero(t: seq<real>, i: nat)
    requires DistinctSteps(t) && i < |t| - 1
    ensures Steps(t)[i] != 0.0
  {
  }

  lemma RateAt(a: seq<real>, t: seq<real>, i: nat)
    requires |a| == |t| && DistinctSteps(t) && i < |a| - 1
    ensures RateOf(a, t)[i] == Steps(a)[i] / Steps(t)[i]
  {
  }

  /** Entry i of a quotient column times the divisor gives back the dividend. */
  lemma QuotientTimes(q: seq<real>, x: seq<real>, y: seq<real>, i: nat)
    requires i < |q| && i < |x| && i < |y| && y[i] != 0.0 && q[i] == x[i] / y[i]
    ensures q[i] * y[i] == x[i]
  {
    DivTimes(q[i], x[i], y[i]);
  }

  /** On a re-based window (first row zero), the mean is the change of the
      column over the whole window divided by the time it spans. */
  lemma MeanIsTotalOverSpan(a: seq<real>, t: seq<real>)
    requires |a| == |t| > 0 && a[0] == 0.0 && t[0] == 0.0 && t[|t| - 1] != 0.0 && DistinctSteps(t)
    ensures Sum(Steps(t)) != 0.0 && MeanOf(a, t) == Sum(Steps(a)) / Sum(Steps(t))
  {
    StepsTelescope(a);
    StepsTelescope(t);
  }

  // ---------------------------------------------------------------------------
  // The Data object

  /** `a` holds `rows` column by column: `a[c, i]` is `rows[i][c]`. */
  ghost predicate Holds(a: array2<real>, rows: seq<seq<real>>, width: nat)
    reads a
  {
    && a.Length0 == width && a.Length1 == |rows| && Rectangular(rows, width)
    && forall c, i :: 0 <= c < width && 0 <= i < |rows| ==> a[c, i] == rows[i][c]
  }

  class Data {
    /** False for an empty table: `__init__` returned before setting `data`. */
    var loaded: bool
    /** `self.data`, indexed by column, then row. */
    var data: array2<real>

    constructor (loaded: bool, data: array2<real>)
      ensures this.loaded == loaded && this.data == data
    {
      this.loaded := loaded;
      this.data := data;
    }

    /** `Data(table)`: the window of a table of rows of `width` columns. */
    static method Create(table: seq<seq<real>>, width: nat) returns (r: Result<Data, E2EError>)
      requires width >= 2 && Rectangular(table, width)
      ensures table == [] ==> r.Ok? && !r.value.loaded
      ensures table != [] ==> (r.Err? <==> Window(table, width).Err?)
      ensures table != [] && r.Err? ==> r.error == Window(table, width).error
      ensures table != [] && r.Ok? ==> r.value.loaded && Holds(r.value.data, Window(table, width).value, width)
    {
      if |table| == 0 {
        var empty := new real[0, 0];
        var d := new Data(false, empty);
        return Ok(d);
      }
      // The warm-up scan on column 1; `start_index` is computed again below.
      var warmup := WarmupStart(Column(table, width, 1));
      var window := WindowStart(table, width);
      if window.Err? {
        return Err(window.error);
      }
      var start := window.value;
      var rows := table[start..];
      var a := Copy(rows, width);
      Rebase(a, rows, width);
      ScaleTimestamps(a, rows, width);
      assert Holds(a, Rebased(rows, width, rows[0]), width);
      var d := new Data(true, a);
      return Ok(d);
    }

    /** The sliced rows as a column by column array (numpy's view of them). */
    static method Copy(rows: seq<seq<real>>, width: nat) returns (a: array2<real>)
      requires Rectangular(rows, width)
      ensures fresh(a) && Holds(a, rows, width)
    {
      var n := |rows|;
      a := new real[width, n];
      var i := 0;
      while i < n
        invariant 0 <= i <= n
        invariant forall c, k :: 0 <= c < width && 0 <= k < i ==> a[c, k] == rows[k][c]
      {
        var c := 0;
        while c < width
          invariant 0 <= c <= width
          invariant forall c', k :: 0 <= c' < width && 0 <= k < i ==> a[c', k] == rows[k][c']
          invariant forall c' :: 0 <= c' < c ==> a[c', i] == rows[i][c']
        {
          a[c, i] := rows[i][c];
          c := c + 1;
        }
        i := i + 1;
      }
    }

    /** `data -= data[0]`: every row minus the first one, in place. */
    static method Rebase(a: array2<real>, rows: seq<seq<real>>, width: nat)
      requires Holds(a, rows, width) && rows != []
      modifies a
      ensures forall c, k :: 0 <= c < width && 0 <= k < |rows| ==> a[c, k] == rows[k][c] - rows[0][c]
    {
      var n := |rows|;
      var base := rows[0];
      var i := 0;
      while i < n
        invariant 0 <= i <= n
        invariant forall c, k :: 0 <= c < width && 0 <= k < i ==> a[c, k] == rows[k][c] - base[c]
        invariant forall c, k :: 0 <= c < width && i <= k < n ==> a[c, k] == rows[k][c]
      {
        var c := 0;
        while c < width
          invariant 0 <= c <= width
          invariant forall c', k :: 0 <= c' < width && 0 <= k < i ==> a[c', k] == rows[k][c'] - base[c']
          invariant forall c', k :: 0 <= c' < width && i < k < n ==> a[c', k] == rows[k][c']
          invariant forall c' :: 0 <= c' < c ==> a[c', i] == rows[i][c'] - base[c']
          invariant forall c' :: c <= c' < width ==> a[c', i] == rows[i][c']
        {
          a[c, i] := a[c, i] - base[c];
          c := c + 1;
        }
        i := i + 1;
      }
    }

    /** `data[0] /= 1e3`: timestamps in thousands, in place. */
    static method ScaleTimestamps(a: array2<real>, rows: seq<seq<real>>, width: nat)
      requires a.Length0 == width >= 1 && a.Length1 == |rows| && Rectangular(rows, width) && rows != []
      requires forall c, k :: 0 <= c < width && 0 <= k < |rows| ==> a[c, k] == rows[k][c] - rows[0][c]
      modifies a
      ensures Holds(a, Rebased(rows, width, rows[0]), width)
    {
      var n := |rows|;
      var i := 0;
      while i < n
        invariant 0 <= i <= n
        invariant forall c, k :: 1 <= c < width && 0 <= k < n ==> a[c, k] == rows[k][c] - rows[0][c]
        invariant forall k :: 0 <= k < i ==> a[0, k] == (rows[k][0] - rows[0][0]) / 1000.0
        invariant forall k :: i <= k < n ==> a[0, k] == rows[k][0] - rows[0][0]
      {
        a[0, i] := a[0, i] / 1000.0;
        i := i + 1;
      }
    }

    /** `self.data[col]`. */
    function Col(col: nat): (r: seq<real>)
      reads this, data
      requires col < data.Length0
      ensures |r| == data.Length1 && forall i :: 0 <= i < |r| ==> r[i] == data[col, i]
    {
      var a := data;
      seq(a.Length1, i requires 0 <= i < a.Length1 reads a => a[col, i])
    }

    /** The `timestamp` property: column 0. */
    function Timestamp(): (r: seq<real>)
      reads this, data
      requires loaded && data.Length0 > 0
      ensures |r| == data.Length1 && forall i :: 0 <= i < |r| ==> r[i] == data[0, i]
    {
      Col(0)
    }

    /** `rate(col)`: the change of a column per unit of time, step by step. */
    function Rate(col: nat): (r: seq<real>)
      reads this, data
      requires loaded && col < data.Length0 && DistinctSteps(Col(0))
      ensures |r| == (if data.Length1 == 0 then 0 else data.Length1 - 1)
      ensures forall i :: 0 <= i < |r| ==> r[i] == Steps(Col(col))[i] / Steps(Col(0))[i]
    {
      RateOf(Col(col), Col(0))
    }

    /** `mean(col)`: the last value of a column over the last timestamp. */
    function Mean(col: nat): (m: real)
      reads this, data
      requires loaded && col < data.Length0 && data.Length1 > 0 && data[0, data.Length1 - 1] != 0.0
      ensures m * data[0, data.Length1 - 1] == data[col, data.Length1 - 1]
    {
      MeanOf(Col(col), Col(0))
    }

    /** `tps`: the rate of column 1. */
    function Tps(): (r: seq<real>)
      reads this, data
      requires loaded && data.Length0 > 1 && DistinctSteps(Col(0))
      ensures |r| == (if data.Length1 == 0 then 0 else data.Length1 - 1)
      ensures forall i :: 0 <= i < |r| ==> r[i] == Steps(Col(1))[i] / Steps(Col(0))[i]
    {
      Rate(1)
    }

    /** `mean_tps`: the mean of column 1. */
    function MeanTps(): (m: real)
      reads this, data
      requires loaded && data.Length0 > 1 && data.Length1 > 0 && data[0, data.Length1 - 1] != 0.0
      ensures m * data[0, data.Length1 - 1] == data[1, data.Length1 - 1]
    {
      Mean(1)
    }
  }

  // ===========================================================================
  // load

  /** load(ty, size, ...) on the lines of its metrics file. */
  method Load(lines: seq<string>) returns (r: Result<Data, E2EError>)
    ensures Outcome(lines).1.Some? ==> r == Err(LoaderFailed(Outcome(lines).1.value))
    ensures Outcome(lines).1.None? && Table(Outcome(lines).0).None? ==> r == Err(NoMark)
    ensures Outcome(lines).1.None? && Table(Outcome(lines).0).Some? ==>
      (r.Err? <==> Window(Table(Outcome(lines).0).value, Width).Err?)
    ensures r.Ok? ==>
      (&& Table(Outcome(lines).0).Some? && Table(Outcome(lines).0).value != []
       && Window(Table(Outcome(lines).0).value, Width).Ok?
       && r.value.loaded
       && Holds(r.value.data, Window(Table(Outcome(lines).0).value, Width).value, Width)
       && DistinctSteps(r.value.Col(0)))
  {
    var records, error := MetricsLoader(lines);
    if error.Some? {
      return Err(LoaderFailed(error.value));
    }
    var table := Table(records);
    if table.None? {
      // a record without a timestamp is the single record of an empty scan,
      // whose debug column is 0: the mark search finds nothing
      return Err(NoMark);
    }
    var t := table.value;
    RecordsAreGroups(lines);
    assert Rectangular(t, Width);
    r := Data.Create(t, Width);
    if r.Ok? {
      TableTimestampsDiffer(lines);
      WindowTimestampsDiffer(t, Width);
      HeldTimestampsDiffer(r.value, Window(t, Width).value);
    }
  }

  /** Column 0 of an object holding rows whose adjacent timestamps differ
      has no zero step. */
  lemma HeldTimestampsDiffer(d: Data, w: seq<seq<real>>)
    requires Holds(d.data, w, Width)
    requires forall i :: 0 <= i < |w| - 1 ==> w[i][0] != w[i + 1][0]
    ensures DistinctSteps(d.Col(0))
  {
    var col := d.Col(0);
    forall i | 0 <= i < |col| - 1 ensures col[i + 1] - col[i] != 0.0 {
      assert col[i] == w[i][0] && col[i + 1] == w[i + 1][0];
    }
  }
}
