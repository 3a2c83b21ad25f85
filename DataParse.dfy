/** The authenticated-storage benchmark log parser (data_parse.py): number
    conversion, the line recognisers, the summary/statistics state machine,
    the log-path naming scheme and the steady-state `Data` view. */
module DataParse {
  import opened Common

  /** TOTAL_EPOCH: a run has epochs 0 .. 199; the steady window is its second half. */
  const TotalEpoch: int := 200

  // ===========================================================================
  // to_float: delete every ',' and ' ', then read a decimal number.

  predicate IsSeparator(c: char) {
    c == ',' || c == ' '
  }

  /** `input` with every comma and space deleted, the rest kept in order. */
  function Strip(input: string): (r: string)
    ensures |r| <= |input|
    ensures forall i :: 0 <= i < |r| ==> !IsSeparator(r[i])
  {
    if input == [] then []
    else
      var rest := Strip(input[1..]);
      if IsSeparator(input[0]) then rest else [input[0]] + rest
  }

  lemma {:induction false} StripConcat(a: string, b: string)
    ensures Strip(a + b) == Strip(a) + Strip(b)
  {
    if a != [] {
      assert (a + b)[0] == a[0] && (a + b)[1..] == a[1..] + b;
      StripConcat(a[1..], b);
      if !IsSeparator(a[0]) {
        assert [a[0]] + (Strip(a[1..]) + Strip(b)) == ([a[0]] + Strip(a[1..])) + Strip(b);
      }
    } else {
      assert a + b == b;
    }
  }

  /** A string without separators is left as it is. */
  lemma {:induction false} StripClean(s: string)
    requires forall i :: 0 <= i < |s| ==> !IsSeparator(s[i])
    ensures Strip(s) == s
  {
    if s != [] {
      StripClean(s[1..]);
    }
  }

  /** The first index of `c` in `s`, if any. */
  function IndexOf(s: string, c: char): (r: Option<nat>)
    ensures r.Some? ==> r.value < |s| && s[r.value] == c && c !in s[..r.value]
    ensures r.None? ==> c !in s
  {
    if s == [] then None
    else if s[0] == c then Some(0)
    else match IndexOf(s[1..], c)
      case None => None
      case Some(k) => assert s[..k + 1] == [s[0]] + s[1..][..k]; Some(k + 1)
  }

  /** The strings Python's `float` reads here: digits with at most one '.'
      and at least one digit. */
  predicate IsUnsignedDecimal(t: string) {
    && (forall i :: 0 <= i < |t| ==> IsDigit(t[i]) || t[i] == '.')
    && multiset(t)['.'] <= 1
    && (exists i :: 0 <= i < |t| && IsDigit(t[i]))
  }

  /** The value of an unsigned decimal: whole part plus fraction. */
  function UnsignedDecimal(t: string): Option<real> {
    match IndexOf(t, '.')
    case None =>
      if t != [] && AllDigits(t) then Some(DigitsValue(t) as real) else None
    case Some(k) =>
      var whole, frac := t[..k], t[k + 1..];
      if |whole| + |frac| > 0 && AllDigits(whole) && AllDigits(frac)
      then Some(DigitsValue(whole) as real + DigitsValue(frac) as real / Pow10(|frac|) as real)
      else None
  }

  /** Splitting at the first dot: the dot-count and digit conditions of
      the whole string in terms of the two sides. */
  lemma DotSplit(t: string, k: nat)
    requires k < |t| && t[k] == '.' && '.' !in t[..k]
    ensures t == t[..k] + ['.'] + t[k + 1..]
    ensures multiset(t)['.'] == 1 + multiset(t[k + 1..])['.']
  {
    assert t == t[..k] + ['.'] + t[k + 1..];
    assert multiset(t) == multiset(t[..k]) + multiset{'.'} + multiset(t[k + 1..]);
  }

  lemma DottedAccepted(t: string, k: nat)
    requires k < |t| && t[k] == '.' && '.' !in t[..k]
    requires |t| > 1 && AllDigits(t[..k]) && AllDigits(t[k + 1..])
    ensures IsUnsignedDecimal(t)
  {
    DotSplit(t, k);
    var frac := t[k + 1..];
    forall i | 0 <= i < |t| ensures IsDigit(t[i]) || t[i] == '.' {
      if i < k { assert t[i] == t[..k][i]; } else if i > k { assert t[i] == frac[i - k - 1]; }
    }
    if k > 0 { assert IsDigit(t[..k][0]); } else { assert IsDigit(frac[0]); }
  }

  lemma DottedDecimal(t: string, k: nat)
    requires k < |t| && t[k] == '.' && '.' !in t[..k]
    requires IsUnsignedDecimal(t)
    ensures |t| > 1 && AllDigits(t[..k]) && AllDigits(t[k + 1..])
  {
    DotSplit(t, k);
    var frac := t[k + 1..];
    assert multiset(frac)['.'] == 0;
    forall i | 0 <= i < |frac| ensures IsDigit(frac[i]) {
      assert frac[i] == t[k + 1 + i];
      assert frac[i] in multiset(frac);
    }
    forall i | 0 <= i < k ensures IsDigit(t[..k][i]) {
      assert t[..k][i] == t[i];
    }
    var i :| 0 <= i < |t| && IsDigit(t[i]);
    assert i != k;
  }

  /** The decimal reader accepts exactly the digit strings with at most one
      dot and at least one digit. */
  lemma UnsignedDecimalAccepts(t: string)
    ensures UnsignedDecimal(t).Some? <==> IsUnsignedDecimal(t)
  {
    match IndexOf(t, '.')
    case None =>
      assert multiset(t)['.'] == 0;
      if t != [] && AllDigits(t) {
        assert IsDigit(t[0]);
      }
    case Some(k) =>
      if IsUnsignedDecimal(t) {
        DottedDecimal(t, k);
      }
      if |t| > 1 && AllDigits(t[..k]) && AllDigits(t[k + 1..]) {
        DottedAccepted(t, k);
      }
  }

  /** Python's `float` on the stripped text: an optional sign, then an
      unsigned decimal. */
  function ParseFloat(t: string): Option<real> {
    if t != [] && t[0] == '-' then
      match UnsignedDecimal(t[1..])
      case Some(v) => Some(-v)
      case None => None
    else if t != [] && t[0] == '+' then UnsignedDecimal(t[1..])
    else UnsignedDecimal(t)
  }

  /** to_float: `None` stands for the ValueError `float` raises. */
  function ToFloat(input: string): Option<real> {
    ParseFloat(Strip(input))
  }

  /** to_float succeeds exactly when, after deleting commas and spaces, an
      optional sign is followed by an unsigned decimal. */
  lemma ToFloatAccepts(input: string)
    ensures var t := Strip(input);
      ToFloat(input).Some? <==> IsUnsignedDecimal(if t != [] && (t[0] == '+' || t[0] == '-') then t[1..] else t)
  {
    var t := Strip(input);
    UnsignedDecimalAccepts(t);
    if t != [] {
      UnsignedDecimalAccepts(t[1..]);
    }
  }

  /** A rendered natural number reads back as itself. */
  lemma ToFloatNat(n: nat)
    ensures ToFloat(NatToString(n)) == Some(n as real)
  {
    var s := NatToString(n);
    StripClean(s);
    NatToStringValue(n);
    assert '.' !in s;
  }

  lemma StripDropsSeparator(a: string, c: char, b: string)
    requires IsSeparator(c)
    ensures Strip(a + [c] + b) == Strip(a + b)
  {
    StripConcat(a + [c], b);
    StripConcat(a, [c]);
    StripConcat(a, b);
    assert Strip([c]) == [];
  }

  /** Commas and spaces anywhere in the text do not change the number. */
  lemma ToFloatIgnoresSeparator(a: string, c: char, b: string)
    requires IsSeparator(c)
    ensures ToFloat(a + [c] + b) == ToFloat(a + b)
  {
    StripDropsSeparator(a, c, b);
  }

  lemma StripExample()
    ensures Strip(" 1,234 ") == "1234"
  {
    assert Strip(" ") == "";
    assert Strip("4 ") == "4";
    assert Strip("34 ") == "34";
    assert Strip("234 ") == "234";
    assert Strip(",234 ") == "234";
    assert Strip("1,234 ") == "1234";
  }

  lemma DigitsExample()
    ensures DigitsValue("1234") == 1234
  {
    assert "1234"[..3] == "123" && "123"[..2] == "12" && "12"[..1] == "1";
    assert DigitsValue("12") == 12;
  }

  /** The worked example: separators around and inside the digits. */
  lemma ToFloatExample()
    ensures ToFloat(" 1,234 ") == Some(1234.0)
  {
    StripExample();
    DigitsExample();
    assert IndexOf("1234", '.') == None;
  }

  // ===========================================================================
  // Recognisers. Every character class and literal of the patterns excludes
  // '\n', and `.` stops at it, so each pattern is matched against Head(line).

  const Spaces := CharClass(true, false, false, false)
  const Digits := CharClass(false, false, false, true)
  const SpaceDigits := CharClass(true, false, false, true)             // [ \d]
  const SpaceDotDigits := CharClass(true, false, true, true)           // [ \.\d]
  const SpaceCommaDigits := CharClass(true, true, false, true)         // [ \d,] and [ ,\d]
  const SpaceCommaDotDigits := CharClass(true, true, true, true)       // [ ,\.\d]

  /** Trying run ends j, j-1, ..., i+min: the first after which `lit` occurs. */
  function Backtrack(s: string, i: nat, j: nat, min: nat, lit: string): (r: Option<nat>)
    requires i <= j <= |s|
    ensures r.Some? ==> i + min <= r.value <= j && LitAt(s, r.value, lit)
    ensures r.Some? ==> forall k :: r.value < k <= j ==> !LitAt(s, k, lit)
    ensures r.None? ==> forall k :: i + min <= k <= j ==> !LitAt(s, k, lit)
    decreases j
  {
    if j < i + min then None
    else if LitAt(s, j, lit) then Some(j)
    else if j == i then None
    else Backtrack(s, i, j - 1, min, lit)
  }

  /** How a greedy `[cls]{min,}` followed by `lit` splits `s`: the run is the
      longest that is at least `min` long and that `lit` follows. */
  function Split(s: string, cls: CharClass, min: nat, lit: string): (r: Option<(string, string)>)
    ensures r.Some? ==> |r.value.0| >= min && AllIn(r.value.0, cls) && s == r.value.0 + lit + r.value.1
  {
    var e := RunEnd(s, 0, cls);
    match Backtrack(s, 0, e, min, lit)
    case None => None
    case Some(j) =>
      assert s == s[..j] + s[j..j + |lit|] + s[j + |lit|..];
      Some((s[..j], s[j + |lit|..]))
  }

  /** `lit` reaches a character outside `cls` after a (possibly empty) prefix
      of `cls` characters; every literal that follows a class run in the
      source's patterns has this shape. */
  predicate Anchored(lit: string, cls: CharClass, t: nat) {
    t < |lit| && !InClass(lit[t], cls) && forall u :: 0 <= u < t ==> InClass(lit[u], cls)
  }

  /** For an anchored literal the split is the only one the pattern admits,
      so the longest-run choice agrees with backtracking: whatever `g` the
      text was built from, `Split` recovers it. */
  lemma SplitUnique(g: string, lit: string, rest: string, cls: CharClass, min: nat, t: nat)
    requires AllIn(g, cls) && |g| >= min && Anchored(lit, cls, t)
    ensures Split(g + lit + rest, cls, min, lit) == Some((g, rest))
  {
    var s := g + lit + rest;
    var e := RunEnd(s, 0, cls);
    assert s[|g| + t] == lit[t];
    assert forall k :: 0 <= k < |g| + t ==> InClass(s[k], cls) by {
      forall k | 0 <= k < |g| + t ensures InClass(s[k], cls) {
        if k < |g| { assert s[k] == g[k]; } else { assert s[k] == lit[k - |g|]; }
      }
    }
    RunEndMaximal(s, 0, cls, |g| + t);
    assert e == |g| + t;
    assert s[|g|..|g| + |lit|] == lit;
    assert LitAt(s, |g|, lit);
    var r := Backtrack(s, 0, e, min, lit);
    assert r.Some?;
    var j := r.value;
    if j > |g| {
      // a later split would put a class character of lit where s has lit[t]
      assert false;
    }
    assert s[..|g|] == g;
    assert s[|g| + |lit|..] == rest;
  }

  /** The five captured groups of a summary line, as text. */
  datatype SummaryFields = SummaryFields(epoch: string, time: string, ops: string, ra: string, wa: string)

  /** One `([cls]{min,})lit` element of a pattern. */
  datatype Piece = Piece(cls: CharClass, min: nat, lit: string)

  /** The groups of consecutive pieces, matched from the start of `s`. */
  function MatchPieces(s: string, ps: seq<Piece>): (r: Option<seq<string>>)
    ensures r.Some? ==> |r.value| == |ps|
    decreases |ps|
  {
    if ps == [] then Some([])
    else
      var p :- Split(s, ps[0].cls, ps[0].min, ps[0].lit);
      var gs :- MatchPieces(p.1, ps[1..]);
      Some([p.0] + gs)
  }

  /** The text the pieces describe for the given groups. */
  function Render(gs: seq<string>, ps: seq<Piece>): string
    requires |gs| == |ps|
    decreases |ps|
  {
    if ps == [] then [] else gs[0] + ps[0].lit + Render(gs[1..], ps[1..])
  }

  /** Each group has its piece's characters and minimum width. */
  predicate Fits(gs: seq<string>, ps: seq<Piece>) {
    |gs| == |ps| && forall i :: 0 <= i < |ps| ==> |gs[i]| >= ps[i].min && AllIn(gs[i], ps[i].cls)
  }

  /** Piece `i`'s literal stops the run before it at offset `ts[i]`. */
  predicate AnchoredAt(ps: seq<Piece>, ts: seq<nat>) {
    |ts| == |ps| && forall i :: 0 <= i < |ps| ==> Anchored(ps[i].lit, ps[i].cls, ts[i])
  }

  /** Each group the pieces accept has its piece's characters and width. */
  lemma {:induction false} MatchPiecesFits(s: string, ps: seq<Piece>)
    requires MatchPieces(s, ps).Some?
    ensures Fits(MatchPieces(s, ps).value, ps)
    decreases |ps|
  {
    if ps != [] {
      var p := Split(s, ps[0].cls, ps[0].min, ps[0].lit).value;
      MatchPiecesFits(p.1, ps[1..]);
      var gs := MatchPieces(p.1, ps[1..]).value;
      var all := [p.0] + gs;
      forall i | 0 <= i < |ps| ensures |all[i]| >= ps[i].min && AllIn(all[i], ps[i].cls) {
        if i > 0 { assert all[i] == gs[i - 1] && ps[i] == ps[1..][i - 1]; }
      }
    }
  }

  /** What the pieces accept is their rendered text, followed by whatever
      the pattern leaves unread. */
  lemma {:induction false} MatchPiecesPrefix(s: string, ps: seq<Piece>)
    requires MatchPieces(s, ps).Some?
    ensures Render(MatchPieces(s, ps).value, ps) <= s
    decreases |ps|
  {
    if ps != [] {
      var p := Split(s, ps[0].cls, ps[0].min, ps[0].lit).value;
      MatchPiecesPrefix(p.1, ps[1..]);
      var gs := MatchPieces(p.1, ps[1..]).value;
      var all := [p.0] + gs;
      assert all[1..] == gs;
      var head := p.0 + ps[0].lit;
      var r := Render(gs, ps[1..]);
      assert Render(all, ps) == head + r;
      assert s == head + p.1;
      assert p.1[..|r|] == r;
      assert (head + p.1)[..|head| + |r|] == head + p.1[..|r|];
    }
  }

  lemma FitsTail(gs: seq<string>, ps: seq<Piece>)
    requires Fits(gs, ps) && ps != []
    ensures Fits(gs[1..], ps[1..])
  {
    forall i | 0 <= i < |ps| - 1 ensures |gs[1..][i]| >= ps[1..][i].min && AllIn(gs[1..][i], ps[1..][i].cls) {
      assert gs[1..][i] == gs[i + 1] && ps[1..][i] == ps[i + 1];
    }
  }

  /** Rendered text of anchored pieces is matched back to its own groups. */
  lemma {:induction false} MatchPiecesComplete(gs: seq<string>, ps: seq<Piece>, ts: seq<nat>, tail: string)
    requires Fits(gs, ps) && AnchoredAt(ps, ts)
    ensures MatchPieces(Render(gs, ps) + tail, ps) == Some(gs)
    decreases |ps|
  {
    if ps != [] {
      var rest := Render(gs[1..], ps[1..]) + tail;
      var s := Render(gs, ps) + tail;
      assert s == gs[0] + ps[0].lit + rest;
      assert |gs[0]| >= ps[0].min && AllIn(gs[0], ps[0].cls);
      SplitUnique(gs[0], ps[0].lit, rest, ps[0].cls, ps[0].min, ts[0]);
      FitsTail(gs, ps);
      assert AnchoredAt(ps[1..], ts[1..]) by {
        forall i | 0 <= i < |ps| - 1 ensures Anchored(ps[1..][i].lit, ps[1..][i].cls, ts[1..][i]) {
          assert ps[1..][i] == ps[i + 1] && ts[1..][i] == ts[i + 1];
        }
      }
      MatchPiecesComplete(gs[1..], ps[1..], ts[1..], tail);
      assert [gs[0]] + gs[1..] == gs;
    }
  }

  /** The summary pattern (data_parse.py:9) as seven pieces, each a run of
      a character class with a minimum width and the literal that ends it: epoch,
      time, ops, the us/op figure, the empty-reads figure and the two
      amplifications. The fourth and fifth runs are not captured, and the
      final `.*` accepts anything. */
  const SummaryPieces: seq<Piece> := [
    Piece(SpaceDigits, 6, ": "),
    Piece(SpaceDotDigits, 7, " s > "),
    Piece(SpaceCommaDigits, 7, " ops, "),
    Piece(SpaceDotDigits, 7, " us/op, "),
    Piece(SpaceCommaDigits, 5, " empty reads > Read amp "),
    Piece(SpaceCommaDotDigits, 6, ", Write amp "),
    Piece(SpaceCommaDotDigits, 6, " > ")
  ]

  /** Where each literal of the summary pattern stops the run before it. */
  const SummaryAnchors: seq<nat> := [0, 1, 1, 1, 1, 2, 1]

  lemma SummaryPiecesAnchored()
    ensures AnchoredAt(SummaryPieces, SummaryAnchors)
  {
  }

  /** All seven runs of a summary line: the captured five and, between
      them, the us/op text `u` and the empty-reads text `e`. */
  function SummaryGroups(f: SummaryFields, u: string, e: string): seq<string> {
    [f.epoch, f.time, f.ops, u, e, f.ra, f.wa]
  }

  /** `re.match(pattern, line)` on the summary pattern, returning its groups. */
  function MatchSummary(h: string): Option<SummaryFields> {
    var gs :- MatchPieces(h, SummaryPieces);
    Some(SummaryFields(gs[0], gs[1], gs[2], gs[5], gs[6]))
  }

  /** What the summary recogniser accepts has the pattern's shape: its
      fields, with some us/op text `u` and empty-reads text `e` between
      them, start the line. */
  lemma MatchSummarySound(h: string)
    requires MatchSummary(h).Some?
    ensures exists u, e ::
      && Fits(SummaryGroups(MatchSummary(h).value, u, e), SummaryPieces)
      && Render(SummaryGroups(MatchSummary(h).value, u, e), SummaryPieces) <= h
  {
    MatchPiecesFits(h, SummaryPieces);
    MatchPiecesPrefix(h, SummaryPieces);
    var gs := MatchPieces(h, SummaryPieces).value;
    assert gs == SummaryGroups(MatchSummary(h).value, gs[3], gs[4]);
  }

  /** Every line of the pattern's shape is recognised, with its own groups. */
  lemma MatchSummaryComplete(f: SummaryFields, u: string, e: string, tail: string)
    requires Fits(SummaryGroups(f, u, e), SummaryPieces)
    ensures MatchSummary(Render(SummaryGroups(f, u, e), SummaryPieces) + tail) == Some(f)
  {
    SummaryPiecesAnchored();
    MatchPiecesComplete(SummaryGroups(f, u, e), SummaryPieces, SummaryAnchors, tail);
  }

  /** The groups `Cnt`, `Avg` and the message of a statistics line. */
  datatype StatFields = StatFields(cnt: string, avg: string, msg: string)

  /** `k` or `m`, the suffixes the average alternative `\d+[km]` admits. */
  predicate IsSuffix(c: char) {
    c == 'k' || c == 'm'
  }

  /** The three forms the `Avg` group can take: `\d+`, `none`, `\d+[km]`. */
  predicate AvgForm(avg: string) {
    || (|avg| > 0 && AllDigits(avg))
    || avg == "none"
    || (|avg| > 1 && AllDigits(avg[..|avg| - 1]) && IsSuffix(avg[|avg| - 1]))
  }

  /** The average of a statistics line from index `i` of `s`: optional
      spaces, one of the three forms, a dot and a space; the average and
      where the message after it starts. */
  function StatAvg(s: string, i: nat): (r: Option<(string, nat)>)
    requires i <= |s|
    ensures r.Some? ==> r.value.1 <= |s| && AvgForm(r.value.0)
  {
    var c := RunEnd(s, i, Spaces);
    var d := RunEnd(s, c, Digits);
    if d > c && LitAt(s, d, ". ") then
      Some((s[c..d], d + 2))
    else if LitAt(s, c, "none. ") then
      Some(("none", c + 6))
    else if d > c && d < |s| && IsSuffix(s[d]) && LitAt(s, d + 1, ". ") then
      assert s[c..d + 1][..d - c] == s[c..d];
      Some((s[c..d + 1], d + 3))
    else
      None
  }

  /** The part of stat_pattern (data_parse.py:10) after its leading `.*`,
      matched at the start of `s`: `> Cnt`, spaces, the digit count, `, Avg`,
      the average, and the message that runs to the end. */
  function StatTail(s: string): (r: Option<StatFields>)
    ensures r.Some? ==> |r.value.cnt| > 0 && AllDigits(r.value.cnt) && AvgForm(r.value.avg)
  {
    if !LitAt(s, 0, "> Cnt") then None
    else
      var a := RunEnd(s, 5, Spaces);
      var b := RunEnd(s, a, Digits);
      if b == a || !LitAt(s, b, ", Avg") then None
      else
        var avg :- StatAvg(s, b + 5);
        Some(StatFields(s[a..b], avg.0, s[avg.1..]))
  }

  /** Whether the tail of the pattern matches from each position of `h`. */
  function StatStarts(h: string): (b: seq<bool>)
    ensures |b| == |h| + 1
  {
    seq(|h| + 1, q requires 0 <= q <= |h| => StatTail(h[q..]).Some?)
  }

  /** The last position p <= from where `b` holds: the greedy leading `.*`
      of the pattern settles on the latest start that lets the rest match. */
  function LastTrue(b: seq<bool>, from: nat): (r: Option<nat>)
    requires from < |b|
    ensures r.Some? ==> r.value <= from && b[r.value]
    decreases from
  {
    if b[from] then Some(from)
    else if from == 0 then None
    else LastTrue(b, from - 1)
  }

  /** No later position holds, and none at all when nothing is found. */
  lemma {:induction false} LastTrueMeaning(b: seq<bool>, from: nat)
    requires from < |b|
    ensures LastTrue(b, from).Some? ==> forall q :: LastTrue(b, from).value < q <= from ==> !b[q]
    ensures LastTrue(b, from).None? ==> forall q :: 0 <= q <= from ==> !b[q]
    decreases from
  {
    if !b[from] && from > 0 {
      LastTrueMeaning(b, from - 1);
    }
  }

  /** `re.match(stat_pattern, line)`, returning the groups the parser uses:
      those of the latest start from which the tail of the pattern matches. */
  function MatchStat(h: string): (r: Option<StatFields>)
    ensures r.Some? <==> exists p :: 0 <= p <= |h| && StatTail(h[p..]).Some?
    ensures r.Some? ==> |r.value.cnt| > 0 && AllDigits(r.value.cnt)
  {
    var b := StatStarts(h);
    LastTrueMeaning(b, |h|);
    match LastTrue(b, |h|)
    case None =>
      assert forall p :: 0 <= p <= |h| ==> StatTail(h[p..]).None? by {
        forall p | 0 <= p <= |h| ensures StatTail(h[p..]).None? {
          assert !b[p];
        }
      }
      None
    case Some(p) =>
      StatTail(h[p..])
  }

  /** The groups come from the latest start that matches: given the
      latest one, `MatchStat` returns its groups. */
  lemma MatchStatLatest(h: string, p: nat)
    requires p <= |h| && StatTail(h[p..]).Some?
    requires forall q :: p < q <= |h| ==> StatTail(h[q..]).None?
    ensures MatchStat(h) == StatTail(h[p..])
  {
    var b := StatStarts(h);
    LastTrueMeaning(b, |h|);
    assert b[p];
    var r := LastTrue(b, |h|);
    assert r.Some? && b[r.value] == StatTail(h[r.value..]).Some?;
    assert r == Some(p);
  }

  /** The first index at or after `from` where `lit` occurs. */
  function Find(h: string, from: nat, lit: string): (r: Option<nat>)
    ensures r.Some? ==> from <= r.value && LitAt(h, r.value, lit)
    ensures r.Some? ==> forall k :: from <= k < r.value ==> !LitAt(h, k, lit)
    ensures r.None? ==> forall k :: from <= k ==> !LitAt(h, k, lit)
    decreases |h| - from
  {
    if from + |lit| > |h| then None
    else if LitAt(h, from, lit) then Some(from)
    else Find(h, from + 1, lit)
  }

  /** The pre-filter `.*10:.*20:.*95:`: the three labels, in this order,
      without overlapping. */
  predicate PassesPrefilter(h: string) {
    match Find(h, 0, "10:")
    case None => false
    case Some(a) =>
      match Find(h, a + 3, "20:")
      case None => false
      case Some(b) => Find(h, b + 3, "95:").Some?
  }

  /** Taking the earliest occurrence of each label decides the pre-filter
      exactly as backtracking over all placements would. */
  lemma PrefilterMeaning(h: string)
    ensures PassesPrefilter(h) <==>
      exists i, j, k :: i + 3 <= j && j + 3 <= k
        && LitAt(h, i, "10:") && LitAt(h, j, "20:") && LitAt(h, k, "95:")
  {
    if exists i, j, k :: i + 3 <= j && j + 3 <= k
        && LitAt(h, i, "10:") && LitAt(h, j, "20:") && LitAt(h, k, "95:")
    {
      var i, j, k :| i + 3 <= j && j + 3 <= k
        && LitAt(h, i, "10:") && LitAt(h, j, "20:") && LitAt(h, k, "95:");
      var a := Find(h, 0, "10:");
      assert a.Some? && a.value <= i;
      var b := Find(h, a.value + 3, "20:");
      assert b.Some? && b.value <= j;
      var c := Find(h, b.value + 3, "95:");
      assert c.Some?;
    }
  }

  // ===========================================================================
  // parse: the state machine over lines.

  const ReadMessage := "Non-empty read size"
  const WriteMessage := "Write size"

  /** The four pending statistics `rn, rs, wn, ws`; `None` until set. */
  datatype Slots = Slots(rn: Option<int>, rs: Option<int>, wn: Option<int>, ws: Option<int>)

  const Unset := Slots(None, None, None, None)

  /** One yielded tuple: the five summary numbers, then the four slots. */
  datatype Row = Row(epoch: real, time: real, ops: real, ra: real, wa: real,
                     rn: Option<int>, rs: Option<int>, wn: Option<int>, ws: Option<int>)
  {
    function Stats(): Slots { Slots(rn, rs, wn, ws) }
  }

  /** Why the generator raised: `to_float` on a summary field, a pre-filtered
      line that stat_pattern does not match (`None.groups()`), or `int` on an
      average of the form `none` or `<digits>[km]`. */
  datatype ParseError = BadNumber | StatMismatch | BadAverage

  /** The row a summary line yields with the pending slots: `None` when
      one of the five captured fields is not a number. */
  function SummaryRow(f: SummaryFields, slots: Slots): (r: Option<Row>)
    ensures r.Some? <==>
      && ToFloat(f.epoch).Some? && ToFloat(f.time).Some? && ToFloat(f.ops).Some?
      && ToFloat(f.ra).Some? && ToFloat(f.wa).Some?
    ensures r.Some? ==>
      && r.value.epoch == ToFloat(f.epoch).value && r.value.time == ToFloat(f.time).value
      && r.value.ops == ToFloat(f.ops).value && r.value.ra == ToFloat(f.ra).value
      && r.value.wa == ToFloat(f.wa).value
      && r.value.Stats() == slots
  {
    var epoch :- ToFloat(f.epoch);
    var time :- ToFloat(f.time);
    var ops :- ToFloat(f.ops);
    var ra :- ToFloat(f.ra);
    var wa :- ToFloat(f.wa);
    Some(Row(epoch, time, ops, ra, wa, slots.rn, slots.rs, slots.wn, slots.ws))
  }

  /** What one line does to the parser. */
  datatype Effect = Emit(row: Row) | Update(slots: Slots) | Fail(error: ParseError)

  predicate IsSummary(line: string) {
    MatchSummary(Head(line)).Some?
  }

  /** A line that is neither a summary nor passes the pre-filter. */
  predicate IsIgnored(line: string) {
    !IsSummary(line) && !PassesPrefilter(Head(line))
  }

  /** The effect of a statistics line with groups `f`. */
  function StatEffect(f: StatFields, slots: Slots): (r: Effect)
    requires AllDigits(f.cnt)
    ensures r.Update? && f.msg == ReadMessage ==>
      && AllDigits(f.avg)
      && r.slots.rn == Some(DigitsValue(f.cnt)) && r.slots.rs == Some(DigitsValue(f.avg))
      && r.slots.wn == slots.wn && r.slots.ws == slots.ws
    ensures r.Update? && f.msg == WriteMessage ==>
      && AllDigits(f.avg)
      && r.slots.wn == Some(DigitsValue(f.cnt)) && r.slots.ws == Some(DigitsValue(f.avg))
      && r.slots.rn == slots.rn && r.slots.rs == slots.rs
    ensures f.msg != ReadMessage && f.msg != WriteMessage ==> r == Update(slots)
    ensures r.Fail? <==> (f.msg == ReadMessage || f.msg == WriteMessage) && !AllDigits(f.avg)
  {
    assert ReadMessage != WriteMessage;
    if f.msg == ReadMessage then
      if AllDigits(f.avg) then Update(slots.(rn := Some(DigitsValue(f.cnt)), rs := Some(DigitsValue(f.avg))))
      else Fail(BadAverage)
    else if f.msg == WriteMessage then
      if AllDigits(f.avg) then Update(slots.(wn := Some(DigitsValue(f.cnt)), ws := Some(DigitsValue(f.avg))))
      else Fail(BadAverage)
    else Update(slots)
  }

  /** One iteration of the loop: summary first, then the pre-filtered
      statistics line, else nothing. */
  function LineEffect(slots: Slots, line: string): Effect {
    var h := Head(line);
    match MatchSummary(h)
    case Some(f) =>
      (match SummaryRow(f, slots)
       case Some(row) => Emit(row)
       case None => Fail(BadNumber))
    case None =>
      if !PassesPrefilter(h) then Update(slots)
      else
        match MatchStat(h)
        case None => Fail(StatMismatch)
        case Some(f) => StatEffect(f, slots)
  }

  /** A summary line yields a row carrying the slots or fails on a number;
      only a summary line yields; an ignored line changes nothing; and the
      mismatch error comes exactly from a pre-filtered line that
      stat_pattern rejects. */
  lemma LineEffectMeaning(slots: Slots, line: string)
    ensures IsSummary(line) ==> LineEffect(slots, line).Emit? || LineEffect(slots, line) == Fail(BadNumber)
    ensures LineEffect(slots, line).Emit? ==> IsSummary(line) && LineEffect(slots, line).row.Stats() == slots
    ensures IsIgnored(line) ==> LineEffect(slots, line) == Update(slots)
    ensures LineEffect(slots, line) == Fail(StatMismatch) <==>
      !IsSummary(line) && PassesPrefilter(Head(line)) && MatchStat(Head(line)).None?
  {
  }

  /** The parser's state: rows yielded so far, pending slots, and the error
      that stopped it, if any. */
  datatype State = State(rows: seq<Row>, slots: Slots, error: Option<ParseError>)

  const Start := State([], Unset, None)

  /** What an effect does to a running parser. */
  function Apply(st: State, eff: Effect): State {
    match eff
    case Emit(row) => State(st.rows + [row], Unset, None)
    case Update(slots) => State(st.rows, slots, None)
    case Fail(e) => State(st.rows, st.slots, Some(e))
  }

  function Feed(st: State, line: string): State {
    if st.error.Some? then st else Apply(st, LineEffect(st.slots, line))
  }

  /** The parser's state after the given lines. */
  function Run(lines: seq<string>): State {
    if lines == [] then Start else Feed(Run(lines[..|lines| - 1]), lines[|lines| - 1])
  }

  lemma RunSnoc(lines: seq<string>, line: string)
    ensures Run(lines + [line]) == Feed(Run(lines), line)
  {
    assert (lines + [line])[..|lines|] == lines;
  }

  /** Once the generator has raised, later lines are never examined. */
  lemma {:induction false} ErrorIsFinal(lines: seq<string>, k: nat)
    requires k <= |lines| && Run(lines[..k]).error.Some?
    ensures Run(lines) == Run(lines[..k])
    decreases |lines|
  {
    if k < |lines| {
      var init := lines[..|lines| - 1];
      assert init[..k] == lines[..k];
      ErrorIsFinal(init, k);
      assert lines == init + [lines[|lines| - 1]];
      RunSnoc(init, lines[|lines| - 1]);
    } else {
      assert lines[..k] == lines;
    }
  }

  /** One pass of the loop body on `line`, with the slots as they stand. */
  method ParseLine(slots: Slots, line: string) returns (eff: Effect)
    ensures eff == LineEffect(slots, line)
  {
    var h := Head(line);
    var summary := MatchSummary(h);
    if summary.Some? {
      var row := SummaryRow(summary.value, slots);
      if row.None? {
        return Fail(BadNumber);
      }
      return Emit(row.value);
    }
    if !PassesPrefilter(h) {
      return Update(slots);
    }
    var stat := MatchStat(h);
    if stat.None? {
      return Fail(StatMismatch);
    }
    var cnt, avg, msg := stat.value.cnt, stat.value.avg, stat.value.msg;
    if msg == ReadMessage {
      if !AllDigits(avg) {
        return Fail(BadAverage);
      }
      eff := Update(slots.(rn := Some(DigitsValue(cnt)), rs := Some(DigitsValue(avg))));
    } else if msg == WriteMessage {
      if !AllDigits(avg) {
        return Fail(BadAverage);
      }
      eff := Update(slots.(wn := Some(DigitsValue(cnt)), ws := Some(DigitsValue(avg))));
    } else {
      eff := Update(slots);
    }
  }

  /** One more line, while no error has stopped the run, applies its
      effect to the state. */
  lemma RunStep(lines: seq<string>, i: nat)
    requires i < |lines| && Run(lines[..i]).error.None?
    ensures Run(lines[..i + 1]) == Apply(Run(lines[..i]), LineEffect(Run(lines[..i]).slots, lines[i]))
  {
    RunSnoc(lines[..i], lines[i]);
    TakeSnoc(lines, i);
  }

  /** parse(file): the rows it yields before it stops, and the error that
      stopped it, if any. */
  method Parse(lines: seq<string>) returns (rows: seq<Row>, error: Option<ParseError>)
    ensures rows == Run(lines).rows && error == Run(lines).error
  {
    var rn: Option<int>, rs: Option<int>, wn: Option<int>, ws: Option<int> := None, None, None, None;
    rows, error := [], None;
    var i := 0;
    while i < |lines|
      invariant 0 <= i <= |lines|
      invariant Run(lines[..i]) == State(rows, Slots(rn, rs, wn, ws), None)
    {
      var eff := ParseLine(Slots(rn, rs, wn, ws), lines[i]);
      RunStep(lines, i);
      match eff {
        case Fail(e) =>
          error := Some(e);
          ErrorIsFinal(lines, i + 1);
          return;
        case Emit(row) =>
          rows := rows + [row];
          rn, rs, wn, ws := None, None, None, None;
        case Update(slots) =>
          rn, rs, wn, ws := slots.rn, slots.rs, slots.wn, slots.ws;
      }
      i := i + 1;
    }
    assert lines[..i] == lines;
  }

  // ---------------------------------------------------------------------------
  // What parse promises about its output.

  /** The summary fields of the summary lines, in file order. */
  function SummaryLines(lines: seq<string>): (r: seq<SummaryFields>)
    ensures |r| <= |lines|
  {
    if lines == [] then []
    else
      var init := SummaryLines(lines[..|lines| - 1]);
      match MatchSummary(Head(lines[|lines| - 1]))
      case Some(f) => init + [f]
      case None => init
  }

  /** Row `k` holds the five converted numbers of summary line `k`, and
      there are never more rows than summary lines; without an error,
      there is exactly one row per summary line. */
  lemma {:induction false} RowsFollowSummaries(lines: seq<string>)
    ensures |Run(lines).rows| <= |SummaryLines(lines)|
    ensures Run(lines).error.None? ==> |Run(lines).rows| == |SummaryLines(lines)|
    ensures forall k :: 0 <= k < |Run(lines).rows| ==>
      SummaryRow(SummaryLines(lines)[k], Run(lines).rows[k].Stats()) == Some(Run(lines).rows[k])
  {
    if lines != [] {
      var init := lines[..|lines| - 1];
      var line := lines[|lines| - 1];
      RowsFollowSummaries(init);
      var st := Run(init);
      var f := MatchSummary(Head(line));
      RunSnoc(init, line);
      assert lines == init + [line];
      LineEffectMeaning(st.slots, line);
      if st.error.None? && f.Some? && SummaryRow(f.value, st.slots).Some? {
        assert Run(lines).rows == st.rows + [SummaryRow(f.value, st.slots).value];
      }
    }
  }

  /** A line that is neither a summary nor passes the pre-filter changes nothing. */
  lemma IgnoredLineChangesNothing(st: State, line: string)
    requires IsIgnored(line)
    ensures Feed(st, line) == st
  {
  }

  /** Appending lines that are all ignored leaves the outcome as it was. */
  lemma {:induction false} IgnoredLinesChangeNothing(pre: seq<string>, ignored: seq<string>)
    requires forall i :: 0 <= i < |ignored| ==> IsIgnored(ignored[i])
    ensures Run(pre + ignored) == Run(pre)
    decreases |ignored|
  {
    if ignored == [] {
      assert pre + ignored == pre;
    } else {
      var init, line := ignored[..|ignored| - 1], ignored[|ignored| - 1];
      forall i | 0 <= i < |init| ensures IsIgnored(init[i]) {
        assert init[i] == ignored[i];
      }
      IgnoredLinesChangeNothing(pre, init);
      SplitLast(ignored);
      AppendAssoc(pre, init, line);
      RunSnoc(pre + init, line);
      IgnoredLineChangesNothing(Run(pre + init), line);
    }
  }

  /** A file with only ignored lines yields no rows and raises nothing. */
  lemma OnlyIgnoredLinesYieldNothing(lines: seq<string>)
    requires forall i :: 0 <= i < |lines| ==> IsIgnored(lines[i])
    ensures Run(lines).rows == [] && Run(lines).error.None?
  {
    IgnoredLinesChangeNothing([], lines);
    assert [] + lines == lines;
  }

  /** A prefix of a file that raised nothing raised nothing. */
  lemma ErrorPersists(pre: seq<string>, line: string)
    requires Run(pre + [line]).error.None?
    ensures Run(pre).error.None?
  {
    RunSnoc(pre, line);
  }

  /** A summary line yields one row carrying the pending slots, and then
      every slot is back to `None`. */
  lemma SummaryResetsSlots(pre: seq<string>, line: string)
    requires IsSummary(line) && Run(pre + [line]).error.None?
    ensures |Run(pre + [line]).rows| == |Run(pre).rows| + 1
    ensures Run(pre + [line]).rows[|Run(pre).rows|].Stats() == Run(pre).slots
    ensures Run(pre + [line]).slots == Unset
  {
    RunSnoc(pre, line);
  }

  /** The `(cnt, avg)` of the last well-formed statistics line of `seg`
      with message `msg`. */
  function LastStat(seg: seq<string>, msg: string): Option<(int, int)> {
    if seg == [] then None
    else
      var line := seg[|seg| - 1];
      var h := Head(line);
      match MatchStat(h)
      case Some(f) =>
        if !IsSummary(line) && PassesPrefilter(h) && f.msg == msg && AllDigits(f.avg)
        then Some((DigitsValue(f.cnt), DigitsValue(f.avg)))
        else LastStat(seg[..|seg| - 1], msg)
      case None => LastStat(seg[..|seg| - 1], msg)
  }

  function First(p: Option<(int, int)>): Option<int> {
    match p case None => None case Some(v) => Some(v.0)
  }

  function Second(p: Option<(int, int)>): Option<int> {
    match p case None => None case Some(v) => Some(v.1)
  }

  /** The slots the last read and the last write statistics of `seg` leave. */
  function Pending(seg: seq<string>): Slots {
    var r, w := LastStat(seg, ReadMessage), LastStat(seg, WriteMessage);
    Slots(First(r), Second(r), First(w), Second(w))
  }

  lemma RunPrefix(pre: seq<string>, seg: seq<string>)
    requires seg != []
    ensures Run(pre + seg) == Feed(Run(pre + seg[..|seg| - 1]), seg[|seg| - 1])
  {
    assert pre + seg == (pre + seg[..|seg| - 1]) + [seg[|seg| - 1]];
    RunSnoc(pre + seg[..|seg| - 1], seg[|seg| - 1]);
  }

  /** A statistics line that is not a summary and raises nothing moves the
      slots of a segment to those of the segment extended by it. */
  lemma PendingStep(seg: seq<string>, line: string)
    requires !IsSummary(line) && !LineEffect(Pending(seg), line).Fail?
    ensures LineEffect(Pending(seg), line) == Update(Pending(seg + [line]))
  {
    var ext := seg + [line];
    assert ext[..|ext| - 1] == seg && ext[|ext| - 1] == line;
    var h := Head(line);
    var slots := Pending(seg);
    assert ReadMessage != WriteMessage;
    if PassesPrefilter(h) {
      var f := MatchStat(h).value;
      assert LineEffect(slots, line) == StatEffect(f, slots);
      if f.msg == ReadMessage {
        assert LastStat(ext, ReadMessage) == Some((DigitsValue(f.cnt), DigitsValue(f.avg)));
        assert LastStat(ext, WriteMessage) == LastStat(seg, WriteMessage);
      } else if f.msg == WriteMessage {
        assert LastStat(ext, WriteMessage) == Some((DigitsValue(f.cnt), DigitsValue(f.avg)));
        assert LastStat(ext, ReadMessage) == LastStat(seg, ReadMessage);
      } else {
        assert LastStat(ext, ReadMessage) == LastStat(seg, ReadMessage);
        assert LastStat(ext, WriteMessage) == LastStat(seg, WriteMessage);
      }
    } else {
      assert LineEffect(slots, line) == Update(slots);
      assert LastStat(ext, ReadMessage) == LastStat(seg, ReadMessage);
      assert LastStat(ext, WriteMessage) == LastStat(seg, WriteMessage);
    }
  }

  /** Between two summaries, the last read statistics line sets rn/rs and
      the last write statistics line sets wn/ws; other lines leave them. */
  lemma {:induction false} LastStatWins(pre: seq<string>, seg: seq<string>)
    requires Run(pre).slots == Unset
    requires forall i :: 0 <= i < |seg| ==> !IsSummary(seg[i])
    requires Run(pre + seg).error.None?
    ensures Run(pre + seg).slots == Pending(seg)
    ensures Run(pre + seg).rows == Run(pre).rows
    decreases |seg|
  {
    if seg == [] {
      assert pre + seg == pre;
    } else {
      var init := seg[..|seg| - 1];
      var line := seg[|seg| - 1];
      var mid := pre + init;
      SplitLast(seg);
      AppendAssoc(pre, init, line);
      RunPrefix(pre, seg);
      ErrorPersists(mid, line);
      forall i | 0 <= i < |init| ensures !IsSummary(init[i]) {
        assert init[i] == seg[i];
      }
      LastStatWins(pre, init);
      var st := Run(mid);
      assert Run(pre + seg) == Feed(st, line);
      assert st.error.None?;
      assert !IsSummary(line) by {
        assert line == seg[|seg| - 1];
      }
      assert Feed(st, line).error.None? && st.slots == Pending(init);
      assert !LineEffect(st.slots, line).Fail?;
      PendingStep(init, line);
    }
  }

  /** The row a summary yields carries the last read and write statistics
      since the previous summary (or the start of the file). */
  lemma EmittedRowCarriesLastStats(pre: seq<string>, seg: seq<string>, line: string)
    requires Run(pre).slots == Unset
    requires forall i :: 0 <= i < |seg| ==> !IsSummary(seg[i])
    requires IsSummary(line) && Run(pre + seg + [line]).error.None?
    ensures |Run(pre + seg + [line]).rows| == |Run(pre).rows| + 1
    ensures Run(pre + seg + [line]).rows[|Run(pre).rows|].Stats() == Pending(seg)
  {
    var mid := pre + seg;
    ErrorPersists(mid, line);
    SummaryResetsSlots(mid, line);
    LastStatWins(pre, seg);
    assert Run(mid).rows == Run(pre).rows && Run(mid).slots == Pending(seg);
    assert Run(mid + [line]).rows[|Run(mid).rows|].Stats() == Run(mid).slots;
  }

  /** Without any statistics line in between, a row's four statistics are `None`. */
  lemma {:induction false} NoStatsMeansUnset(seg: seq<string>)
    requires forall i :: 0 <= i < |seg| ==> MatchStat(Head(seg[i])).None?
    ensures Pending(seg) == Unset
  {
    if seg != [] {
      NoStatsMeansUnset(seg[..|seg| - 1]);
    }
  }

  // ===========================================================================
  // path: the log file name of a run.

  const Root := "paper_experiment/"

  /** path(authdb, keys, folder, stat, low_mem, high_mem); the defaults are
      folder "osdi23", no stat, no low_mem and high_mem 0. */
  function Path(authdb: string, keys: string, folder: string, stat: bool, lowMem: bool, highMem: int): string {
    var dir := Root + folder + "/";
    if stat then dir + "stat_" + authdb + "_" + keys + ".log"
    else if lowMem then dir + "time_" + authdb + "_" + keys + "_lowmem.log"
    else if highMem > 0 then dir + "time_" + authdb + "_" + keys + "_highmem" + NatToString(highMem) + ".log"
    else dir + "time_" + authdb + "_" + keys + ".log"
  }

  /** The statistics log and a timing log of the same run never coincide. */
  lemma StatAndTimePathsDiffer(authdb: string, keys: string, folder: string, l1: bool, h1: int, l2: bool, h2: int)
    ensures Path(authdb, keys, folder, true, l1, h1) != Path(authdb, keys, folder, false, l2, h2)
  {
    var k := |Root + folder + "/"|;
    assert Path(authdb, keys, folder, true, l1, h1)[k] == 's';
    assert Path(authdb, keys, folder, false, l2, h2)[k] == 't';
  }

  /** The statistics path ignores the memory options; low_mem overrides high_mem. */
  lemma PathPrecedence(authdb: string, keys: string, folder: string, l1: bool, h1: int, l2: bool, h2: int)
    ensures Path(authdb, keys, folder, true, l1, h1) == Path(authdb, keys, folder, true, l2, h2)
    ensures Path(authdb, keys, folder, false, true, h1) == Path(authdb, keys, folder, false, true, h2)
    ensures h1 <= 0 && h2 <= 0 ==> Path(authdb, keys, folder, false, false, h1) == Path(authdb, keys, folder, false, false, h2)
  {
  }

  /** Different positive high_mem sizes give different timing logs. */
  lemma HighMemPathsDiffer(authdb: string, keys: string, folder: string, h1: int, h2: int)
    requires h1 > 0 && h2 > 0 && h1 != h2
    ensures Path(authdb, keys, folder, false, false, h1) != Path(authdb, keys, folder, false, false, h2)
  {
    var pre := Root + folder + "/" + "time_" + authdb + "_" + keys + "_highmem";
    var s1, s2 := NatToString(h1), NatToString(h2);
    if Path(authdb, keys, folder, false, false, h1) == Path(authdb, keys, folder, false, false, h2) {
      var p1, p2 := pre + s1 + ".log", pre + s2 + ".log";
      assert p1 == Path(authdb, keys, folder, false, false, h1);
      assert |s1| == |s2|;
      assert s1 == p1[|pre|..|pre| + |s1|];
      assert s2 == p2[|pre|..|pre| + |s2|];
      NatToStringInjective(h1, h2);
    }
  }

  // ===========================================================================
  // Data: the steady-state view of a timing table and its statistics table.

  /** The mask `TOTAL_EPOCH/2 <= epoch < TOTAL_EPOCH`. */
  predicate InWindow(r: Row) {
    TotalEpoch as real / 2.0 <= r.epoch < TotalEpoch as real
  }

  /** The rows the mask keeps, in their order. */
  function Keep(rows: seq<Row>): (r: seq<Row>)
    ensures |r| <= |rows|
    ensures forall i :: 0 <= i < |r| ==> InWindow(r[i]) && r[i] in rows
  {
    if rows == [] then []
    else
      var init := Keep(rows[..|rows| - 1]);
      if InWindow(rows[|rows| - 1]) then init + [rows[|rows| - 1]] else init
  }

  /** Masking a concatenation masks each part: order is kept and a row's
      fate depends on that row alone. */
  lemma {:induction false} KeepConcat(a: seq<Row>, b: seq<Row>)
    ensures Keep(a + b) == Keep(a) + Keep(b)
    decreases |b|
  {
    if b == [] {
      assert a + b == a;
    } else {
      var init := b[..|b| - 1];
      assert (a + b)[..|a + b| - 1] == a + init;
      KeepConcat(a, init);
    }
  }

  /** Every row inside the window survives. */
  lemma {:induction false} KeepComplete(rows: seq<Row>, i: nat)
    requires i < |rows| && InWindow(rows[i])
    ensures rows[i] in Keep(rows)
  {
    assert rows == rows[..i] + [rows[i]] + rows[i + 1..];
    KeepConcat(rows[..i] + [rows[i]], rows[i + 1..]);
    KeepConcat(rows[..i], [rows[i]]);
    assert Keep([rows[i]]) == [rows[i]];
  }

  function Window(rows: seq<Row>, skipStart: bool): seq<Row> {
    if skipStart then Keep(rows) else rows
  }

  /** `T[1:] - T[:-1]` of `T = [0] + timer`: each timer value minus the
      previous one, the first minus 0. */
  function Latency(timer: seq<real>): (l: seq<real>)
    ensures |l| == |timer|
  {
    if timer == [] then []
    else
      var n := |timer|;
      Latency(timer[..n - 1]) + [timer[n - 1] - (if n == 1 then 0.0 else timer[n - 2])]
  }

  /** Adding up the latencies of the first i + 1 rows gives the timer of row i;
      in particular they add up to the last timer value. */
  lemma {:induction false} LatencyPrefixSums(timer: seq<real>, i: nat)
    requires i < |timer|
    ensures Sum(Latency(timer)[..i + 1]) == timer[i]
    decreases i
  {
    var l := Latency(timer);
    LatencyPrefix(timer, i + 1);
    assert l[..i + 1] == Latency(timer[..i + 1]);
    if i > 0 {
      LatencyPrefixSums(timer, i - 1);
      LatencyPrefix(timer, i);
      assert Latency(timer[..i + 1])[..i] == Latency(timer[..i + 1][..i]);
      assert timer[..i + 1][..i] == timer[..i];
      assert l[..i] == Latency(timer[..i]);
    }
  }

  /** The latencies of a prefix of the rows are a prefix of the latencies. */
  lemma {:induction false} LatencyPrefix(timer: seq<real>, k: nat)
    requires k <= |timer|
    ensures Latency(timer)[..k] == Latency(timer[..k])
    decreases |timer|
  {
    if k < |timer| {
      var init := timer[..|timer| - 1];
      LatencyPrefix(init, k);
      assert init[..k] == timer[..k];
    } else {
      assert timer[..k] == timer;
    }
  }

  function Epochs(rows: seq<Row>): (c: seq<real>) ensures |c| == |rows| { seq(|rows|, i requires 0 <= i < |rows| => rows[i].epoch) }
  function Timers(rows: seq<Row>): (c: seq<real>) ensures |c| == |rows| { seq(|rows|, i requires 0 <= i < |rows| => rows[i].time) }
  function Ops(rows: seq<Row>): (c: seq<real>) ensures |c| == |rows| { seq(|rows|, i requires 0 <= i < |rows| => rows[i].ops) }
  function ReadAmps(rows: seq<Row>): (c: seq<real>) ensures |c| == |rows| { seq(|rows|, i requires 0 <= i < |rows| => rows[i].ra) }
  function WriteAmps(rows: seq<Row>): (c: seq<real>) ensures |c| == |rows| { seq(|rows|, i requires 0 <= i < |rows| => rows[i].wa) }
  function ReadCounts(rows: seq<Row>): (c: seq<Option<int>>) ensures |c| == |rows| { seq(|rows|, i requires 0 <= i < |rows| => rows[i].rn) }
  function ReadSizes(rows: seq<Row>): (c: seq<Option<int>>) ensures |c| == |rows| { seq(|rows|, i requires 0 <= i < |rows| => rows[i].rs) }
  function WriteCounts(rows: seq<Row>): (c: seq<Option<int>>) ensures |c| == |rows| { seq(|rows|, i requires 0 <= i < |rows| => rows[i].wn) }
  function WriteSizes(rows: seq<Row>): (c: seq<Option<int>>) ensures |c| == |rows| { seq(|rows|, i requires 0 <= i < |rows| => rows[i].ws) }

  /** The fields `Data.__init__` sets. */
  datatype Data = Data(epoch: seq<real>, timer: seq<real>, tps: seq<real>, ra: seq<real>, wa: seq<real>,
                       latency: seq<real>,
                       rn: seq<Option<int>>, rs: seq<Option<int>>, wn: seq<Option<int>>, ws: seq<Option<int>>)

  /** Why `Data(time, stat, skip_start)` raises: an empty table has no
      column 0 to mask or read, and the default `stat=None` has no `.T`. */
  datatype DataError = EmptyTime | MissingStat | EmptyStat

  function MakeData(time: seq<Row>, stat: Option<seq<Row>>, skipStart: bool): (r: Result<Data, DataError>)
    ensures r.Err? <==> time == [] || stat.None? || stat.value == []
    ensures time == [] ==> r == Err(EmptyTime)
    ensures time != [] && stat.None? ==> r == Err(MissingStat)
    ensures r.Ok? ==> var d := r.value;
      && |d.epoch| == |d.timer| == |d.tps| == |d.ra| == |d.wa| == |d.latency| <= |time|
      && |d.rn| == |d.rs| == |d.wn| == |d.ws| <= |stat.value|
      && (skipStart ==> forall i :: 0 <= i < |d.epoch| ==> TotalEpoch as real / 2.0 <= d.epoch[i] < TotalEpoch as real)
      && (!skipStart ==> |d.epoch| == |time| && |d.rn| == |stat.value|)
    ensures r.Ok? ==> var d, t, s := r.value, Window(time, skipStart), Window(stat.value, skipStart);
      && d.epoch == Epochs(t) && d.timer == Timers(t) && d.tps == Ops(t)
      && d.ra == ReadAmps(t) && d.wa == WriteAmps(t)
      && d.latency == Latency(d.timer)
      && d.rn == ReadCounts(s) && d.rs == ReadSizes(s) && d.wn == WriteCounts(s) && d.ws == WriteSizes(s)
  {
    if time == [] then Err(EmptyTime)
    else if stat.None? then Err(MissingStat)
    else if stat.value == [] then Err(EmptyStat)
    else
      var t, s := Window(time, skipStart), Window(stat.value, skipStart);
      Ok(Data(Epochs(t), Timers(t), Ops(t), ReadAmps(t), WriteAmps(t), Latency(Timers(t)),
              ReadCounts(s), ReadSizes(s), WriteCounts(s), WriteSizes(s)))
  }

  /** The statistics columns come from the statistics table alone, masked
      by the same window: the timing table does not affect them. */
  lemma StatColumnsIndependent(time1: seq<Row>, time2: seq<Row>, stat: seq<Row>, skipStart: bool)
    requires MakeData(time1, Some(stat), skipStart).Ok? && MakeData(time2, Some(stat), skipStart).Ok?
    ensures var d1, d2 := MakeData(time1, Some(stat), skipStart).value, MakeData(time2, Some(stat), skipStart).value;
      && d1.rn == d2.rn && d1.rs == d2.rs && d1.wn == d2.wn && d1.ws == d2.ws
      && d1.rn == ReadCounts(Window(stat, skipStart)) && d1.rs == ReadSizes(Window(stat, skipStart))
      && d1.wn == WriteCounts(Window(stat, skipStart)) && d1.ws == WriteSizes(Window(stat, skipStart))
  {
  }

  /** The latencies of the view add up to its last timer value. */
  lemma DataLatencySum(time: seq<Row>, stat: seq<Row>, skipStart: bool)
    requires MakeData(time, Some(stat), skipStart).Ok?
    requires MakeData(time, Some(stat), skipStart).value.timer != []
    ensures var d := MakeData(time, Some(stat), skipStart).value;
      Sum(d.latency) == d.timer[|d.timer| - 1]
  {
    var d := MakeData(time, Some(stat), skipStart).value;
    LatencyPrefixSums(d.timer, |d.timer| - 1);
    assert d.latency[..|d.timer|] == d.latency;
  }

  // ===========================================================================
  // load: parse the timing log and the statistics log of one run.

  datatype LoadError = ParseFailed(parse: ParseError) | DataFailed(data: DataError)

  /** load(authdb, keys, folder, low_mem) on the contents of its two logs;
      the window applies unless the key distribution is "real". */
  function Load(keys: string, timeLog: seq<string>, statLog: seq<string>): (r: Result<Data, LoadError>)
    ensures Run(timeLog).error.Some? ==> r == Err(ParseFailed(Run(timeLog).error.value))
    ensures Run(timeLog).error.None? && Run(statLog).error.Some? ==> r == Err(ParseFailed(Run(statLog).error.value))
  {
    var time, stat := Run(timeLog), Run(statLog);
    if time.error.Some? then Err(ParseFailed(time.error.value))
    else if stat.error.Some? then Err(ParseFailed(stat.error.value))
    else match MakeData(time.rows, Some(stat.rows), keys != "real")
      case Ok(d) => Ok(d)
      case Err(e) => Err(DataFailed(e))
  }

  /** Only the "real" key distribution keeps its warm-up epochs. */
  lemma LoadWindowsUnlessReal(keys: string, timeLog: seq<string>, statLog: seq<string>)
    requires Load(keys, timeLog, statLog).Ok?
    ensures keys == "real" ==> |Load(keys, timeLog, statLog).value.epoch| == |Run(timeLog).rows|
    ensures keys != "real" ==> forall i :: 0 <= i < |Load(keys, timeLog, statLog).value.epoch| ==>
      TotalEpoch as real / 2.0 <= Load(keys, timeLog, statLog).value.epoch[i] < TotalEpoch as real
  {
  }
}
