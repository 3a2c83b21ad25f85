/** Shared vocabulary of the two log parsers: optional values and results,
    decimal digits, and the small text scanners the line recognisers are
    built from. */
module Common {

  /** An optional value; also usable with `:-` to stop at the first `None`. */
  datatype Option<+T> = None | Some(value: T) {
    predicate IsFailure() { None? }

    function PropagateFailure<U>(): Option<U>
      requires None?
    {
      None
    }

    function Extract(): T
      requires Some?
    {
      value
    }
  }

  /** A value or the error that the computation raised instead. */
  datatype Result<+T, +E> = Ok(value: T) | Err(error: E) {
    predicate IsFailure() { Err? }

    function PropagateFailure<U>(): Result<U, E>
      requires Err?
    {
      Err(error)
    }

    function Extract(): T
      requires Ok?
    {
      value
    }
  }

  // ---------------------------------------------------------------------------
  // Decimal digits (the ASCII digits that `\d` and `int()` accept here)

  predicate IsDigit(c: char) {
    '0' <= c <= '9'
  }

  predicate AllDigits(s: string) {
    forall i :: 0 <= i < |s| ==> IsDigit(s[i])
  }

  function DigitValue(c: char): (d: nat)
    requires IsDigit(c)
    ensures d < 10
  {
    (c as int - '0' as int) as nat
  }

  function DigitChar(d: nat): (c: char)
    requires d < 10
    ensures IsDigit(c) && DigitValue(c) == d
  {
    ('0' as int + d) as char
  }

  /** The number a string of decimal digits denotes (leading zeros allowed,
      the empty string denotes 0). */
  function DigitsValue(s: string): nat
    requires AllDigits(s)
  {
    if s == [] then 0 else 10 * DigitsValue(s[..|s| - 1]) + DigitValue(s[|s| - 1])
  }

  /** The decimal rendering of a natural number, as Python's `str` and
      f-strings write it: no leading zeros, "0" for zero. */
  function NatToString(n: nat): (s: string)
    ensures |s| > 0 && AllDigits(s)
    ensures n > 0 ==> s[0] != '0'
    decreases n
  {
    if n < 10 then [DigitChar(n)] else NatToString(n / 10) + [DigitChar(n % 10)]
  }

  /** Reading back a rendered number gives the number. */
  lemma {:induction false} NatToStringValue(n: nat)
    ensures DigitsValue(NatToString(n)) == n
    decreases n
  {
    if n >= 10 {
      var s := NatToString(n);
      assert s[..|s| - 1] == NatToString(n / 10);
      NatToStringValue(n / 10);
    }
  }

  /** Two different numbers are never rendered alike. */
  lemma NatToStringInjective(m: nat, n: nat)
    requires NatToString(m) == NatToString(n)
    ensures m == n
  {
    NatToStringValue(m);
    NatToStringValue(n);
  }

  function Pow10(k: nat): (p: nat)
    ensures p > 0
  {
    if k == 0 then 1 else 10 * Pow10(k - 1)
  }

  // ---------------------------------------------------------------------------
  // Text scanning

  /** `lit` occurs in `s` starting at index `i`. */
  predicate LitAt(s: string, i: nat, lit: string) {
    i + |lit| <= |s| && s[i..i + |lit|] == lit
  }

  /** A character class of the source's patterns: every one of them is a
      set drawn from space, comma, dot and the digits (`[ ,\.\d]` and its
      subsets). */
  datatype CharClass = CharClass(space: bool, comma: bool, dot: bool, digit: bool)

  predicate InClass(c: char, cls: CharClass) {
    || (cls.space && c == ' ')
    || (cls.comma && c == ',')
    || (cls.dot && c == '.')
    || (cls.digit && IsDigit(c))
  }

  predicate AllIn(s: string, cls: CharClass) {
    forall i :: 0 <= i < |s| ==> InClass(s[i], cls)
  }

  /** The end of the longest run of characters of `cls` that starts at `i`. */
  function RunEnd(s: string, i: nat, cls: CharClass): (j: nat)
    requires i <= |s|
    ensures i <= j <= |s|
    ensures forall k :: i <= k < j ==> InClass(s[k], cls)
    ensures j < |s| ==> !InClass(s[j], cls)
    decreases |s| - i
  {
    if i < |s| && InClass(s[i], cls) then RunEnd(s, i + 1, cls) else i
  }

  /** A literal occurs in `s` where it occurs in `pre + s`, shifted by `|pre|`. */
  lemma LitAtShift(pre: string, s: string, t: nat, lit: string)
    ensures LitAt(pre + s, |pre| + t, lit) <==> LitAt(s, t, lit)
  {
    if t + |lit| <= |s| {
      assert (pre + s)[|pre| + t..|pre| + t + |lit|] == s[t..t + |lit|];
    }
  }

  /** A run in `s` ends where it ends in `pre + s`, shifted by `|pre|`. */
  lemma {:induction false} RunEndShift(pre: string, s: string, i: nat, cls: CharClass)
    requires i <= |s|
    ensures RunEnd(pre + s, |pre| + i, cls) == |pre| + RunEnd(s, i, cls)
    decreases |s| - i
  {
    if i < |s| {
      assert (pre + s)[|pre| + i] == s[i];
      if InClass(s[i], cls) {
        RunEndShift(pre, s, i + 1, cls);
      }
    }
  }

  /** Any run of `cls` characters from `i` ends at or before `RunEnd`. */
  lemma RunEndMaximal(s: string, i: nat, cls: CharClass, j: nat)
    requires i <= j <= |s|
    requires forall k :: i <= k < j ==> InClass(s[k], cls)
    ensures j <= RunEnd(s, i, cls)
  {
  }

  /** The part of a line that `.` and every character class of the source's
      patterns can reach: the text before the first newline. */
  function Head(s: string): (h: string)
    ensures |h| <= |s| && h == s[..|h|]
    ensures '\n' !in h
    ensures |h| < |s| ==> s[|h|] == '\n'
  {
    if s == [] || s[0] == '\n' then [] else [s[0]] + Head(s[1..])
  }

  /** The strings of `parts`, in order, with `sep` between neighbours
      (Python's `sep.join(parts)`). */
  function Join(sep: string, parts: seq<string>): (r: string)
    ensures parts == [] ==> r == []
    ensures |parts| == 1 ==> r == parts[0]
  {
    if parts == [] then []
    else if |parts| == 1 then parts[0]
    else Join(sep, parts[..|parts| - 1]) + sep + parts[|parts| - 1]
  }

  /** The strings of `parts` laid end to end. */
  function Concat(parts: seq<string>): string {
    if parts == [] then [] else Concat(parts[..|parts| - 1]) + parts[|parts| - 1]
  }

  /** Joining with the empty separator is plain concatenation. */
  lemma {:induction false} JoinEmptyIsConcat(parts: seq<string>)
    ensures Join("", parts) == Concat(parts)
  {
    if |parts| > 1 {
      JoinEmptyIsConcat(parts[..|parts| - 1]);
    }
  }

  /** A non-empty sequence is its front followed by its last element. */
  lemma SplitLast<T>(s: seq<T>)
    requires s != []
    ensures s == s[..|s| - 1] + [s[|s| - 1]]
  {
  }

  /** The first i + 1 elements are the first i and then element i. */
  lemma TakeSnoc<T>(s: seq<T>, i: nat)
    requires i < |s|
    ensures s[..i + 1] == s[..i] + [s[i]]
  {
  }

  /** Appending one element after a concatenation. */
  lemma AppendAssoc<T>(a: seq<T>, b: seq<T>, x: T)
    ensures a + b + [x] == a + (b + [x])
  {
  }

  // ---------------------------------------------------------------------------
  // Columns of numbers

  function Sum(s: seq<real>): real {
    if s == [] then 0.0 else Sum(s[..|s| - 1]) + s[|s| - 1]
  }

  /** `A[1:] - A[:-1]`: each value minus the one before it. */
  function Steps(a: seq<real>): (d: seq<real>)
    ensures |d| == if a == [] then 0 else |a| - 1
    ensures forall i :: 0 <= i < |d| ==> d[i] == a[i + 1] - a[i]
  {
    if |a| <= 1 then [] else seq(|a| - 1, i requires 0 <= i < |a| - 1 => a[i + 1] - a[i])
  }

  /** The steps of a column add up to its last value minus its first. */
  lemma {:induction false} StepsTelescope(a: seq<real>)
    requires a != []
    ensures Sum(Steps(a)) == a[|a| - 1] - a[0]
    decreases |a|
  {
    if |a| > 1 {
      var init := a[..|a| - 1];
      StepsTelescope(init);
      var d := Steps(a);
      assert d[..|d| - 1] == Steps(init);
    }
  }
}
