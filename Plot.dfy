/** The bookkeeping half of the chart helpers: the tick search, the
    None-to-zero cleaning of bar values, the two plot accumulators and the
    label checks `BarPlot.draw` makes before drawing. Drawing itself is
    not modelled. */
module Plot {
  import opened Common

  // ---------------------------------------------------------------------------
  // list_ceil

  /** The first tick, in order, that is strictly greater than `value`,
      or `None` when there is none. */
  function ListCeil(value: real, ticks: seq<real>): (r: Option<real>)
    ensures r.None? <==> forall i :: 0 <= i < |ticks| ==> ticks[i] <= value
    ensures r.Some? ==> r.value in ticks && r.value > value
  {
    if ticks == [] then None
    else if ticks[0] > value then Some(ticks[0])
    else ListCeil(value, ticks[1..])
  }

  /** The tick found is the first one above `value`: every tick before it
      is at most `value`. */
  lemma {:induction false} ListCeilFirst(value: real, ticks: seq<real>, k: nat)
    requires k < |ticks| && ticks[k] > value
    requires forall j :: 0 <= j < k ==> ticks[j] <= value
    ensures ListCeil(value, ticks) == Some(ticks[k])
    decreases k
  {
    if k > 0 {
      assert ticks[0] <= value;
      ListCeilFirst(value, ticks[1..], k - 1);
    }
  }

  // ---------------------------------------------------------------------------
  // Values of a bar and remove_none

  /** A value passed to `BarPlot.add`: Python's `None`, an `int` or a `float`. */
  datatype Value = NoneValue | IntValue(i: int) | FloatValue(f: real)

  function Num(v: Value): real
    requires !v.NoneValue?
  {
    if v.IntValue? then v.i as real else v.f
  }

  /** The numbers of a bar: `None` becomes 0, every other value is kept as
      it is. (The `x == np.nan` test of the source is never true, so it
      adds no case.) */
  function RemoveNone(args: seq<Value>): (r: seq<real>)
    ensures |r| == |args|
    ensures forall i :: 0 <= i < |args| ==> r[i] == if args[i].NoneValue? then 0.0 else Num(args[i])
  {
    seq(|args|, i requires 0 <= i < |args| => if args[i].NoneValue? then 0.0 else Num(args[i]))
  }

  /** Truncation toward zero, as Python's `int(x)` and numpy's float to
      integer cast do it. */
  function Trunc(x: real): (n: int)
    ensures x >= 0.0 ==> n as real <= x < n as real + 1.0
    ensures x < 0.0 ==> n as real - 1.0 < x <= n as real
  {
    if x >= 0.0 then x.Floor else -((-x).Floor)
  }

  /** `np.vectorize(...)(args)` as it behaves: `args` becomes an object
      array when it holds a `None`, and the output type is then taken from
      the result for the FIRST element. When that result is an integer (the
      first value is `None` or an `int`), every float of the output is cut
      to an integer. Without a `None` the array is numeric and nothing
      changes besides the zero for `None`. */
  function RemoveNoneAsWritten(args: seq<Value>): (r: seq<real>)
    ensures |r| == |args|
  {
    var cut := NoneValue in args && |args| > 0 && !args[0].FloatValue?;
    seq(|args|, i requires 0 <= i < |args| =>
      if args[i].NoneValue? then 0.0
      else if cut && args[i].FloatValue? then Trunc(args[i].f) as real
      else Num(args[i]))
  }

  /** A bar of `None` and 2.5 comes out as [0, 2]: the 2.5 is lost, and the
      running maximum computed from it stays below a value that was added. */
  lemma RemoveNoneTruncates()
    ensures RemoveNoneAsWritten([NoneValue, FloatValue(2.5)]) == [0.0, 2.0]
    ensures SeqMax(RemoveNoneAsWritten([NoneValue, FloatValue(2.5)])) < 2.5
    ensures RemoveNone([NoneValue, FloatValue(2.5)]) == [0.0, 2.5]
  {
    var args := [NoneValue, FloatValue(2.5)];
    var r := RemoveNoneAsWritten(args);
    assert args[0] == NoneValue;
    assert Trunc(2.5) == 2;
    assert r[0] == 0.0 && r[1] == 2.0;
    assert r == [0.0, 2.0];
  }

  /** Without a `None` the two agree: the cut only happens on object arrays. */
  lemma RemoveNoneAsWrittenWithoutNone(args: seq<Value>)
    requires NoneValue !in args
    ensures RemoveNoneAsWritten(args) == RemoveNone(args)
  {
  }

  // ---------------------------------------------------------------------------
  // Maxima

  function Max(a: real, b: real): (m: real)
    ensures m >= a && m >= b && (m == a || m == b)
  {
    if b > a then b else a
  }

  /** Python's `max` of a non-empty list of numbers. */
  function SeqMax(s: seq<real>): (m: real)
    requires s != []
    ensures forall i :: 0 <= i < |s| ==> s[i] <= m
    ensures exists i :: 0 <= i < |s| && s[i] == m
  {
    if |s| == 1 then s[0] else Max(SeqMax(s[..|s| - 1]), s[|s| - 1])
  }

  /** The maximum of a cleaned bar bounds every value that is not `None`,
      and is at least 0 when a `None` is present. */
  lemma RemoveNoneBound(args: seq<Value>)
    requires args != []
    ensures forall i :: 0 <= i < |args| && !args[i].NoneValue? ==> Num(args[i]) <= SeqMax(RemoveNone(args))
    ensures NoneValue in args ==> 0.0 <= SeqMax(RemoveNone(args))
  {
    var r := RemoveNone(args);
    if NoneValue in args {
      var i :| 0 <= i < |args| && args[i] == NoneValue;
      assert r[i] == 0.0;
    }
  }

  // ---------------------------------------------------------------------------
  // LinePlot

  /** One `ax.plot` call to replay: its x and y values (keyword arguments
      are passed through unread and not modelled). */
  datatype Series = Series(xs: seq<real>, ys: seq<real>)

  /** Why an `add` failed. */
  datatype PlotError =
    | EmptyValues    // `max` of an empty `Y`, or `remove_none` of an empty bar
    | ColumnMismatch // `BarPlot.add` with a width other than `cols`
    | LabelLost      // `draw` without labels on more than one column
    | LabelCount     // `draw` given a number of labels other than `cols`

  class LinePlot {
    var data: seq<Series>
    var maxY: real

    /** The running maximum is never negative and bounds every y value added. */
    ghost predicate Valid()
      reads this
    {
      && maxY >= 0.0
      && forall k, i :: 0 <= k < |data| && 0 <= i < |data[k].ys| ==> data[k].ys[i] <= maxY
    }

    constructor ()
      ensures data == [] && maxY == 0.0
      ensures Valid()
    {
      data := [];
      maxY := 0.0;
    }

    /** `add(X, Y)`: the series is kept first; `max(Y)` then fails on an
        empty `Y`, leaving the maximum as it was. */
    method Add(xs: seq<real>, ys: seq<real>) returns (r: Result<(), PlotError>)
      requires Valid()
      modifies this
      ensures data == old(data) + [Series(xs, ys)]
      ensures r.Err? <==> ys == []
      ensures r.Err? ==> r.error == EmptyValues && maxY == old(maxY)
      ensures r.Ok? ==> maxY == Max(old(maxY), SeqMax(ys))
      ensures maxY >= old(maxY)
      ensures forall i :: 0 <= i < |ys| ==> ys[i] <= maxY
      ensures Valid()
    {
      data := data + [Series(xs, ys)];
      if ys == [] {
        return Err(EmptyValues);
      }
      maxY := Max(maxY, SeqMax(ys));
      r := Ok(());
    }
  }

  // ---------------------------------------------------------------------------
  // BarPlot

  class BarPlot {
    /** The number of values per bar group, fixed by the first `add`. */
    var cols: Option<nat>
    var data: seq<seq<Value>>
    /** `self.label`: one x tick label per group. */
    var xLabels: seq<string>
    var maxY: real

    /** A label per group, every group `cols` values wide, and the running
        maximum at least 0 and at least every value that is not `None`. */
    ghost predicate Valid()
      reads this
    {
      && |data| == |xLabels|
      && (cols.None? ==> data == [])
      && (forall k :: 0 <= k < |data| ==> cols.Some? && |data[k]| == cols.value)
      && maxY >= 0.0
      && forall k, i :: 0 <= k < |data| && 0 <= i < |data[k]| && !data[k][i].NoneValue? ==> Num(data[k][i]) <= maxY
    }

    constructor ()
      ensures cols == None && data == [] && xLabels == [] && maxY == 0.0
      ensures Valid()
    {
      cols := None;
      data := [];
      xLabels := [];
      maxY := 0.0;
    }

    /** `add(label, *args)`. A mismatching width fails the assertion before
        anything changes; otherwise the group and its label are kept, and
        an empty group fails in `remove_none`, which refuses an empty input. */
    method Add(lbl: string, args: seq<Value>) returns (r: Result<(), PlotError>)
      requires Valid()
      modifies this
      ensures old(cols).Some? && old(cols).value != |args| ==>
        r == Err(ColumnMismatch) && cols == old(cols) && data == old(data) && xLabels == old(xLabels) && maxY == old(maxY)
      ensures old(cols).None? || old(cols).value == |args| ==>
        && cols == Some(|args|)
        && data == old(data) + [args]
        && xLabels == old(xLabels) + [lbl]
        && (r.Err? <==> args == [])
        && (r.Err? ==> r.error == EmptyValues && maxY == old(maxY))
        && (r.Ok? ==> maxY == Max(old(maxY), SeqMax(RemoveNone(args))))
      ensures maxY >= old(maxY)
      ensures r.Ok? ==> forall i :: 0 <= i < |args| && !args[i].NoneValue? ==> Num(args[i]) <= maxY
      ensures Valid()
    {
      if cols.None? {
        cols := Some(|args|);
      } else if cols.value != |args| {
        return Err(ColumnMismatch);
      }
      data := data + [args];
      xLabels := xLabels + [lbl];
      if args == [] {
        return Err(EmptyValues);
      }
      RemoveNoneBound(args);
      maxY := Max(maxY, SeqMax(RemoveNone(args)));
      r := Ok(());
    }

    /** The labels `draw(ax, labels)` goes on to use, or why it stops:
        without labels only a single column may be drawn, under the empty
        label; given labels must number exactly `cols`. */
    function Labels(labels: Option<seq<string>>): (r: Result<seq<string>, PlotError>)
      reads this
      ensures r.Ok? <==>
        || (labels.None? && cols == Some(1))
        || (labels.Some? && cols.Some? && |labels.value| == cols.value)
      ensures labels.None? && cols != Some(1) ==> r == Err(LabelLost)
      ensures r.Ok? ==> cols.Some? && |r.value| == cols.value
      ensures r.Ok? ==> r.value == if labels.None? then [""] else labels.value
    {
      var given :- if labels.Some? then Ok(labels.value) else if cols == Some(1) then Ok([""]) else Err(LabelLost);
      if cols.Some? && |given| == cols.value then Ok(given) else Err(LabelCount)
    }
  }
}
