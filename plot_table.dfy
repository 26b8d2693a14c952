/** `_PlotTable` (Plot.py): the bounded window of timestamps `x` and latencies
    `y` the live chart draws, and the `table_length` override applied to it by
    `_Plot.__init__`. */
module PlotTables {
  import opened Py
  import Window

  /** The capacity a table gets when it is constructed with `length=None`. */
  const DefaultLength: int := 250

  /** The state of a table as a value: the two lists and the capacity. */
  datatype Table = Table(x: seq<real>, y: seq<real>, length: int)

  /** A table as its constructor leaves it, with both lists within capacity. */
  predicate Bounded(t: Table) {
    |t.x| <= t.length && |t.y| <= t.length
  }

  /** The constructor's validation of `length`: `None` gives the default, a
      positive int is taken as it is, a non-positive int is a `ValueError` and
      any other type a `TypeError`. */
  function CheckLength(length: Value): (r: Result<int>)
    ensures r.Ok? <==> length.VNone? || (length.VInt? && length.i >= 1)
    ensures r.Ok? ==> r.value >= 1
    ensures length.VNone? ==> r == Ok(DefaultLength)
    ensures length.VInt? && length.i >= 1 ==> r == Ok(length.i)
    ensures length.VInt? && length.i <= 0 ==> r.Err? && r.error.ValueError?
    ensures !length.VNone? && !length.VInt? ==> r.Err? && r.error.TypeError?
  {
    match length
    case VNone => Ok(DefaultLength)
    case VInt(n) =>
      if n <= 0 then Err(ValueError("Requires a table length of at least 1"))
      else Ok(n)
    case _ => Err(TypeError("length must be int or None"))
  }

  /** `appendx(a)` on a table value: only a datetime is accepted; the list
      grows or evicts its oldest entry as `Window.Append` says; `y` and the
      capacity never change, and on an exception nothing changes. */
  function AppendedX(t: Table, a: Value): (r: (Outcome, Table))
    ensures r.1.y == t.y && r.1.length == t.length
    ensures r.0.Fail? ==> r.1 == t
    ensures !a.VDateTime? ==> r.0 == Fail(TypeError("Requires a datetime.datetime object"))
    ensures r.0.Pass? <==> a.VDateTime? && Window.Append(t.x, a.stamp, t.length).Ok?
    ensures r.0.Pass? ==> r.1.x == Window.Append(t.x, a.stamp, t.length).value
  {
    if !a.VDateTime? then (Fail(TypeError("Requires a datetime.datetime object")), t)
    else
      match Window.Append(t.x, a.stamp, t.length)
      case Err(e) => (Fail(e), t)
      case Ok(x') => (Pass, t.(x := x'))
  }

  /** `appendy(a)` on a table value: only a float is accepted (an int is not);
      otherwise as `AppendedX`, on `y`, leaving `x` alone. */
  function AppendedY(t: Table, a: Value): (r: (Outcome, Table))
    ensures r.1.x == t.x && r.1.length == t.length
    ensures r.0.Fail? ==> r.1 == t
    ensures !a.VFloat? ==> r.0 == Fail(TypeError("PlotTable.appendy requires float type data."))
    ensures r.0.Pass? <==> a.VFloat? && Window.Append(t.y, a.f, t.length).Ok?
    ensures r.0.Pass? ==> r.1.y == Window.Append(t.y, a.f, t.length).value
  {
    if !a.VFloat? then (Fail(TypeError("PlotTable.appendy requires float type data.")), t)
    else
      match Window.Append(t.y, a.f, t.length)
      case Err(e) => (Fail(e), t)
      case Ok(y') => (Pass, t.(y := y'))
  }

  /** Appends of the right type never fail on a table the constructor built and
      keep both lists within capacity. */
  lemma AppendsKeepBounded(t: Table, a: Value)
    requires Bounded(t) && t.length >= 1
    ensures a.VDateTime? ==> AppendedX(t, a).0.Pass?
    ensures a.VFloat? ==> AppendedY(t, a).0.Pass?
    ensures Bounded(AppendedX(t, a).1) && Bounded(AppendedY(t, a).1)
  {
    if a.VDateTime? { Window.AppendKeepsBound(t.x, a.stamp, t.length); }
    if a.VFloat? { Window.AppendKeepsBound(t.y, a.f, t.length); }
  }

  /** After `table_length` lowered the capacity below the number of stored
      timestamps, the next `appendx` keeps the list at its length, so the
      table is no longer `Bounded`. */
  lemma LoweredLengthStaysOverfull(t: Table, a: Value)
    requires a.VDateTime? && |t.x| > t.length && |t.x| > 0
    ensures AppendedX(t, a).0.Pass?
    ensures |AppendedX(t, a).1.x| == |t.x|
    ensures !Bounded(AppendedX(t, a).1)
  {
    Window.AppendOverfull(t.x, a.stamp, t.length);
  }

  /** `_PlotTable`: the two lists the live chart draws and their capacity.
      The capacity is a public attribute that `ApplyTableLength` reassigns,
      so `Bounded` holds after construction but is not an invariant. */
  class PlotTable {
    var x: seq<real>
    var y: seq<real>
    var length: int

    function View(): Table
      reads this
    {
      Table(x, y, length)
    }

    /** The constructor after `CheckLength` accepted the capacity. */
    constructor (length: int)
      requires length >= 1
      ensures View() == Table([], [], length) && Bounded(View())
    {
      x := [];
      y := [];
      this.length := length;
    }

    method AppendX(a: Value) returns (r: Outcome)
      modifies this
      ensures (r, View()) == AppendedX(old(View()), a)
    {
      if !a.VDateTime? {
        return Fail(TypeError("Requires a datetime.datetime object"));
      }
      if |x| < length {
        x := x + [a.stamp];
      } else if |x| == 0 {
        return Fail(IndexError("pop from empty list"));
      } else {
        x := x[1..];
        x := x + [a.stamp];
      }
      r := Pass;
    }

    method AppendY(a: Value) returns (r: Outcome)
      modifies this
      ensures (r, View()) == AppendedY(old(View()), a)
    {
      if !a.VFloat? {
        return Fail(TypeError("PlotTable.appendy requires float type data."));
      }
      if |y| < length {
        y := y + [a.f];
      } else if |y| == 0 {
        return Fail(IndexError("pop from empty list"));
      } else {
        y := y[1..];
        y := y + [a.f];
      }
      r := Pass;
    }

    method GetX() returns (r: seq<real>)
      ensures r == x
    {
      r := x;
    }

    method GetY() returns (r: seq<real>)
      ensures r == y
    {
      r := y;
    }
  }

  /** `_PlotTable(length)`: validates the capacity, then builds an empty table. */
  method NewPlotTable(length: Value) returns (r: Result<PlotTable>)
    ensures r.Ok? <==> CheckLength(length).Ok?
    ensures r.Ok? ==> fresh(r.value) && r.value.View() == Table([], [], CheckLength(length).value)
    ensures r.Err? ==> r.error == CheckLength(length).error
  {
    match CheckLength(length)
    case Err(e) =>
      r := Err(e);
    case Ok(n) =>
      var t := new PlotTable(n);
      r := Ok(t);
  }

  /** The `table_length` keyword of `_Plot.__init__`: `None` leaves the shared
      table alone, an int of any sign becomes its capacity without touching
      the lists, and any other type is a `TypeError`. */
  method ApplyTableLength(t: PlotTable, tableLength: Value) returns (r: Outcome)
    modifies t
    ensures t.x == old(t.x) && t.y == old(t.y)
    ensures tableLength.VNone? ==> r == Pass && t.length == old(t.length)
    ensures tableLength.VInt? ==> r == Pass && t.length == tableLength.i
    ensures !tableLength.VNone? && !tableLength.VInt? ==>
      r == Fail(TypeError("table_length is not None or int")) && t.length == old(t.length)
  {
    match tableLength
    case VNone =>
      r := Pass;
    case VInt(n) =>
      t.length := n;
      r := Pass;
    case _ =>
      r := Fail(TypeError("table_length is not None or int"));
  }
}
