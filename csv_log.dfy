/** The CSV log: how `csv.writer` turns a row of values into fields,
    `write_csv_data` (core.py), and how `float()` reads a field back. */
module CsvLog {
  import opened Py

  /** A field of a log row: empty, the text of a number (Python writes a float
      with `repr`, which `float()` reads back exactly, and an int with `str`),
      the text of a string, or the text of a datetime. */
  datatype Cell = Empty | Number(n: real) | Text(s: string) | DateTimeText(stamp: real)

  /** The field `csv.writer` writes for a value: `None` and `''` become an
      empty field. */
  function ToCell(v: Value): Cell {
    match v
    case VNone => Empty
    case VInt(i) => Number(i as real)
    case VFloat(f) => Number(f)
    case VStr(s) => if s == "" then Empty else Text(s)
    case VDateTime(t) => DateTimeText(t)
  }

  /** The fields of one `writerow(row)`, one per value, in order. */
  function Serialise(row: seq<Value>): (cells: seq<Cell>)
    ensures |cells| == |row|
    ensures forall k :: 0 <= k < |row| ==> cells[k] == ToCell(row[k])
  {
    if row == [] then [] else [ToCell(row[0])] + Serialise(row[1..])
  }

  /** `float(field)`: the text of a number parses; an empty field, a string
      and a datetime's text raise `ValueError`. */
  function ParseFloat(c: Cell): (r: Result<real>)
    ensures r.Ok? <==> c.Number?
    ensures r.Ok? ==> r.value == c.n
    ensures r.Err? ==> r.error.ValueError?
  {
    match c
    case Number(n) => Ok(n)
    case _ => Err(ValueError("could not convert string to float"))
  }

  /** What is written for a number reads back as that number, and `None` is
      written as the empty field. */
  lemma CellRoundTrip(v: Value)
    ensures v.VFloat? ==> ParseFloat(ToCell(v)) == Ok(v.f)
    ensures v.VInt? ==> ParseFloat(ToCell(v)) == Ok(v.i as real)
    ensures v.VNone? ==> ToCell(v) == Empty
    ensures v.VDateTime? ==> ParseFloat(ToCell(v)).Err?
  {
  }

  /** A `csv.writer` over a log file opened in append mode: the rows already in
      the file, followed by those written since. */
  class CsvWriter {
    var lines: seq<seq<Cell>>

    constructor (existing: seq<seq<Cell>>)
      ensures lines == existing
    {
      lines := existing;
    }

    /** `writer.writerow(row)`: appends one line and never rewrites earlier ones. */
    method WriteRow(row: seq<Value>)
      modifies this
      ensures lines == old(lines) + [Serialise(row)]
    {
      lines := lines + [Serialise(row)];
    }
  }

  /** `write_csv_data(writer, data)`: returns `data` unchanged; writes it as one
      row unless it is `None`, which writes nothing. */
  method WriteCsvData(writer: CsvWriter, data: Option<seq<Value>>) returns (r: Option<seq<Value>>)
    modifies writer
    ensures r == data
    ensures data.None? ==> writer.lines == old(writer.lines)
    ensures data.Some? ==> writer.lines == old(writer.lines) + [Serialise(data.value)]
  {
    if data.None? {
      return data;
    }
    writer.WriteRow(data.value);
    r := data;
  }
}
