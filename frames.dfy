/**
 * The tabular data the engine works on: a pandas DataFrame, as far as the
 * normaliser and the health check use it. A frame has an ordered list of
 * distinct column names and a sequence of rows; every row maps exactly the
 * frame's column names to cells.
 */
module Frames {
  import opened Wrappers

  /** A calendar timestamp; only the date part is ever used. */
  datatype Date = Date(year: int, month: int, day: int)

  /**
   * One cell. `Missing` stands for NaN, None and NaT alike (what pandas'
   * `isna` reports). `Num` is any int64 or float64 value, `Text` an object
   * (string) value, `Stamp` a datetime64 value.
   */
  datatype Cell = Text(s: string) | Num(x: real) | Missing | Stamp(d: Date)

  type Row = map<string, Cell>

  /** The value frozen out of a frame (what a pure function receives). */
  datatype Table = Table(names: seq<string>, rows: seq<Row>)

  /** The cell of `r` under `key`, reading an absent key as missing. */
  function Get(r: Row, key: string): (c: Cell)
    ensures key !in r ==> c == Missing
    ensures key in r ==> c == r[key]
  {
    if key in r then r[key] else Missing
  }

  /** pandas' `isna` on one cell. */
  predicate IsNa(c: Cell) {
    c.Missing?
  }

  /** The numeric value of a numeric cell; NaN and non-numbers have none. */
  function NumberOf(c: Cell): (v: Option<real>)
    ensures v.Some? <==> c.Num?
  {
    match c
    case Num(x) => Some(x)
    case _ => None
  }

  /** The date of a datetime cell; NaT and everything else have none. */
  function DateOf(c: Cell): (d: Option<Date>)
    ensures d.Some? <==> c.Stamp?
  {
    match c
    case Stamp(d) => Some(d)
    case _ => None
  }

  /**
   * `pd.to_datetime(cell, errors='coerce')`. Parsing text is pandas' own
   * business and is taken as the parameter `parse`; a datetime stays as it
   * is; NaN is NaT. pandas reads a number as nanoseconds since 1970-01-01;
   * that reading is not modelled, and a number is taken as NaT here.
   */
  function ToDatetime(c: Cell, parse: string -> Option<Date>): (d: Option<Date>)
    ensures c.Stamp? ==> d == Some(c.d)
    ensures c.Missing? ==> d == None
  {
    match c
    case Text(s) => parse(s)
    case Stamp(d) => Some(d)
    case _ => None
  }

  predicate Distinct(names: seq<string>) {
    forall i, j :: 0 <= i < j < |names| ==> names[i] != names[j]
  }

  function NameSet(names: seq<string>): set<string> {
    set n | n in names
  }

  /** A rectangular frame: distinct column names, every row keyed by exactly them. */
  predicate WellFormed(names: seq<string>, rows: seq<Row>) {
    && Distinct(names)
    && forall i :: 0 <= i < |rows| ==> rows[i].Keys == NameSet(names)
  }

  /** The column list after `df[name] = ...`: an existing column keeps its place, a new one goes last. */
  function WithName(names: seq<string>, name: string): (r: seq<string>)
    ensures NameSet(r) == NameSet(names) + {name}
    ensures Distinct(names) ==> Distinct(r)
    ensures name in names ==> r == names
    ensures name in r && forall n :: n in names ==> n in r
  {
    if name in names then names else names + [name]
  }

  /** The column list after `df.drop(columns=cols, errors='ignore')`. */
  function Without(names: seq<string>, cols: set<string>): (r: seq<string>)
    ensures forall n :: n in r <==> n in names && n !in cols
    ensures NameSet(r) == NameSet(names) - cols
    ensures Distinct(names) ==> Distinct(r)
    ensures |r| <= |names|
  {
    if names == [] then []
    else if names[0] in cols then Without(names[1..], cols)
    else
      var tail := Without(names[1..], cols);
      assert forall n :: n in names <==> n == names[0] || n in names[1..];
      [names[0]] + tail
  }

  /** A DataFrame that is updated in place, column by column. */
  class Frame {
    var names: seq<string>
    var rows: seq<Row>

    ghost predicate Valid()
      reads this
    {
      WellFormed(names, rows)
    }

    constructor (names: seq<string>, rows: seq<Row>)
      requires WellFormed(names, rows)
      ensures Valid()
      ensures this.names == names && this.rows == rows
    {
      this.names := names;
      this.rows := rows;
    }

    /** The frame's current content as a value. */
    function Snapshot(): (t: Table)
      reads this
      ensures t.names == names && t.rows == rows
    {
      Table(names, rows)
    }

    /** `df[name] = values`: adds the column, or overwrites it where it already exists. */
    method SetColumn(name: string, values: seq<Cell>)
      requires Valid()
      requires |values| == |rows|
      modifies this
      ensures Valid()
      ensures names == WithName(old(names), name)
      ensures |rows| == |old(rows)|
      ensures forall i :: 0 <= i < |rows| ==> rows[i] == old(rows[i])[name := values[i]]
    {
      var current := rows;
      var updated := seq(|current|, i requires 0 <= i < |current| => current[i][name := values[i]]);
      names := WithName(names, name);
      rows := updated;
    }

    /** `df.drop(columns=cols, errors='ignore')`: a new frame; this one is left as it is. */
    method Drop(cols: set<string>) returns (out: Frame)
      requires Valid()
      ensures fresh(out) && out.Valid()
      ensures out.names == Without(names, cols)
      ensures |out.rows| == |rows|
      ensures forall i :: 0 <= i < |rows| ==> out.rows[i] == rows[i] - cols
    {
      var current := rows;
      var kept := seq(|current|, i requires 0 <= i < |current| => current[i] - cols);
      out := new Frame(Without(names, cols), kept);
    }
  }
}
