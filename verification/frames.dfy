/**
 * The slice of pandas that the SITS pipeline relies on: a table whose
 * columns are named, whose cells are text, numbers or geometries, and the
 * column-level operations the pipeline applies to it in place.
 *
 * A table is stored row by row: every row is a map from column name to
 * cell, and every row has exactly the table's columns.
 */
module Frames {

  datatype Option<T> = None | Some(value: T)

  /** A polygon, carried through the pipeline without being inspected. */
  datatype Shape = Polygon(ring: seq<(real, real)>)

  /** One cell: text (tables are read with every field as text), a number, or a geometry. */
  datatype Cell = Text(text: string) | Num(val: real) | Geom(shape: Shape)

  type Row = map<string, Cell>

  /** pandas `to_numeric(errors='coerce')` followed by `fillna(0)`, for one cell. */
  function ToNumber(c: Cell, parse: string -> Option<real>): (x: real)
    ensures c.Num? ==> x == c.val
    ensures c.Text? && parse(c.text).Some? ==> x == parse(c.text).value
    ensures c.Text? && parse(c.text).None? ==> x == 0.0
  {
    match c
    case Num(v) => v
    case Text(s) => (match parse(s) case Some(v) => v case None => 0.0)
    case Geom(_) => 0.0
  }

  /** pandas `replace(0, 1)` for one cell: only a numeric zero is touched. */
  function OneIfZero(c: Cell): (d: Cell)
    ensures c == Num(0.0) ==> d == Num(1.0)
    ensures c != Num(0.0) ==> d == c
    ensures d.Num? == c.Num?
    ensures d.Num? ==> d.val != 0.0
  {
    if c == Num(0.0) then Num(1.0) else c
  }

  /** pandas `clip(0, 1)` for one number. */
  function Clip(x: real): (y: real)
    ensures 0.0 <= y <= 1.0
    ensures 0.0 <= x <= 1.0 ==> y == x
    ensures x < 0.0 ==> y == 0.0
    ensures x > 1.0 ==> y == 1.0
  {
    if x < 0.0 then 0.0 else if x > 1.0 then 1.0 else x
  }

  /** The row after `rename(columns={from: to})`. */
  function RenameKey(r: Row, from: string, to: string): (s: Row)
    requires from in r && to !in r
    ensures s.Keys == r.Keys - {from} + {to}
    ensures s[to] == r[from]
    ensures forall k :: k in r && k != from ==> s[k] == r[k]
  {
    (r - {from})[to := r[from]]
  }

  /** Boolean indexing `xs[keep]`: the elements whose flag is set, in order. */
  function Masked<T>(xs: seq<T>, keep: seq<bool>): (r: seq<T>)
    requires |keep| == |xs|
    ensures |r| <= |xs|
    ensures forall x :: x in r ==> exists i :: 0 <= i < |xs| && keep[i] && xs[i] == x
    ensures forall i :: 0 <= i < |xs| && keep[i] ==> xs[i] in r
    ensures r != [] ==> exists i :: 0 <= i < |xs| && keep[i] && xs[i] == r[0] &&
                                    forall j :: 0 <= j < i ==> !keep[j]
    decreases |xs|
  {
    if xs == [] then []
    else
      var rest := Masked(xs[1..], keep[1..]);
      assert forall i :: 1 <= i < |xs| ==> xs[i] == xs[1..][i - 1] && keep[i] == keep[1..][i - 1];
      if keep[0] then [xs[0]] + rest else rest
  }

  /** The positions from `from` on whose flag is set, in increasing order. */
  function Flagged(keep: seq<bool>, from: nat): (idx: seq<nat>)
    requires from <= |keep|
    ensures forall k :: 0 <= k < |idx| ==> from <= idx[k] < |keep| && keep[idx[k]]
    ensures forall k, l :: 0 <= k < l < |idx| ==> idx[k] < idx[l]
    ensures forall i :: from <= i < |keep| && keep[i] ==> i in idx
    decreases |keep| - from
  {
    if from == |keep| then []
    else
      var rest := Flagged(keep, from + 1);
      if keep[from] then [from] + rest else rest
  }

  /** `Masked` on the suffix from `from` picks the elements at `Flagged(keep, from)`. */
  lemma {:induction false} MaskedSuffix<T>(xs: seq<T>, keep: seq<bool>, from: nat)
    requires |keep| == |xs| && from <= |xs|
    ensures |Masked(xs[from..], keep[from..])| == |Flagged(keep, from)|
    ensures forall k :: 0 <= k < |Flagged(keep, from)| ==>
              Masked(xs[from..], keep[from..])[k] == xs[Flagged(keep, from)[k]]
    decreases |xs| - from
  {
    if from < |xs| {
      MaskedSuffix(xs, keep, from + 1);
      MaskedStep(xs, keep, from);
      var rest := Masked(xs[from + 1..], keep[from + 1..]);
      var later := Flagged(keep, from + 1);
      var m := Masked(xs[from..], keep[from..]);
      var idx := Flagged(keep, from);
      if keep[from] {
        assert m == [xs[from]] + rest && idx == [from] + later;
        PicksCons(xs, from, rest, later);
      } else {
        assert m == rest && idx == later;
      }
    }
  }

  /** One step of `Masked` on a suffix. */
  lemma MaskedStep<T>(xs: seq<T>, keep: seq<bool>, from: nat)
    requires |keep| == |xs| && from < |xs|
    ensures Masked(xs[from..], keep[from..]) ==
            (if keep[from] then [xs[from]] else []) + Masked(xs[from + 1..], keep[from + 1..])
  {
    assert xs[from..][1..] == xs[from + 1..];
    assert keep[from..][1..] == keep[from + 1..];
  }

  /** Picking one more position in front of a picked sequence. */
  lemma PicksCons<T>(xs: seq<T>, from: nat, rest: seq<T>, later: seq<nat>)
    requires from < |xs| && |rest| == |later|
    requires forall k :: 0 <= k < |later| ==> later[k] < |xs| && rest[k] == xs[later[k]]
    ensures forall k :: 0 <= k < |later| + 1 ==>
              ([from] + later)[k] < |xs| && ([xs[from]] + rest)[k] == xs[([from] + later)[k]]
  {
  }

  /**
   * Boolean indexing keeps order and multiplicity: there are as many
   * elements as flags set, and the k-th element is the one at the k-th
   * flagged position.
   */
  lemma MaskedOrder<T>(xs: seq<T>, keep: seq<bool>)
    requires |keep| == |xs|
    ensures |Masked(xs, keep)| == |Flagged(keep, 0)|
    ensures forall k :: 0 <= k < |Masked(xs, keep)| ==> Masked(xs, keep)[k] == xs[Flagged(keep, 0)[k]]
  {
    MaskedSuffix(xs, keep, 0);
    assert xs[0..] == xs && keep[0..] == keep;
  }

  /** A pandas DataFrame: a set of column names and rows that all carry exactly those columns. */
  class Frame {
    var columns: set<string>
    var rows: seq<Row>

    ghost predicate Valid()
      reads this
    {
      forall i :: 0 <= i < |rows| ==> rows[i].Keys == columns
    }

    constructor (cols: set<string>, rs: seq<Row>)
      requires forall i :: 0 <= i < |rs| ==> rs[i].Keys == cols
      ensures Valid() && columns == cols && rows == rs
    {
      columns := cols;
      rows := rs;
    }

    /** Column assignment: column `c` takes the given value in each row, added or replaced. */
    method Assign(c: string, values: seq<Cell>)
      requires Valid() && |values| == |rows|
      modifies this
      ensures Valid() && columns == old(columns) + {c}
      ensures |rows| == |old(rows)|
      ensures forall i :: 0 <= i < |rows| ==> rows[i] == old(rows)[i][c := values[i]]
    {
      var rs: seq<Row> := rows;
      rows := seq(|rs|, i requires 0 <= i < |rs| => rs[i][c := values[i]]);
      columns := columns + {c};
    }

    /** In-place column rename from `from` to `to`. */
    method Rename(from: string, to: string)
      requires Valid() && from in columns && to !in columns
      modifies this
      ensures Valid() && columns == old(columns) - {from} + {to}
      ensures |rows| == |old(rows)|
      ensures forall i :: 0 <= i < |rows| ==> rows[i] == RenameKey(old(rows)[i], from, to)
    {
      var rs: seq<Row> := rows;
      rows := seq(|rs|, i requires 0 <= i < |rs| => RenameKey(rs[i], from, to));
      columns := columns - {from} + {to};
    }

    /** Numeric coercion of column `c` with unparsable or missing values set to 0. */
    method ToNumeric(c: string, parse: string -> Option<real>)
      requires Valid() && c in columns
      modifies this
      ensures Valid() && columns == old(columns)
      ensures |rows| == |old(rows)|
      ensures forall i :: 0 <= i < |rows| ==>
                rows[i] == old(rows)[i][c := Num(ToNumber(old(rows)[i][c], parse))]
    {
      var rs: seq<Row> := rows;
      rows := seq(|rs|, i requires 0 <= i < |rs| => rs[i][c := Num(ToNumber(rs[i][c], parse))]);
    }

    /** Column `c` with every numeric zero replaced by one. */
    method ReplaceZero(c: string)
      requires Valid() && c in columns
      modifies this
      ensures Valid() && columns == old(columns)
      ensures |rows| == |old(rows)|
      ensures forall i :: 0 <= i < |rows| ==> rows[i] == old(rows)[i][c := OneIfZero(old(rows)[i][c])]
    {
      var rs: seq<Row> := rows;
      rows := seq(|rs|, i requires 0 <= i < |rs| => rs[i][c := OneIfZero(rs[i][c])]);
    }

    /** A numeric column `c` clipped to the interval [0,1]. */
    method ClipColumn(c: string)
      requires Valid() && c in columns
      requires forall i :: 0 <= i < |rows| ==> rows[i][c].Num?
      modifies this
      ensures Valid() && columns == old(columns)
      ensures |rows| == |old(rows)|
      ensures forall i :: 0 <= i < |rows| ==> rows[i] == old(rows)[i][c := Num(Clip(old(rows)[i][c].val))]
    {
      var rs: seq<Row> := rows;
      rows := seq(|rs|, i requires 0 <= i < |rs| => rs[i][c := Num(Clip(rs[i][c].val))]);
    }

    /** Boolean row selection: keep the rows whose flag is set. */
    method Mask(keep: seq<bool>)
      requires Valid() && |keep| == |rows|
      modifies this
      ensures Valid() && columns == old(columns)
      ensures rows == Masked(old(rows), keep)
    {
      var rs := Masked(rows, keep);
      forall i | 0 <= i < |rs| ensures rs[i].Keys == columns {
        assert rs[i] in rs;
      }
      rows := rs;
    }
  }
}
