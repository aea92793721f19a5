/**
 * The population projection of `procesar_geo`: nine base-year (2020)
 * columns copied from census counts, defaulting to 0, then one projected
 * (2025) column per base-year column, at a fixed growth factor of 1.05.
 */
module Projection {
  import opened Frames

  /** The static growth factor; a Dafny real literal is exact, so this is 105/100. */
  const GROWTH: real := 1.05

  /** The nine base-year columns. */
  const P20_NAMES: set<string> :=
    {"P20_TOT", "P20_FEM", "P20_MAS", "P20_IND", "P20_AFRO", "P20_DISC", "P20_JEFAS", "P20_NINOS", "P20_MAYORES"}

  /** The helper `safe`: a present column's cell, or the number 0. */
  function Safe(r: Row, c: string): (d: Cell)
    ensures c in r ==> d == r[c]
    ensures c !in r ==> d == Num(0.0)
  {
    if c in r then r[c] else Num(0.0)
  }

  /** One base-year assignment for one row: `dst` takes the `safe` value of `src`. */
  function SetSafe(r: Row, dst: string, src: string): Row
  {
    r[dst := Safe(r, src)]
  }

  /** A row after the first four `P20_*` assignments: total, female, male and indigenous population. */
  function P20Counts(r: Row): Row
  {
    var r1 := SetSafe(r, "P20_TOT", "POBTOT");
    var r2 := SetSafe(r1, "P20_FEM", "POBFEM");
    var r3 := SetSafe(r2, "P20_MAS", "POBMAS");
    SetSafe(r3, "P20_IND", "P3YM_HLI")
  }

  /** A row after the nine `P20_*` assignments. */
  function WithP20(r: Row): Row
  {
    var r4 := P20Counts(r);
    var r5 := SetSafe(r4, "P20_AFRO", "POB_AFRO");
    var r6 := SetSafe(r5, "P20_DISC", "PCON_DISC");
    var r7 := SetSafe(r6, "P20_JEFAS", "HOGJEF_F");
    var r8 := SetSafe(r7, "P20_NINOS", "POB0_14");
    SetSafe(r8, "P20_MAYORES", "P_60YMAS")
  }

  /** The nine base-year columns are added to the row's columns. */
  lemma P20Keys(r: Row)
    ensures WithP20(r).Keys == r.Keys + P20_NAMES
  {
  }

  /** The first four base-year columns, and the source columns of the other five, after the first four assignments. */
  lemma P20CountsValues(r: Row)
    ensures P20Counts(r)["P20_TOT"] == Safe(r, "POBTOT")
    ensures P20Counts(r)["P20_FEM"] == Safe(r, "POBFEM")
    ensures P20Counts(r)["P20_MAS"] == Safe(r, "POBMAS")
    ensures P20Counts(r)["P20_IND"] == Safe(r, "P3YM_HLI")
    ensures Safe(P20Counts(r), "POB_AFRO") == Safe(r, "POB_AFRO")
    ensures Safe(P20Counts(r), "PCON_DISC") == Safe(r, "PCON_DISC")
    ensures Safe(P20Counts(r), "HOGJEF_F") == Safe(r, "HOGJEF_F")
    ensures Safe(P20Counts(r), "POB0_14") == Safe(r, "POB0_14")
    ensures Safe(P20Counts(r), "P_60YMAS") == Safe(r, "P_60YMAS")
  {
  }

  /** Each base-year column equals its census column, or 0 when that column is absent. */
  lemma P20Values(r: Row)
    ensures WithP20(r)["P20_TOT"] == Safe(r, "POBTOT")
    ensures WithP20(r)["P20_FEM"] == Safe(r, "POBFEM")
    ensures WithP20(r)["P20_MAS"] == Safe(r, "POBMAS")
    ensures WithP20(r)["P20_IND"] == Safe(r, "P3YM_HLI")
    ensures WithP20(r)["P20_AFRO"] == Safe(r, "POB_AFRO")
    ensures WithP20(r)["P20_DISC"] == Safe(r, "PCON_DISC")
    ensures WithP20(r)["P20_JEFAS"] == Safe(r, "HOGJEF_F")
    ensures WithP20(r)["P20_NINOS"] == Safe(r, "POB0_14")
    ensures WithP20(r)["P20_MAYORES"] == Safe(r, "P_60YMAS")
  {
    P20FirstValues(r);
    P20LastValues(r);
  }

  /** The first four base-year columns are not overwritten by the last five assignments. */
  lemma P20FirstValues(r: Row)
    ensures WithP20(r)["P20_TOT"] == Safe(r, "POBTOT")
    ensures WithP20(r)["P20_FEM"] == Safe(r, "POBFEM")
    ensures WithP20(r)["P20_MAS"] == Safe(r, "POBMAS")
    ensures WithP20(r)["P20_IND"] == Safe(r, "P3YM_HLI")
  {
    P20CountsValues(r);
  }

  /** The last five base-year columns copy census columns the first four assignments left alone. */
  lemma P20LastValues(r: Row)
    ensures WithP20(r)["P20_AFRO"] == Safe(r, "POB_AFRO")
    ensures WithP20(r)["P20_DISC"] == Safe(r, "PCON_DISC")
    ensures WithP20(r)["P20_JEFAS"] == Safe(r, "HOGJEF_F")
    ensures WithP20(r)["P20_NINOS"] == Safe(r, "POB0_14")
    ensures WithP20(r)["P20_MAYORES"] == Safe(r, "P_60YMAS")
  {
    P20CountsValues(r);
  }

  /** Every other column keeps its value. */
  lemma P20OthersUnchanged(r: Row)
    ensures forall k :: k in r && k !in P20_NAMES ==> WithP20(r)[k] == r[k]
  {
  }

  /** One base-year assignment in place: `dst` takes the `safe` value of `src`, which looks at the frame's columns. */
  method AssignSafe(final: Frame, dst: string, src: string)
    requires final.Valid()
    modifies final
    ensures final.Valid() && final.columns == old(final.columns) + {dst}
    ensures |final.rows| == |old(final.rows)|
    ensures forall i :: 0 <= i < |final.rows| ==> final.rows[i] == SetSafe(old(final.rows)[i], dst, src)
  {
    var rs: seq<Row> := final.rows;
    var values: seq<Cell>;
    if src in final.columns {
      values := seq(|rs|, i requires 0 <= i < |rs| => rs[i][src]);
    } else {
      values := seq(|rs|, i => Num(0.0));
    }
    final.Assign(dst, values);
  }

  /** The nine `P20_*` assignments, in source order. */
  method AssignP20(final: Frame)
    requires final.Valid()
    modifies final
    ensures final.Valid() && final.columns == old(final.columns) + P20_NAMES
    ensures |final.rows| == |old(final.rows)|
    ensures forall i :: 0 <= i < |final.rows| ==> final.rows[i] == WithP20(old(final.rows)[i])
  {
    ghost var rs0: seq<Row> := final.rows;
    AssignSafe(final, "P20_TOT", "POBTOT");
    AssignSafe(final, "P20_FEM", "POBFEM");
    AssignSafe(final, "P20_MAS", "POBMAS");
    AssignSafe(final, "P20_IND", "P3YM_HLI");
    ghost var rs4: seq<Row> := final.rows;
    forall i | 0 <= i < |rs0| ensures rs4[i] == P20Counts(rs0[i]) {}
    AssignSafe(final, "P20_AFRO", "POB_AFRO");
    AssignSafe(final, "P20_DISC", "PCON_DISC");
    AssignSafe(final, "P20_JEFAS", "HOGJEF_F");
    AssignSafe(final, "P20_NINOS", "POB0_14");
    AssignSafe(final, "P20_MAYORES", "P_60YMAS");
    P20NamesAdded(old(final.columns));
  }

  /** Adding the nine names one at a time adds `P20_NAMES`. */
  lemma P20NamesAdded(cols: set<string>)
    ensures cols + {"P20_TOT"} + {"P20_FEM"} + {"P20_MAS"} + {"P20_IND"} + {"P20_AFRO"}
              + {"P20_DISC"} + {"P20_JEFAS"} + {"P20_NINOS"} + {"P20_MAYORES"} == cols + P20_NAMES
  {
  }

  predicate IsP20(c: string)
  {
    |c| >= 4 && c[..4] == "P20_"
  }

  predicate IsP25(c: string)
  {
    |c| >= 4 && c[..4] == "P25_"
  }

  /** The projected column's name: the `P20_` prefix swapped for `P25_`. */
  function P25Name(c: string): string
    requires IsP20(c)
  {
    "P25_" + c[4..]
  }

  /** The base-year column a projected column comes from. */
  function P20Name(k: string): string
    requires IsP25(k)
  {
    "P20_" + k[4..]
  }

  /**
   * The two names determine each other: a projected name is never a
   * base-year name, and swapping the prefix back gives the base-year name.
   */
  lemma NamesRoundTrip(c: string)
    requires IsP20(c)
    ensures IsP25(P25Name(c)) && !IsP20(P25Name(c))
    ensures P20Name(P25Name(c)) == c
  {
    var k := P25Name(c);
    assert k[..4] == "P25_";
    assert k[4..] == c[4..];
    assert c == c[..4] + c[4..];
  }

  /** Every base-year column present holds numbers (they are multiplied). */
  predicate P20Numeric(r: Row)
  {
    forall c :: c in r && IsP20(c) ==> r[c].Num?
  }

  /** The projected names of a set of base-year columns. */
  function P25Names(done: set<string>): (names: set<string>)
    requires forall c :: c in done ==> IsP20(c)
    ensures forall k :: k in names ==> IsP25(k) && P20Name(k) in done
  {
    forall c | c in done ensures P20Name(P25Name(c)) == c { NamesRoundTrip(c); }
    set c | c in done :: P25Name(c)
  }

  /** A row after the projected columns of the base-year columns in `done` are assigned. */
  function Projected(r: Row, done: set<string>): Row
    requires P20Numeric(r)
    requires forall c :: c in done ==> c in r && IsP20(c)
  {
    var names := P25Names(done);
    map k | k in r.Keys + names ::
      if k in names then Num(r[P20Name(k)].val * GROWTH) else r[k]
  }

  /** The base-year columns of a row: the loop's `cols_pob`. */
  function P20Columns(cols: set<string>): set<string>
  {
    set c | c in cols && IsP20(c)
  }

  /** A row after the `P25_*` loop. */
  function WithP25(r: Row): Row
    requires P20Numeric(r)
  {
    Projected(r, P20Columns(r.Keys))
  }

  /**
   * For every base-year column there is a projected column equal to it
   * times 1.05; base-year columns are not touched; every other column
   * that is not a projected name keeps its value.
   */
  lemma P25Values(r: Row)
    requires P20Numeric(r)
    ensures forall c :: c in r && IsP20(c) ==>
              && IsP25(P25Name(c)) && P25Name(c) in WithP25(r)
              && WithP25(r)[P25Name(c)] == Num(r[c].val * GROWTH)
              && WithP25(r)[c] == r[c]
    ensures forall k :: k in r && !IsP25(k) ==> WithP25(r)[k] == r[k]
    ensures WithP25(r).Keys == r.Keys + P25Names(P20Columns(r.Keys))
  {
    var done := P20Columns(r.Keys);
    var names := P25Names(done);
    forall c | c in r && IsP20(c)
      ensures IsP25(P25Name(c)) && P25Name(c) in WithP25(r) && WithP25(r)[P25Name(c)] == Num(r[c].val * GROWTH)
      ensures WithP25(r)[c] == r[c]
    {
      NamesRoundTrip(c);
      assert c in done;
      assert c !in names;
    }
  }

  /** One base-year column and its projected column. */
  lemma P25Value(r: Row, c: string)
    requires P20Numeric(r) && c in r && IsP20(c)
    ensures P25Name(c) in WithP25(r) && WithP25(r)[P25Name(c)] == Num(r[c].val * GROWTH)
    ensures WithP25(r)[c] == r[c]
  {
    P25Values(r);
  }

  /** One column that is not a projected name keeps its value. */
  lemma P25Keeps(r: Row, k: string)
    requires P20Numeric(r) && k in r && !IsP25(k)
    ensures k in WithP25(r) && WithP25(r)[k] == r[k]
  {
    P25Values(r);
  }

  /** A projected name is never a base-year name. */
  lemma PrefixesDiffer(k: string)
    requires IsP25(k)
    ensures !IsP20(k)
  {
    assert k[..4][2] == '5';
  }

  /** Every base-year column of `x` is a number and its projected column holds 1.05 times it. */
  predicate ProjectedRow(x: Row)
  {
    forall c :: c in x && IsP20(c) ==> x[c].Num? && P25Name(c) in x && x[P25Name(c)] == Num(x[c].val * GROWTH)
  }

  /**
   * The projected row is closed under the projection: every base-year
   * column it holds is a number with its projected column at 1.05 times
   * it, and every projected column it adds comes from a base-year column.
   */
  lemma ProjectionClosed(r: Row)
    requires P20Numeric(r)
    ensures ProjectedRow(WithP25(r))
    ensures forall k :: k in WithP25(r) && k !in r ==>
              && IsP25(k) && P20Name(k) in r && r[P20Name(k)].Num?
              && WithP25(r)[k] == Num(r[P20Name(k)].val * GROWTH)
  {
    P25Values(r);
    var names := P25Names(P20Columns(r.Keys));
    forall c | c in WithP25(r) && IsP20(c) ensures c in r {
      if c !in r {
        assert c in names;
        PrefixesDiffer(c);
      }
    }
    forall k | k in WithP25(r) && k !in r
      ensures IsP25(k) && P20Name(k) in r && WithP25(r)[k] == Num(r[P20Name(k)].val * GROWTH)
    {
      assert k in names;
    }
  }

  /** Assigning one more projected column extends the partial projection. */
  lemma ProjectedStep(r: Row, done: set<string>, c: string)
    requires P20Numeric(r)
    requires forall d :: d in done ==> d in r && IsP20(d)
    requires c in r && IsP20(c) && c !in done
    ensures var prev := Projected(r, done);
      c in prev && prev[c].Num? &&
      Projected(r, done + {c}) == prev[P25Name(c) := Num(prev[c].val * GROWTH)]
  {
    var prev := Projected(r, done);
    NamesRoundTrip(c);
    var names := P25Names(done);
    assert c !in names;
    var next := Projected(r, done + {c});
    var stepped := prev[P25Name(c) := Num(prev[c].val * GROWTH)];
    assert P25Names(done + {c}) == names + {P25Name(c)};
    assert next.Keys == stepped.Keys;
    forall k | k in next ensures next[k] == stepped[k] {
      if k == P25Name(c) {
        assert P20Name(k) == c;
      }
    }
    assert next == stepped;
  }

  lemma P25NamesAdd(done: set<string>, c: string)
    requires forall d :: d in done ==> IsP20(d)
    requires IsP20(c)
    ensures P25Names(done + {c}) == P25Names(done) + {P25Name(c)}
  {
  }

  /** One projection step in place: the `P25Name(c)` column becomes column `c` times the growth factor. */
  method AssignP25(final: Frame, c: string, ghost rs0: seq<Row>, ghost cols0: set<string>, ghost done: set<string>)
    requires final.Valid() && |final.rows| == |rs0|
    requires forall i :: 0 <= i < |rs0| ==> P20Numeric(rs0[i]) && rs0[i].Keys == cols0
    requires c in cols0 && IsP20(c) && c !in done
    requires done <= P20Columns(cols0)
    requires final.columns == cols0 + P25Names(done)
    requires forall i :: 0 <= i < |rs0| ==> final.rows[i] == Projected(rs0[i], done)
    modifies final
    ensures final.Valid() && final.columns == cols0 + P25Names(done + {c})
    ensures |final.rows| == |rs0|
    ensures forall i :: 0 <= i < |rs0| ==> final.rows[i] == Projected(rs0[i], done + {c})
  {
    var cur: seq<Row> := final.rows;
    ProjectedRowsNumeric(rs0, cols0, cur, done, c);
    var values := seq(|cur|, i requires 0 <= i < |cur| && c in cur[i] && cur[i][c].Num?
                                => Num(cur[i][c].val * GROWTH));
    ProjectedRowsStep(rs0, cols0, cur, done, c, values);
    final.Assign(P25Name(c), values);
    P25NamesAdd(done, c);
  }

  /** Before a column is projected, it holds a number in every row. */
  lemma ProjectedRowsNumeric(rs0: seq<Row>, cols0: set<string>, cur: seq<Row>, done: set<string>, c: string)
    requires |cur| == |rs0|
    requires forall i :: 0 <= i < |rs0| ==> P20Numeric(rs0[i]) && rs0[i].Keys == cols0
    requires c in cols0 && IsP20(c) && c !in done && done <= P20Columns(cols0)
    requires forall i :: 0 <= i < |rs0| ==> cur[i] == Projected(rs0[i], done)
    ensures forall i :: 0 <= i < |cur| ==> c in cur[i] && cur[i][c].Num?
  {
    forall i | 0 <= i < |rs0| ensures c in cur[i] && cur[i][c].Num? {
      ProjectedStep(rs0[i], done, c);
    }
  }

  /** Assigning the projected column to every row projects one more column. */
  lemma ProjectedRowsStep(rs0: seq<Row>, cols0: set<string>, cur: seq<Row>, done: set<string>, c: string, values: seq<Cell>)
    requires |cur| == |rs0| == |values|
    requires forall i :: 0 <= i < |rs0| ==> P20Numeric(rs0[i]) && rs0[i].Keys == cols0
    requires c in cols0 && IsP20(c) && c !in done && done <= P20Columns(cols0)
    requires forall i :: 0 <= i < |rs0| ==> cur[i] == Projected(rs0[i], done)
    requires forall i :: 0 <= i < |cur| ==> c in cur[i] && cur[i][c].Num? && values[i] == Num(cur[i][c].val * GROWTH)
    ensures forall i :: 0 <= i < |rs0| ==> cur[i][P25Name(c) := values[i]] == Projected(rs0[i], done + {c})
  {
    forall i | 0 <= i < |rs0| ensures cur[i][P25Name(c) := values[i]] == Projected(rs0[i], done + {c}) {
      ProjectedStep(rs0[i], done, c);
    }
  }

  /**
   * The `P25_*` loop: for every column whose name starts with `P20_`,
   * assign the matching `P25_` column, the base-year values times 1.05.
   * The columns are taken from the frame before the loop starts.
   */
  method ProjectP25(final: Frame)
    requires final.Valid()
    requires forall i :: 0 <= i < |final.rows| ==> P20Numeric(final.rows[i])
    modifies final
    ensures final.Valid() && final.columns == old(final.columns) + P25Names(P20Columns(old(final.columns)))
    ensures |final.rows| == |old(final.rows)|
    ensures forall i :: 0 <= i < |final.rows| ==>
              P20Numeric(old(final.rows)[i]) && final.rows[i] == WithP25(old(final.rows)[i])
  {
    ghost var rs0 := final.rows;
    ghost var cols0 := final.columns;
    var colsPob := set c | c in final.columns && IsP20(c);
    assert colsPob == P20Columns(cols0);
    var todo := colsPob;
    ghost var done: set<string> := {};
    assert P25Names(done) == {};
    while todo != {}
      invariant todo <= colsPob && done == colsPob - todo
      invariant forall i :: 0 <= i < |rs0| ==> P20Numeric(rs0[i]) && rs0[i].Keys == cols0
      invariant final.Valid() && |final.rows| == |rs0|
      invariant final.columns == cols0 + P25Names(done)
      invariant forall i :: 0 <= i < |rs0| ==> final.rows[i] == Projected(rs0[i], done)
      decreases |todo|
    {
      var c :| c in todo;
      TakeOne(colsPob, todo, c);
      AssignP25(final, c, rs0, cols0, done);
      todo := todo - {c};
      done := done + {c};
    }
    assert done == P20Columns(cols0);
    ProjectedAllRows(final.rows, rs0, cols0, done);
  }

  /** Moving one column from the columns still to do to the columns done. */
  lemma TakeOne(all: set<string>, todo: set<string>, c: string)
    requires todo <= all && c in todo
    ensures todo - {c} <= all && (all - todo) + {c} == all - (todo - {c}) && c !in all - todo
  {
  }

  /** After the loop every row holds all its projected columns. */
  lemma ProjectedAllRows(rows: seq<Row>, rs: seq<Row>, cols: set<string>, done: set<string>)
    requires done == P20Columns(cols) && |rows| == |rs|
    requires forall i :: 0 <= i < |rs| ==> P20Numeric(rs[i]) && rs[i].Keys == cols
    requires forall i :: 0 <= i < |rs| ==> rows[i] == Projected(rs[i], done)
    ensures forall i :: 0 <= i < |rs| ==> rows[i] == WithP25(rs[i])
  {
  }
}
