/**
 * Column normalisation of the census tables: the legacy column names of
 * older census releases are renamed to the canonical ones, then every
 * census count column that is present is coerced to a number, with
 * anything that does not parse read as zero.
 */
module Cleaning {
  import opened Frames

  /** The census columns the pipeline coerces to numbers (VARS_CENSO). */
  const VARS_CENSO: seq<string> := [
    "POBTOT", "POBFEM", "POBMAS",
    "POB0_14", "POB15_64", "P_60YMAS", "P_65YMAS",
    "P3YM_HLI", "POB_AFRO", "PCON_DISC",
    "HOGJEF_F",
    "TVIVPARHAB", "VPH_PISOTI", "VPH_NODREN", "VPH_S_ELEC", "VPH_AGUAFV",
    "VPH_REFRI", "VPH_LAVAD", "VPH_AUTOM", "VPH_PC",
    "PDER_SS", "P_15YMAS", "P15YM_AN", "P15YM_SE"
  ]

  /**
   * A legacy name and its canonical name are never both present: pandas
   * would then hold two columns of one name, which the numeric coercion
   * cannot handle.
   */
  predicate NoAliasClash(cols: set<string>)
  {
    && ("POB_FEM" in cols ==> "POBFEM" !in cols)
    && ("POB_MAS" in cols ==> "POBMAS" !in cols)
    && ("VPH_LAVADORA" in cols ==> "VPH_LAVAD" !in cols)
  }

  /** The conditional rename of a legacy column name, for one row: nothing happens when it is absent. */
  function RenameIfPresent(r: Row, from: string, to: string): Row
    requires from in r ==> to !in r
  {
    if from in r then RenameKey(r, from, to) else r
  }

  /** A row after the three alias renames. */
  function Renamed(r: Row): Row
    requires NoAliasClash(r.Keys)
  {
    var r1 := RenameIfPresent(r, "POB_FEM", "POBFEM");
    var r2 := RenameIfPresent(r1, "POB_MAS", "POBMAS");
    RenameIfPresent(r2, "VPH_LAVADORA", "VPH_LAVAD")
  }

  /** The column set after the three alias renames. */
  function RenamedColumns(cols: set<string>): set<string>
  {
    var c1 := if "POB_FEM" in cols then cols - {"POB_FEM"} + {"POBFEM"} else cols;
    var c2 := if "POB_MAS" in c1 then c1 - {"POB_MAS"} + {"POBMAS"} else c1;
    if "VPH_LAVADORA" in c2 then c2 - {"VPH_LAVADORA"} + {"VPH_LAVAD"} else c2
  }

  /** An alias name, or the canonical name it is renamed to. */
  predicate IsAliasOrCanonical(k: string)
  {
    k in {"POB_FEM", "POBFEM", "POB_MAS", "POBMAS", "VPH_LAVADORA", "VPH_LAVAD"}
  }

  /**
   * After renaming, no legacy name remains; each canonical column holds the
   * legacy column's values when the legacy name was present and is
   * otherwise as before; every other column is untouched.
   */
  lemma RenamedFacts(r: Row)
    requires NoAliasClash(r.Keys)
    ensures Renamed(r).Keys == RenamedColumns(r.Keys)
    ensures "POB_FEM" !in Renamed(r) && "POB_MAS" !in Renamed(r) && "VPH_LAVADORA" !in Renamed(r)
    ensures "POB_FEM" in r ==> Renamed(r)["POBFEM"] == r["POB_FEM"]
    ensures "POB_FEM" !in r && "POBFEM" in r ==> Renamed(r)["POBFEM"] == r["POBFEM"]
    ensures "POB_MAS" in r ==> Renamed(r)["POBMAS"] == r["POB_MAS"]
    ensures "POB_MAS" !in r && "POBMAS" in r ==> Renamed(r)["POBMAS"] == r["POBMAS"]
    ensures "VPH_LAVADORA" in r ==> Renamed(r)["VPH_LAVAD"] == r["VPH_LAVADORA"]
    ensures "VPH_LAVADORA" !in r && "VPH_LAVAD" in r ==> Renamed(r)["VPH_LAVAD"] == r["VPH_LAVAD"]
    ensures forall k :: k in r && !IsAliasOrCanonical(k) ==> k in Renamed(r) && Renamed(r)[k] == r[k]
  {
  }

  /** Renaming introduces no column other than the three canonical names. */
  lemma RenamedKeysFrom(r: Row)
    requires NoAliasClash(r.Keys)
    ensures forall k :: k in Renamed(r) ==> k in r || k in {"POBFEM", "POBMAS", "VPH_LAVAD"}
  {
  }

  /**
   * The three alias renames of `procesar_geo`, applied in place. Each one
   * happens only when the legacy column is present.
   */
  method RenameAliases(df: Frame)
    requires df.Valid() && NoAliasClash(df.columns)
    modifies df
    ensures df.Valid() && df.columns == RenamedColumns(old(df.columns))
    ensures |df.rows| == |old(df.rows)|
    ensures forall i :: 0 <= i < |df.rows| ==> NoAliasClash(old(df.rows)[i].Keys) &&
                                               df.rows[i] == Renamed(old(df.rows)[i])
  {
    ghost var rs0 := df.rows;
    if "POB_FEM" in df.columns { df.Rename("POB_FEM", "POBFEM"); }
    ghost var rs1 := df.rows;
    if "POB_MAS" in df.columns { df.Rename("POB_MAS", "POBMAS"); }
    ghost var rs2 := df.rows;
    if "VPH_LAVADORA" in df.columns { df.Rename("VPH_LAVADORA", "VPH_LAVAD"); }
    forall i | 0 <= i < |df.rows|
      ensures NoAliasClash(rs0[i].Keys) && df.rows[i] == Renamed(rs0[i])
    {
      assert rs0[i].Keys == old(df.columns);
      assert rs1[i] == RenameIfPresent(rs0[i], "POB_FEM", "POBFEM");
      assert rs2[i] == RenameIfPresent(rs1[i], "POB_MAS", "POBMAS");
    }
  }

  /** A row after `limpiar(df, cols)`: every listed column present becomes a number. */
  function CleanRow(r: Row, cols: seq<string>, parse: string -> Option<real>): Row
  {
    map k | k in r :: if k in cols then Num(ToNumber(r[k], parse)) else r[k]
  }

  /**
   * Cleaning keeps the columns; a listed column that is present becomes
   * numeric, holding the parsed value, or 0 when its text does not parse;
   * every column outside the list is unchanged.
   */
  lemma CleanRowFacts(r: Row, cols: seq<string>, parse: string -> Option<real>)
    ensures CleanRow(r, cols, parse).Keys == r.Keys
    ensures forall k :: k in r && k in cols ==> CleanRow(r, cols, parse)[k].Num?
    ensures forall k :: k in r && k in cols && r[k].Text? && parse(r[k].text).None? ==>
              CleanRow(r, cols, parse)[k] == Num(0.0)
    ensures forall k :: k in r && k in cols && r[k].Text? && parse(r[k].text).Some? ==>
              CleanRow(r, cols, parse)[k] == Num(parse(r[k].text).value)
    ensures forall k :: k in r && k in cols && r[k].Num? ==> CleanRow(r, cols, parse)[k] == r[k]
    ensures forall k :: k in r && k !in cols ==> CleanRow(r, cols, parse)[k] == r[k]
  {
  }

  /**
   * An empty field of a listed column becomes 0, as the missing value it
   * stands for does under `fillna(0)`, whenever the number parser reads
   * the empty text as no number.
   */
  lemma EmptyFieldBecomesZero(r: Row, cols: seq<string>, parse: string -> Option<real>, k: string)
    requires parse("").None?
    requires k in r && k in cols && r[k] == Text("")
    ensures k in CleanRow(r, cols, parse) && CleanRow(r, cols, parse)[k] == Num(0.0)
  {
    CleanRowFacts(r, cols, parse);
  }

  /** Cleaning twice is cleaning once: a number coerces to itself. */
  lemma CleanRowIdempotent(r: Row, cols: seq<string>, parse: string -> Option<real>)
    ensures CleanRow(CleanRow(r, cols, parse), cols, parse) == CleanRow(r, cols, parse)
  {
    var once := CleanRow(r, cols, parse);
    var twice := CleanRow(once, cols, parse);
    assert twice.Keys == once.Keys;
    forall k | k in once ensures twice[k] == once[k] {
      if k in cols {
        assert once[k] == Num(ToNumber(r[k], parse));
      }
    }
  }

  /** Cleaning one more column extends the cleaning of a prefix of the list. */
  lemma CleanRowStep(r: Row, cols: seq<string>, n: nat, parse: string -> Option<real>)
    requires n < |cols|
    ensures var prev := CleanRow(r, cols[..n], parse);
            CleanRow(r, cols[..n + 1], parse) ==
              if cols[n] in prev then prev[cols[n] := Num(ToNumber(prev[cols[n]], parse))] else prev
  {
    var prev := CleanRow(r, cols[..n], parse);
    var next := CleanRow(r, cols[..n + 1], parse);
    assert cols[..n + 1] == cols[..n] + [cols[n]];
    if cols[n] in prev {
      var stepped := prev[cols[n] := Num(ToNumber(prev[cols[n]], parse))];
      forall k | k in next ensures stepped[k] == next[k] {
        if k == cols[n] && k in cols[..n] {
          assert prev[k] == Num(ToNumber(r[k], parse));
        }
      }
      assert next == stepped;
    }
  }

  /**
   * `limpiar(df, cols)`: for each listed column, in list order, a column
   * that is present is coerced to numbers in place; absent ones are skipped.
   */
  method Clean(df: Frame, cols: seq<string>, parse: string -> Option<real>)
    requires df.Valid()
    modifies df
    ensures df.Valid() && df.columns == old(df.columns)
    ensures |df.rows| == |old(df.rows)|
    ensures forall i :: 0 <= i < |df.rows| ==> df.rows[i] == CleanRow(old(df.rows)[i], cols, parse)
  {
    ghost var rs0 := df.rows;
    var n := 0;
    while n < |cols|
      invariant 0 <= n <= |cols|
      invariant df.Valid() && df.columns == old(df.columns)
      invariant |df.rows| == |rs0|
      invariant forall i :: 0 <= i < |df.rows| ==> df.rows[i] == CleanRow(rs0[i], cols[..n], parse)
    {
      ghost var before := df.rows;
      if cols[n] in df.columns {
        df.ToNumeric(cols[n], parse);
      }
      forall i | 0 <= i < |df.rows|
        ensures df.rows[i] == CleanRow(rs0[i], cols[..n + 1], parse)
      {
        CleanRowStep(rs0[i], cols, n, parse);
        assert before[i].Keys == df.columns;
      }
      n := n + 1;
    }
    assert cols[..n] == cols;
  }
}
