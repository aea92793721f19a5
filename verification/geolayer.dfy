/**
 * `procesar_geo` for one census layer (urban blocks or rural localities):
 * keep the target municipality's rows, detect its name, build the geocode
 * `CVEGEO`, normalise and clean the census columns, compute the
 * indicators, join with the geometry layer, stamp the layer type and
 * municipality name, and add the base-year and projected populations.
 */
module GeoLayer {
  import opened Frames
  import opened Cleaning
  import opened Indicators
  import opened Join
  import opened Projection

  // ---------------------------------------------------------------------
  // Municipality filter
  // ---------------------------------------------------------------------

  /** Block-level urban tables carry the block number `MZA`; rural tables do not use it. */
  predicate HasFilterColumns(r: Row, urban: bool)
  {
    "MUN" in r && r["MUN"].Text? && (urban ==> "MZA" in r)
  }

  predicate EndsWith(s: string, suffix: string)
  {
    |suffix| <= |s| && s[|s| - |suffix|..] == suffix
  }

  /**
   * Urban rows are kept when their municipality code is the target and
   * they are a real block (`MZA` is not `000`, the AGEB total row); rural
   * rows when their municipality code ends with the target.
   */
  predicate Keep(r: Row, urban: bool, target: string)
    requires HasFilterColumns(r, urban)
  {
    if urban then r["MUN"] == Text(target) && r["MZA"] != Text("000")
    else EndsWith(r["MUN"].text, target)
  }

  /** The boolean series the table is indexed with. */
  function KeepMask(rs: seq<Row>, urban: bool, target: string): (keep: seq<bool>)
    requires forall i :: 0 <= i < |rs| ==> HasFilterColumns(rs[i], urban)
    ensures |keep| == |rs|
    ensures forall i :: 0 <= i < |rs| ==> keep[i] == Keep(rs[i], urban, target)
  {
    seq(|rs|, i requires 0 <= i < |rs| => Keep(rs[i], urban, target))
  }

  /** The rows that survive the municipality filter, in table order. */
  function Survivors(rs: seq<Row>, urban: bool, target: string): seq<Row>
    requires forall i :: 0 <= i < |rs| ==> HasFilterColumns(rs[i], urban)
  {
    Masked(rs, KeepMask(rs, urban, target))
  }

  /**
   * A surviving urban row has the target municipality code and is not an
   * AGEB total row; a surviving rural row's code ends with the target; and
   * every row of the table that passes the test survives.
   */
  lemma SurvivorsFilter(rs: seq<Row>, urban: bool, target: string)
    requires forall i :: 0 <= i < |rs| ==> HasFilterColumns(rs[i], urban)
    ensures forall x: Row :: x in Survivors(rs, urban, target) ==> x in rs && HasFilterColumns(x, urban)
    ensures urban ==> forall x: Row :: x in Survivors(rs, urban, target) ==>
              x["MUN"] == Text(target) && x["MZA"] != Text("000")
    ensures !urban ==> forall x: Row :: x in Survivors(rs, urban, target) ==> EndsWith(x["MUN"].text, target)
    ensures forall i :: 0 <= i < |rs| && Keep(rs[i], urban, target) ==> rs[i] in Survivors(rs, urban, target)
  {
    var keep := KeepMask(rs, urban, target);
    forall x: Row | x in Survivors(rs, urban, target) ensures x in rs && HasFilterColumns(x, urban) && Keep(x, urban, target) {
      var i :| 0 <= i < |rs| && keep[i] && rs[i] == x;
    }
  }

  /** The rural filter is a suffix test: `"0032"` matches the target `"032"`, `"132"` does not. */
  lemma RuralSuffixExamples()
    ensures EndsWith("0032", "032")
    ensures EndsWith("032", "032")
    ensures !EndsWith("132", "032")
    ensures !EndsWith("32", "032")
  {
    assert "0032"[1..] == "032";
  }

  // ---------------------------------------------------------------------
  // Municipality name
  // ---------------------------------------------------------------------

  /** The municipality name: the first surviving row's `NOM_MUN`, or `Desconocido` when none survives. */
  function DetectName(survivors: seq<Row>): (name: Cell)
    requires survivors != [] ==> "NOM_MUN" in survivors[0]
  {
    if survivors == [] then Text("Desconocido") else survivors[0]["NOM_MUN"]
  }

  /**
   * The detected name is the `NOM_MUN` of the first row of the table that
   * passes the filter, or `Desconocido` when no row passes it; only the
   * rows that pass need a `NOM_MUN` column.
   */
  lemma DetectNameFirstMatch(rs: seq<Row>, urban: bool, target: string)
    requires forall i :: 0 <= i < |rs| ==> HasFilterColumns(rs[i], urban)
    requires forall i :: 0 <= i < |rs| && Keep(rs[i], urban, target) ==> "NOM_MUN" in rs[i]
    ensures Survivors(rs, urban, target) != [] ==> "NOM_MUN" in Survivors(rs, urban, target)[0]
    ensures (forall i :: 0 <= i < |rs| ==> !Keep(rs[i], urban, target)) ==>
              DetectName(Survivors(rs, urban, target)) == Text("Desconocido")
    ensures forall i :: 0 <= i < |rs| && Keep(rs[i], urban, target) &&
                        (forall j :: 0 <= j < i ==> !Keep(rs[j], urban, target)) ==>
              DetectName(Survivors(rs, urban, target)) == rs[i]["NOM_MUN"]
  {
    var s := Survivors(rs, urban, target);
    var keep := KeepMask(rs, urban, target);
    if s != [] {
      var k :| 0 <= k < |rs| && keep[k] && rs[k] == s[0] && forall j :: 0 <= j < k ==> !keep[j];
      forall i | 0 <= i < |rs| && Keep(rs[i], urban, target) && (forall j :: 0 <= j < i ==> !Keep(rs[j], urban, target))
        ensures i == k
      {
      }
    } else {
      forall i | 0 <= i < |rs| ensures !Keep(rs[i], urban, target) {
      }
    }
  }

  // ---------------------------------------------------------------------
  // Geocode
  // ---------------------------------------------------------------------

  /** The columns the geocode is built from. */
  function KeyColumns(urban: bool): set<string>
  {
    if urban then {"ENTIDAD", "MUN", "LOC", "AGEB", "MZA"} else {"ENTIDAD", "MUN", "LOC"}
  }

  predicate TextColumns(r: Row, cols: set<string>)
  {
    forall c :: c in cols ==> c in r && r[c].Text?
  }

  /** The urban block geocode: state, municipality, locality, AGEB and block, with no separator. */
  function UrbanGeocode(ent: string, mun: string, loc: string, ageb: string, mza: string): string
  {
    ent + mun + loc + ageb + mza
  }

  /** The rural locality geocode: state, municipality and locality, with no separator. */
  function RuralGeocode(ent: string, mun: string, loc: string): string
  {
    ent + mun + loc
  }

  /**
   * With the census code widths (2, 3, 4, 4 and 3 characters) an urban
   * geocode has 16 characters and each part can be read back at its offset.
   */
  lemma UrbanGeocodeParts(ent: string, mun: string, loc: string, ageb: string, mza: string)
    requires |ent| == 2 && |mun| == 3 && |loc| == 4 && |ageb| == 4 && |mza| == 3
    ensures var g := UrbanGeocode(ent, mun, loc, ageb, mza);
      |g| == 16 && g[..2] == ent && g[2..5] == mun && g[5..9] == loc && g[9..13] == ageb && g[13..] == mza
  {
    var g := UrbanGeocode(ent, mun, loc, ageb, mza);
    assert g == ent + (mun + (loc + (ageb + mza)));
  }

  /** With fixed widths, distinct urban keys have distinct geocodes. */
  lemma UrbanGeocodeInjective(a: (string, string, string, string, string), b: (string, string, string, string, string))
    requires |a.0| == 2 && |a.1| == 3 && |a.2| == 4 && |a.3| == 4 && |a.4| == 3
    requires |b.0| == 2 && |b.1| == 3 && |b.2| == 4 && |b.3| == 4 && |b.4| == 3
    requires UrbanGeocode(a.0, a.1, a.2, a.3, a.4) == UrbanGeocode(b.0, b.1, b.2, b.3, b.4)
    ensures a == b
  {
    UrbanGeocodeParts(a.0, a.1, a.2, a.3, a.4);
    UrbanGeocodeParts(b.0, b.1, b.2, b.3, b.4);
  }

  /**
   * With the census code widths (2, 3 and 4 characters) a rural geocode
   * has 9 characters and each part can be read back at its offset.
   */
  lemma RuralGeocodeParts(ent: string, mun: string, loc: string)
    requires |ent| == 2 && |mun| == 3 && |loc| == 4
    ensures var g := RuralGeocode(ent, mun, loc);
      |g| == 9 && g[..2] == ent && g[2..5] == mun && g[5..] == loc
  {
    var g := RuralGeocode(ent, mun, loc);
    assert g == ent + (mun + loc);
  }

  /** With fixed widths, distinct rural keys have distinct geocodes. */
  lemma RuralGeocodeInjective(a: (string, string, string), b: (string, string, string))
    requires |a.0| == 2 && |a.1| == 3 && |a.2| == 4
    requires |b.0| == 2 && |b.1| == 3 && |b.2| == 4
    requires RuralGeocode(a.0, a.1, a.2) == RuralGeocode(b.0, b.1, b.2)
    ensures a == b
  {
    RuralGeocodeParts(a.0, a.1, a.2);
    RuralGeocodeParts(b.0, b.1, b.2);
  }

  /** Block 004 of AGEB 0123 in locality 0001 of Catemaco (032), Veracruz (30). */
  lemma UrbanGeocodeExample()
    ensures UrbanGeocode("30", "032", "0001", "0123", "004") == "3003200010123004"
  {
  }

  /** A row's geocode, from its own key columns. */
  function Geocode(r: Row, urban: bool): (g: string)
    requires TextColumns(r, KeyColumns(urban))
  {
    if urban then UrbanGeocode(r["ENTIDAD"].text, r["MUN"].text, r["LOC"].text, r["AGEB"].text, r["MZA"].text)
    else RuralGeocode(r["ENTIDAD"].text, r["MUN"].text, r["LOC"].text)
  }

  /** Adds the geocode column to every row, in place. */
  method AssignGeocode(df: Frame, urban: bool)
    requires df.Valid()
    requires forall i :: 0 <= i < |df.rows| ==> TextColumns(df.rows[i], KeyColumns(urban))
    modifies df
    ensures df.Valid() && df.columns == old(df.columns) + {"CVEGEO"}
    ensures |df.rows| == |old(df.rows)|
    ensures forall i :: 0 <= i < |df.rows| ==>
              TextColumns(old(df.rows)[i], KeyColumns(urban)) &&
              df.rows[i] == old(df.rows)[i]["CVEGEO" := Text(Geocode(old(df.rows)[i], urban))]
  {
    var rs: seq<Row> := df.rows;
    df.Assign("CVEGEO", seq(|rs|, i requires 0 <= i < |rs| && TextColumns(rs[i], KeyColumns(urban))
                                   => Text(Geocode(rs[i], urban))));
  }

  // ---------------------------------------------------------------------
  // One row through cleaning and the indicators
  // ---------------------------------------------------------------------

  /**
   * What a census row needs for the pipeline not to fail: its key columns,
   * no legacy name beside its canonical name, the three denominators, and
   * no base-year population column other than the nine the pipeline
   * overwrites (a text column would make the projection fail).
   */
  predicate Preparable(r: Row, urban: bool)
  {
    && TextColumns(r, KeyColumns(urban))
    && NoAliasClash(r.Keys)
    && "POBTOT" in r && "TVIVPARHAB" in r && "P_15YMAS" in r
    && (forall c :: c in r && IsP20(c) ==> c in P20_NAMES)
  }

  /** The census columns the nine base-year columns copy are numbers wherever present. */
  predicate SourcesNumeric(r: Row)
  {
    && NumericIfPresent(r, "POBTOT") && NumericIfPresent(r, "POBFEM") && NumericIfPresent(r, "POBMAS")
    && NumericIfPresent(r, "P3YM_HLI") && NumericIfPresent(r, "POB_AFRO") && NumericIfPresent(r, "PCON_DISC")
    && NumericIfPresent(r, "HOGJEF_F") && NumericIfPresent(r, "POB0_14") && NumericIfPresent(r, "P_60YMAS")
  }

  /** The nine copied columns are census columns. */
  lemma SourcesAreCensus()
    ensures "POBTOT" in VARS_CENSO && "POBFEM" in VARS_CENSO && "POBMAS" in VARS_CENSO
    ensures "P3YM_HLI" in VARS_CENSO && "POB_AFRO" in VARS_CENSO && "PCON_DISC" in VARS_CENSO
    ensures "HOGJEF_F" in VARS_CENSO && "POB0_14" in VARS_CENSO && "P_60YMAS" in VARS_CENSO
  {
    var v := VARS_CENSO;
    assert v[0] == "POBTOT";
    assert v[1] == "POBFEM";
    assert v[2] == "POBMAS";
    assert v[3] == "POB0_14";
    assert v[5] == "P_60YMAS";
    assert v[7] == "P3YM_HLI";
    assert v[8] == "POB_AFRO";
    assert v[9] == "PCON_DISC";
    assert v[10] == "HOGJEF_F";
  }

  /** A row with its geocode column. */
  function Geocoded(r: Row, urban: bool): Row
    requires TextColumns(r, KeyColumns(urban))
  {
    r["CVEGEO" := Text(Geocode(r, urban))]
  }

  /** A row after geocode, renames and cleaning. */
  function CleanedRow(r: Row, urban: bool, parse: string -> Option<real>): Row
    requires Preparable(r, urban)
  {
    CleanRow(Renamed(Geocoded(r, urban)), VARS_CENSO, parse)
  }

  /** Only the nine base-year population columns start with `P20_`. */
  predicate OnlyKnownP20(r: Row)
  {
    forall c :: c in r && IsP20(c) ==> c in P20_NAMES
  }

  /** None of the columns the pipeline adds before the projection is a base-year column. */
  lemma AddedColumnsNotP20()
    ensures !IsP20("CVEGEO") && !IsP20("POBFEM") && !IsP20("POBMAS") && !IsP20("VPH_LAVAD")
    ensures !IsP20("geometry") && !IsP20("TIPO") && !IsP20("NOM_MUN_OFICIAL")
    ensures forall c :: c in OUTPUTS ==> !IsP20(c)
  {
    assert "CVEGEO"[..4][0] == 'C' && "POBFEM"[..4][1] == 'O' && "POBMAS"[..4][1] == 'O';
    assert "VPH_LAVAD"[..4][0] == 'V' && "geometry"[..4][0] == 'g';
    assert "TIPO"[..4][0] == 'T' && "NOM_MUN_OFICIAL"[..4][0] == 'N';
    assert "CAR_EDU_20"[..4][0] == 'C' && "CAR_SALUD_20"[..4][0] == 'C' && "CAR_VIV_20"[..4][0] == 'C';
    assert "CAR_SERV_20"[..4][0] == 'C' && "CAR_ALIM_20"[..4][0] == 'C' && "CAR_POBREZA_20"[..4][0] == 'C';
    assert "SITS_INDEX"[..4][0] == 'S';
  }

  /** Cleaning the census columns of a row with the three denominators readies it for the indicators. */
  lemma CleanedComputable(x: Row, parse: string -> Option<real>)
    requires "POBTOT" in x && "TVIVPARHAB" in x && "P_15YMAS" in x
    ensures Computable(CleanRow(x, VARS_CENSO, parse))
    ensures SourcesNumeric(CleanRow(x, VARS_CENSO, parse))
  {
    CleanRowFacts(x, VARS_CENSO, parse);
    SourcesAreCensus();
  }

  /** The geocoded and renamed row keeps the denominators and its geocode. */
  lemma RenamedReady(r: Row, urban: bool)
    requires Preparable(r, urban)
    ensures NoAliasClash(Geocoded(r, urban).Keys)
    ensures "POBTOT" in Renamed(Geocoded(r, urban))
    ensures "TVIVPARHAB" in Renamed(Geocoded(r, urban))
    ensures "P_15YMAS" in Renamed(Geocoded(r, urban))
    ensures "CVEGEO" in Renamed(Geocoded(r, urban)) && Renamed(Geocoded(r, urban))["CVEGEO"] == Geocoded(r, urban)["CVEGEO"]
  {
    var g := Geocoded(r, urban);
    assert g.Keys == r.Keys + {"CVEGEO"};
    NoAliasClashGeocode(r.Keys);
    NotAliases();
    RenamedFacts(g);
  }

  /** The renames leave the geocode and the three denominators alone. */
  lemma NotAliases()
    ensures !IsAliasOrCanonical("CVEGEO") && !IsAliasOrCanonical("POBTOT")
    ensures !IsAliasOrCanonical("TVIVPARHAB") && !IsAliasOrCanonical("P_15YMAS")
  {
    assert "CVEGEO"[0] == 'C' && "POBTOT"[3] == 'T' && "TVIVPARHAB"[0] == 'T' && "P_15YMAS"[1] == '_';
  }

  /** The geocoded and renamed row gains no base-year column. */
  lemma RenamedOnlyKnownP20(r: Row, urban: bool)
    requires Preparable(r, urban)
    ensures NoAliasClash(Geocoded(r, urban).Keys)
    ensures OnlyKnownP20(Renamed(Geocoded(r, urban)))
  {
    var g := Geocoded(r, urban);
    var n := Renamed(g);
    RenamedKeysFrom(g);
    AddedColumnsNotP20();
    forall k | k in n && IsP20(k) ensures k in P20_NAMES {
      assert k in g || k in {"POBFEM", "POBMAS", "VPH_LAVAD"};
    }
  }

  /** A cleaned row has what the indicators need, and all its census counts are numbers. */
  lemma CleanedRowComputable(r: Row, urban: bool, parse: string -> Option<real>)
    requires Preparable(r, urban)
    ensures Computable(CleanedRow(r, urban, parse))
    ensures SourcesNumeric(CleanedRow(r, urban, parse))
    ensures "CVEGEO" in CleanedRow(r, urban, parse) && CleanedRow(r, urban, parse)["CVEGEO"] == Text(Geocode(r, urban))
    ensures OnlyKnownP20(CleanedRow(r, urban, parse))
  {
    var g := Geocoded(r, urban);
    RenamedReady(r, urban);
    RenamedOnlyKnownP20(r, urban);
    CleanedComputable(Renamed(g), parse);
    CleanedKeepsGeocode(Renamed(g), parse);
  }

  /** The geocode is not a census count. */
  lemma GeocodeNotCensus()
    ensures "CVEGEO" !in VARS_CENSO
  {
    assert forall k :: k in VARS_CENSO ==> k[0] != 'C';
  }

  /** Cleaning keeps a row's columns and its geocode. */
  lemma CleanedKeepsGeocode(x: Row, parse: string -> Option<real>)
    requires "CVEGEO" in x
    ensures CleanRow(x, VARS_CENSO, parse).Keys == x.Keys
    ensures CleanRow(x, VARS_CENSO, parse)["CVEGEO"] == x["CVEGEO"]
  {
    CleanRowFacts(x, VARS_CENSO, parse);
    GeocodeNotCensus();
  }

  /** A census row after geocode, renames, cleaning and the indicators. */
  function PreparedRow(r: Row, urban: bool, parse: string -> Option<real>): Row
    requires Preparable(r, urban)
  {
    CleanedRowComputable(r, urban, parse);
    IndicatorRow(CleanedRow(r, urban, parse))
  }

  /** The census columns the nine base-year columns copy. */
  const SOURCES: set<string> :=
    {"POBTOT", "POBFEM", "POBMAS", "P3YM_HLI", "POB_AFRO", "PCON_DISC", "HOGJEF_F", "POB0_14", "P_60YMAS"}

  /** The indicators keep one copied census column numeric. */
  lemma IndicatorRowSource(c: Row, k: string)
    requires Computable(c) && SourcesNumeric(c) && k in SOURCES
    ensures NumericIfPresent(IndicatorRow(c), k)
  {
    NumericIfPresentKept(c, k);
  }

  /** The indicators keep the copied census columns numeric. */
  lemma IndicatorRowSources(c: Row)
    requires Computable(c) && SourcesNumeric(c)
    ensures SourcesNumeric(IndicatorRow(c))
  {
    IndicatorRowSource(c, "POBTOT");
    IndicatorRowSource(c, "POBFEM");
    IndicatorRowSource(c, "POBMAS");
    IndicatorRowSource(c, "P3YM_HLI");
    IndicatorRowSource(c, "POB_AFRO");
    IndicatorRowSource(c, "PCON_DISC");
    IndicatorRowSource(c, "HOGJEF_F");
    IndicatorRowSource(c, "POB0_14");
    IndicatorRowSource(c, "P_60YMAS");
  }

  /** The indicators keep the geocode. */
  lemma IndicatorRowKeepsGeocode(c: Row)
    requires Computable(c) && "CVEGEO" in c
    ensures "CVEGEO" in IndicatorRow(c) && IndicatorRow(c)["CVEGEO"] == c["CVEGEO"]
  {
    IndicatorRowKeeps(c, "CVEGEO");
  }

  /** The indicators add no base-year column. */
  lemma IndicatorRowOnlyKnownP20(c: Row)
    requires Computable(c) && OnlyKnownP20(c)
    ensures OnlyKnownP20(IndicatorRow(c))
  {
    IndicatorRowColumns(c);
    AddedColumnsNotP20();
  }

  /** A prepared row is ready for the projection and carries its geocode. */
  lemma PreparedRowFacts(r: Row, urban: bool, parse: string -> Option<real>)
    requires Preparable(r, urban)
    ensures SourcesNumeric(PreparedRow(r, urban, parse)) && OnlyKnownP20(PreparedRow(r, urban, parse))
    ensures "CVEGEO" in PreparedRow(r, urban, parse) && PreparedRow(r, urban, parse)["CVEGEO"] == Text(Geocode(r, urban))
  {
    CleanedRowComputable(r, urban, parse);
    IndicatorRowSources(CleanedRow(r, urban, parse));
    IndicatorRowKeepsGeocode(CleanedRow(r, urban, parse));
    IndicatorRowOnlyKnownP20(CleanedRow(r, urban, parse));
  }

  // ---------------------------------------------------------------------
  // After the join
  // ---------------------------------------------------------------------

  /** The layer-type and municipality-name columns of every output row. */
  function Stamped(j: Row, tipo: string, name: Cell): Row
  {
    j["TIPO" := Text(tipo)]["NOM_MUN_OFICIAL" := name]
  }

  /** A joined row ready for the projection: numeric counts and only the nine base-year columns. */
  predicate Finishable(j: Row)
  {
    SourcesNumeric(j) && OnlyKnownP20(j)
  }

  /** The nine base-year columns copy numbers, or default to the number 0. */
  lemma P20CellsNumeric(s: Row)
    requires SourcesNumeric(s)
    ensures WithP20(s)["P20_TOT"].Num? && WithP20(s)["P20_FEM"].Num? && WithP20(s)["P20_MAS"].Num?
    ensures WithP20(s)["P20_IND"].Num? && WithP20(s)["P20_AFRO"].Num? && WithP20(s)["P20_DISC"].Num?
    ensures WithP20(s)["P20_JEFAS"].Num? && WithP20(s)["P20_NINOS"].Num? && WithP20(s)["P20_MAYORES"].Num?
  {
    P20Values(s);
  }

  /** One base-year column after the nine assignments. */
  lemma P20CellNumeric(s: Row, c: string)
    requires SourcesNumeric(s) && c in P20_NAMES
    ensures c in WithP20(s) && WithP20(s)[c].Num?
  {
    P20NameCases(c);
    P20CellsNumeric(s);
  }

  /** The nine base-year names, one by one. */
  lemma P20NameCases(c: string)
    requires c in P20_NAMES
    ensures || c == "P20_TOT" || c == "P20_FEM" || c == "P20_MAS" || c == "P20_IND" || c == "P20_AFRO"
            || c == "P20_DISC" || c == "P20_JEFAS" || c == "P20_NINOS" || c == "P20_MAYORES"
  {
  }

  /** The type and name stamps keep a row ready for the projection. */
  lemma StampedFinishable(j: Row, tipo: string, name: Cell)
    requires Finishable(j)
    ensures Finishable(Stamped(j, tipo, name))
  {
    AddedColumnsNotP20();
  }

  /** After the nine base-year assignments, every base-year column is a number. */
  lemma FinishableP20Numeric(j: Row, tipo: string, name: Cell)
    requires Finishable(j)
    ensures P20Numeric(WithP20(Stamped(j, tipo, name)))
  {
    var s := Stamped(j, tipo, name);
    StampedFinishable(j, tipo, name);
    P20Keys(s);
    forall c | c in WithP20(s) && IsP20(c) ensures WithP20(s)[c].Num? {
      assert c in P20_NAMES;
      P20CellNumeric(s, c);
    }
  }

  /** A joined row after the type and name stamps and both population passes. */
  function FinishedRow(j: Row, tipo: string, name: Cell): Row
    requires Finishable(j)
  {
    FinishableP20Numeric(j, tipo, name);
    WithP25(WithP20(Stamped(j, tipo, name)))
  }

  /** Adding the polygon keeps a row ready for the projection. */
  lemma JoinedRowFinishable(f: Feature, r: Row)
    requires Finishable(r)
    ensures Finishable(Joined(f, r))
  {
    AddedColumnsNotP20();
  }

  /** A joined prepared row is ready for the projection. */
  lemma JoinedFinishable(shp: seq<Feature>, prepared: seq<Row>)
    requires forall i :: 0 <= i < |prepared| ==> Finishable(prepared[i])
    ensures forall x: Row :: x in InnerJoin(shp, prepared) ==> Finishable(x)
  {
    forall x: Row | x in InnerJoin(shp, prepared) ensures Finishable(x) {
      var f, r :| f in shp && r in prepared && Match(f, r) && x == Joined(f, r);
      var i :| 0 <= i < |prepared| && prepared[i] == r;
      JoinedRowFinishable(f, r);
    }
  }

  // ---------------------------------------------------------------------
  // The whole layer
  // ---------------------------------------------------------------------

  /** What the raw census table must satisfy: read as text, with the columns the pipeline indexes. */
  predicate RawTable(cols: set<string>, raw: seq<Row>, urban: bool, target: string)
  {
    && (forall i :: 0 <= i < |raw| ==> raw[i].Keys == cols && forall k :: k in raw[i] ==> raw[i][k].Text?)
    && KeyColumns(urban) <= cols
    && NoAliasClash(cols)
    && "POBTOT" in cols && "TVIVPARHAB" in cols && "P_15YMAS" in cols
    && (forall c :: c in cols && IsP20(c) ==> c in P20_NAMES)
    && ((exists i :: 0 <= i < |raw| && Keep(raw[i], urban, target)) ==> "NOM_MUN" in cols)
  }

  /** Each raw row is ready for the filter and for preparation. */
  lemma RawRowsReady(cols: set<string>, raw: seq<Row>, urban: bool, target: string)
    requires forall i :: 0 <= i < |raw| ==> raw[i].Keys == cols && forall k :: k in raw[i] ==> raw[i][k].Text?
    requires KeyColumns(urban) <= cols && NoAliasClash(cols)
    requires "POBTOT" in cols && "TVIVPARHAB" in cols && "P_15YMAS" in cols
    requires forall c :: c in cols && IsP20(c) ==> c in P20_NAMES
    ensures forall i :: 0 <= i < |raw| ==> HasFilterColumns(raw[i], urban) && Preparable(raw[i], urban)
  {
    forall i | 0 <= i < |raw| ensures HasFilterColumns(raw[i], urban) && Preparable(raw[i], urban) {
      assert "MUN" in KeyColumns(urban);
      assert urban ==> "MZA" in KeyColumns(urban);
    }
  }

  /** The prepared rows of a table. */
  function PreparedRows(rs: seq<Row>, urban: bool, parse: string -> Option<real>): (out: seq<Row>)
    requires forall i :: 0 <= i < |rs| ==> Preparable(rs[i], urban)
    ensures |out| == |rs|
    ensures forall i :: 0 <= i < |rs| ==> out[i] == PreparedRow(rs[i], urban, parse)
  {
    seq(|rs|, i requires 0 <= i < |rs| => PreparedRow(rs[i], urban, parse))
  }

  /** The rows of a raw table that survive the municipality filter. */
  function Filtered(cols: set<string>, raw: seq<Row>, urban: bool, target: string): seq<Row>
    requires RawTable(cols, raw, urban, target)
  {
    RawRowsReady(cols, raw, urban, target);
    Survivors(raw, urban, target)
  }

  /** The detected municipality name of a raw table. */
  function LayerName(cols: set<string>, raw: seq<Row>, urban: bool, target: string): Cell
    requires RawTable(cols, raw, urban, target)
  {
    RawRowsReady(cols, raw, urban, target);
    SurvivorsReady(raw, urban, target);
    DetectName(Filtered(cols, raw, urban, target))
  }

  /** The surviving rows after geocode, renames, cleaning and the indicators. */
  function Prepared(cols: set<string>, raw: seq<Row>, urban: bool, target: string,
                    parse: string -> Option<real>): seq<Row>
    requires RawTable(cols, raw, urban, target)
  {
    RawRowsReady(cols, raw, urban, target);
    SurvivorsReady(raw, urban, target);
    PreparedRows(Filtered(cols, raw, urban, target), urban, parse)
  }

  /** Every prepared row of a raw table is ready for the projection. */
  lemma PreparedLayerFinishable(cols: set<string>, raw: seq<Row>, urban: bool, target: string,
                                parse: string -> Option<real>)
    requires RawTable(cols, raw, urban, target)
    ensures forall i :: 0 <= i < |Prepared(cols, raw, urban, target, parse)| ==>
              Finishable(Prepared(cols, raw, urban, target, parse)[i])
  {
    RawRowsReady(cols, raw, urban, target);
    SurvivorsReady(raw, urban, target);
    PreparedFinishable(Filtered(cols, raw, urban, target), urban, parse);
  }

  /** The layer type selects the filter and the geocode: `Urbano` for blocks, anything else for localities. */
  predicate IsUrban(tipo: string)
  {
    tipo == "Urbano"
  }

  /** The output of `procesar_geo` for a geometry layer, a census table, a layer type and a target. */
  function Layer(shp: seq<Feature>, cols: set<string>, raw: seq<Row>, tipo: string, target: string,
                 parse: string -> Option<real>): seq<Row>
    requires RawTable(cols, raw, IsUrban(tipo), target)
  {
    var urban := IsUrban(tipo);
    var prepared := Prepared(cols, raw, urban, target, parse);
    PreparedLayerFinishable(cols, raw, urban, target, parse);
    var joined := InnerJoin(shp, prepared);
    JoinedFinishable(shp, prepared);
    seq(|joined|, i requires 0 <= i < |joined| => FinishedRow(joined[i], tipo, LayerName(cols, raw, urban, target)))
  }

  /** The columns after cleaning and the indicators. */
  function PreparedColumns(cols: set<string>): set<string>
  {
    RenamedColumns(cols + {"CVEGEO"}) + OUTPUTS
  }

  /** The columns of the output of `procesar_geo`. */
  function LayerColumns(cols: set<string>): set<string>
  {
    var stamped := PreparedColumns(cols) + {"geometry"} + {"TIPO"} + {"NOM_MUN_OFICIAL"} + P20_NAMES;
    stamped + P25Names(P20Columns(stamped))
  }

  /** The survivors are raw rows, and the first of them has a name when any does. */
  lemma SurvivorsReady(raw: seq<Row>, urban: bool, target: string)
    requires forall i :: 0 <= i < |raw| ==> HasFilterColumns(raw[i], urban)
    ensures forall i :: 0 <= i < |Survivors(raw, urban, target)| ==> Survivors(raw, urban, target)[i] in raw
    ensures Survivors(raw, urban, target) != [] ==>
              exists i :: 0 <= i < |raw| && Keep(raw[i], urban, target) && raw[i] == Survivors(raw, urban, target)[0]
  {
    var s := Survivors(raw, urban, target);
    var keep := KeepMask(raw, urban, target);
    forall i | 0 <= i < |s| ensures s[i] in raw {
      assert s[i] in s;
      var j :| 0 <= j < |raw| && keep[j] && raw[j] == s[i];
    }
  }

  /** Every prepared row is ready for the projection. */
  lemma PreparedFinishable(s: seq<Row>, urban: bool, parse: string -> Option<real>)
    requires forall i :: 0 <= i < |s| ==> Preparable(s[i], urban)
    ensures forall i :: 0 <= i < |PreparedRows(s, urban, parse)| ==> Finishable(PreparedRows(s, urban, parse)[i])
  {
    forall i | 0 <= i < |s| ensures Finishable(PreparedRow(s[i], urban, parse)) {
      PreparedRowFacts(s[i], urban, parse);
    }
  }

  // ---------------------------------------------------------------------
  // `procesar_geo`, step by step
  // ---------------------------------------------------------------------

  /** The geocode column is none of the legacy names. */
  lemma NoAliasClashGeocode(cols: set<string>)
    requires NoAliasClash(cols)
    ensures NoAliasClash(cols + {"CVEGEO"})
  {
  }

  /** The renames keep the three denominator columns. */
  lemma DenominatorsRenamed(cols: set<string>)
    requires "POBTOT" in cols && "TVIVPARHAB" in cols && "P_15YMAS" in cols
    ensures var renamed := RenamedColumns(cols + {"CVEGEO"});
      "POBTOT" in renamed && "TVIVPARHAB" in renamed && "P_15YMAS" in renamed
  {
  }

  /** The municipality filter and the name detection: a new frame holding the surviving rows. */
  method FilterCensus(cols: set<string>, raw: seq<Row>, urban: bool, target: string)
    returns (df: Frame, name: Cell)
    requires RawTable(cols, raw, urban, target)
    ensures fresh(df) && df.Valid() && df.columns == cols
    ensures df.rows == Filtered(cols, raw, urban, target)
    ensures name == LayerName(cols, raw, urban, target)
  {
    RawRowsReady(cols, raw, urban, target);
    SurvivorsReady(raw, urban, target);
    df := new Frame(cols, raw);
    df.Mask(KeepMask(df.rows, urban, target));
    if |df.rows| == 0 {
      name := Text("Desconocido");
    } else {
      assert "NOM_MUN" in cols;
      name := df.rows[0]["NOM_MUN"];
    }
  }

  /** Geocode, renames and cleaning, in place. */
  method CleanCensus(df: Frame, urban: bool, parse: string -> Option<real>)
    requires df.Valid() && NoAliasClash(df.columns)
    requires "POBTOT" in df.columns && "TVIVPARHAB" in df.columns && "P_15YMAS" in df.columns
    requires forall i :: 0 <= i < |df.rows| ==> Preparable(df.rows[i], urban)
    modifies df
    ensures df.Valid() && df.columns == RenamedColumns(old(df.columns) + {"CVEGEO"})
    ensures "POBTOT" in df.columns && "TVIVPARHAB" in df.columns && "P_15YMAS" in df.columns
    ensures |df.rows| == |old(df.rows)|
    ensures forall i :: 0 <= i < |df.rows| ==>
              Preparable(old(df.rows)[i], urban) && df.rows[i] == CleanedRow(old(df.rows)[i], urban, parse)
  {
    AssignGeocode(df, urban);
    NoAliasClashGeocode(old(df.columns));
    RenameAliases(df);
    Clean(df, VARS_CENSO, parse);
    DenominatorsRenamed(old(df.columns));
  }

  /** Geocode, renames, cleaning and the indicators, in place: each row becomes its prepared row. */
  method PrepareRows(df: Frame, urban: bool, parse: string -> Option<real>)
    requires df.Valid() && NoAliasClash(df.columns)
    requires "POBTOT" in df.columns && "TVIVPARHAB" in df.columns && "P_15YMAS" in df.columns
    requires forall i :: 0 <= i < |df.rows| ==> Preparable(df.rows[i], urban)
    modifies df
    ensures df.Valid() && df.columns == PreparedColumns(old(df.columns))
    ensures |df.rows| == |old(df.rows)|
    ensures forall i :: 0 <= i < |df.rows| ==>
              Preparable(old(df.rows)[i], urban) && df.rows[i] == PreparedRow(old(df.rows)[i], urban, parse)
  {
    ghost var s: seq<Row> := df.rows;
    CleanCensus(df, urban, parse);
    forall i | 0 <= i < |s| ensures Computable(df.rows[i]) {
      CleanedRowComputable(s[i], urban, parse);
    }
    ProcessIndicators(df);
  }

  /**
   * The census half of `procesar_geo`, in place on one table: filter the
   * rows to the target municipality, detect its name, add the geocode,
   * rename the legacy columns, clean the census columns, compute the
   * indicators.
   */
  method PrepareCensus(cols: set<string>, raw: seq<Row>, urban: bool, target: string,
                       parse: string -> Option<real>) returns (df: Frame, name: Cell)
    requires RawTable(cols, raw, urban, target)
    ensures fresh(df) && df.Valid()
    ensures df.columns == PreparedColumns(cols)
    ensures df.rows == Prepared(cols, raw, urban, target, parse)
    ensures name == LayerName(cols, raw, urban, target)
  {
    df, name := FilterCensus(cols, raw, urban, target);
    FilteredPreparable(cols, raw, urban, target);
    PrepareRows(df, urban, parse);
    PreparedAsRows(cols, raw, urban, target, parse, df.rows);
  }

  predicate AllPreparable(rs: seq<Row>, urban: bool)
  {
    forall i :: 0 <= i < |rs| ==> Preparable(rs[i], urban)
  }

  /** The surviving rows of a raw table are ready for preparation. */
  lemma FilteredPreparable(cols: set<string>, raw: seq<Row>, urban: bool, target: string)
    requires RawTable(cols, raw, urban, target)
    ensures NoAliasClash(cols) && "POBTOT" in cols && "TVIVPARHAB" in cols && "P_15YMAS" in cols
    ensures AllPreparable(Filtered(cols, raw, urban, target), urban)
  {
    RawRowsReady(cols, raw, urban, target);
    SurvivorsReady(raw, urban, target);
    var s := Filtered(cols, raw, urban, target);
    forall i | 0 <= i < |s| ensures Preparable(s[i], urban) {
      assert s[i] in raw;
    }
  }

  /** Rows that are, one by one, the prepared surviving rows are the prepared table. */
  lemma PreparedAsRows(cols: set<string>, raw: seq<Row>, urban: bool, target: string,
                       parse: string -> Option<real>, rows: seq<Row>)
    requires RawTable(cols, raw, urban, target)
    requires AllPreparable(Filtered(cols, raw, urban, target), urban)
    requires |rows| == |Filtered(cols, raw, urban, target)|
    requires forall i :: 0 <= i < |rows| ==> rows[i] == PreparedRow(Filtered(cols, raw, urban, target)[i], urban, parse)
    ensures rows == Prepared(cols, raw, urban, target, parse)
  {
  }

  /** Every row of a table is ready for the projection. */
  predicate AllFinishable(rs: seq<Row>)
  {
    forall i :: 0 <= i < |rs| ==> Finishable(rs[i])
  }

  /** The joined rows of a raw table are ready for the projection. */
  lemma JoinedLayerFinishable(shp: seq<Feature>, cols: set<string>, raw: seq<Row>, urban: bool, target: string,
                              parse: string -> Option<real>)
    requires RawTable(cols, raw, urban, target)
    ensures AllFinishable(InnerJoin(shp, Prepared(cols, raw, urban, target, parse)))
  {
    var prepared := Prepared(cols, raw, urban, target, parse);
    PreparedLayerFinishable(cols, raw, urban, target, parse);
    JoinedFinishable(shp, prepared);
    var joined := InnerJoin(shp, prepared);
    forall i | 0 <= i < |joined| ensures Finishable(joined[i]) {
      assert joined[i] in joined;
    }
  }

  /** Rows that are, one by one, the finished joined rows are the layer. */
  lemma LayerAsRows(shp: seq<Feature>, cols: set<string>, raw: seq<Row>, tipo: string, target: string,
                    parse: string -> Option<real>, rows: seq<Row>)
    requires RawTable(cols, raw, IsUrban(tipo), target)
    requires AllFinishable(InnerJoin(shp, Prepared(cols, raw, IsUrban(tipo), target, parse)))
    requires |rows| == |InnerJoin(shp, Prepared(cols, raw, IsUrban(tipo), target, parse))|
    requires forall i :: 0 <= i < |rows| ==>
               rows[i] == FinishedRow(InnerJoin(shp, Prepared(cols, raw, IsUrban(tipo), target, parse))[i],
                                      tipo, LayerName(cols, raw, IsUrban(tipo), target))
    ensures rows == Layer(shp, cols, raw, tipo, target, parse)
  {
  }

  /** Stamped joined rows carry numbers in every base-year column after the nine assignments. */
  lemma StampedP20Numeric(joined: seq<Row>, tipo: string, name: Cell, rows: seq<Row>)
    requires AllFinishable(joined) && |rows| == |joined|
    requires forall i :: 0 <= i < |rows| ==> rows[i] == WithP20(Stamped(joined[i], tipo, name))
    ensures forall i :: 0 <= i < |rows| ==> P20Numeric(rows[i])
  {
    forall i | 0 <= i < |rows| ensures P20Numeric(rows[i]) {
      FinishableP20Numeric(joined[i], tipo, name);
    }
  }

  /** The type and name stamps and the nine base-year columns, in place. */
  method StampAndCopy(final: Frame, tipo: string, name: Cell)
    requires final.Valid()
    modifies final
    ensures final.Valid() && final.columns == old(final.columns) + {"TIPO"} + {"NOM_MUN_OFICIAL"} + P20_NAMES
    ensures |final.rows| == |old(final.rows)|
    ensures forall i :: 0 <= i < |final.rows| ==> final.rows[i] == WithP20(Stamped(old(final.rows)[i], tipo, name))
  {
    var n := |final.rows|;
    final.Assign("TIPO", seq(n, _ => Text(tipo)));
    final.Assign("NOM_MUN_OFICIAL", seq(n, _ => name));
    AssignP20(final);
  }

  /**
   * `procesar_geo(shp, csv, tipo, filtro_mun)` once both tables are read:
   * the census half, the inner join with the layer, the type and name
   * stamps, the nine base-year columns and the projected columns.
   */
  method ProcessGeo(shp: seq<Feature>, cols: set<string>, raw: seq<Row>, tipo: string, target: string,
                    parse: string -> Option<real>) returns (final: Frame)
    requires RawTable(cols, raw, IsUrban(tipo), target)
    ensures fresh(final) && final.Valid()
    ensures final.columns == LayerColumns(cols)
    ensures final.rows == Layer(shp, cols, raw, tipo, target, parse)
  {
    var urban := tipo == "Urbano";
    var df, name := PrepareCensus(cols, raw, urban, target, parse);
    var rs := df.rows;
    JoinColumns(shp, rs, df.columns);
    final := new Frame(df.columns + {"geometry"}, InnerJoin(shp, rs));
    var joined: seq<Row> := final.rows;
    StampAndCopy(final, tipo, name);
    JoinedLayerFinishable(shp, cols, raw, urban, target, parse);
    StampedP20Numeric(joined, tipo, name, final.rows);
    ProjectP25(final);
    LayerAsRows(shp, cols, raw, tipo, target, parse, final.rows);
  }
}
