/**
 * What the output of `procesar_geo` says about each geographic unit: an
 * output row is one feature of the layer joined with one surviving census
 * row of the same geocode, and it carries that row's indicators, its
 * base-year population (with a zero count read as 1) and the projection.
 */
module LayerProperties {
  import opened Frames
  import opened Cleaning
  import opened Indicators
  import opened Join
  import opened Projection
  import opened GeoLayer

  // ---------------------------------------------------------------------
  // Column names
  // ---------------------------------------------------------------------

  /** The projected names are the base-year names with the `P25_` prefix. */
  lemma TotalNames()
    ensures IsP20("P20_TOT") && P25Name("P20_TOT") == "P25_TOT"
  {
    assert "P20_TOT"[..4] == "P20_";
    assert "P20_TOT"[4..] == "TOT";
  }

  /** No stamped, geocode or indicator column starts with `P25_`. */
  lemma KeptColumnsNotP25()
    ensures !IsP25("CVEGEO") && !IsP25("geometry") && !IsP25("TIPO") && !IsP25("NOM_MUN_OFICIAL")
    ensures forall c :: c in OUTPUTS ==> !IsP25(c)
  {
    assert "CVEGEO"[..4][0] == 'C' && "geometry"[..4][0] == 'g';
    assert "TIPO"[..4][0] == 'T' && "NOM_MUN_OFICIAL"[..4][0] == 'N';
    assert "CAR_EDU_20"[..4][0] == 'C' && "CAR_SALUD_20"[..4][0] == 'C' && "CAR_VIV_20"[..4][0] == 'C';
    assert "CAR_SERV_20"[..4][0] == 'C' && "CAR_ALIM_20"[..4][0] == 'C' && "CAR_POBREZA_20"[..4][0] == 'C';
    assert "SITS_INDEX"[..4][0] == 'S';
  }

  /** The geocode, the polygon and the indicator columns are not base-year columns. */
  lemma KeptColumnsNotPopulation()
    ensures "CVEGEO" !in P20_NAMES && "geometry" !in P20_NAMES
    ensures forall c :: c in OUTPUTS ==>
              c !in P20_NAMES && !IsP25(c) && c != "geometry" && c != "TIPO" && c != "NOM_MUN_OFICIAL"
  {
    KeptColumnsNotP25();
  }

  // ---------------------------------------------------------------------
  // After the join: stamps, base-year and projected columns
  // ---------------------------------------------------------------------

  /** A column of a stamped row that neither population pass writes is kept by both. */
  lemma PopulationKeeps(s: Row, k: string)
    requires P20Numeric(WithP20(s)) && k in s && k !in P20_NAMES && !IsP25(k)
    ensures k in WithP25(WithP20(s)) && WithP25(WithP20(s))[k] == s[k]
  {
    P20OthersUnchanged(s);
    P20Keys(s);
    P25Keeps(WithP20(s), k);
  }

  /** A column the stamps and the population passes do not write passes through unchanged. */
  lemma FinishedKeeps(j: Row, tipo: string, name: Cell, k: string)
    requires Finishable(j) && k in j
    requires k !in P20_NAMES && !IsP25(k) && k != "TIPO" && k != "NOM_MUN_OFICIAL"
    ensures k in FinishedRow(j, tipo, name) && FinishedRow(j, tipo, name)[k] == j[k]
  {
    FinishableP20Numeric(j, tipo, name);
    PopulationKeeps(Stamped(j, tipo, name), k);
  }

  /** The stamps are not base-year or projected columns. */
  lemma StampsNotPopulation()
    ensures "TIPO" !in P20_NAMES && !IsP25("TIPO")
    ensures "NOM_MUN_OFICIAL" !in P20_NAMES && !IsP25("NOM_MUN_OFICIAL")
  {
    KeptColumnsNotP25();
  }

  /** Every output row carries the layer type. */
  lemma FinishedType(j: Row, tipo: string, name: Cell)
    requires Finishable(j)
    ensures "TIPO" in FinishedRow(j, tipo, name) && FinishedRow(j, tipo, name)["TIPO"] == Text(tipo)
  {
    FinishableP20Numeric(j, tipo, name);
    StampsNotPopulation();
    PopulationKeeps(Stamped(j, tipo, name), "TIPO");
  }

  /** Every output row carries the detected municipality name. */
  lemma FinishedName(j: Row, tipo: string, name: Cell)
    requires Finishable(j)
    ensures "NOM_MUN_OFICIAL" in FinishedRow(j, tipo, name) && FinishedRow(j, tipo, name)["NOM_MUN_OFICIAL"] == name
  {
    FinishableP20Numeric(j, tipo, name);
    StampsNotPopulation();
    PopulationKeeps(Stamped(j, tipo, name), "NOM_MUN_OFICIAL");
  }

  /** The projected total is 1.05 times the base-year total. */
  lemma ProjectedTotal(w: Row)
    requires P20Numeric(w) && "P20_TOT" in w
    ensures "P25_TOT" in WithP25(w) && WithP25(w)["P25_TOT"] == Num(w["P20_TOT"].val * GROWTH)
    ensures WithP25(w)["P20_TOT"] == w["P20_TOT"]
  {
    TotalNames();
    P25Value(w, "P20_TOT");
  }

  /** A base-year total of 100 is projected to 105. */
  lemma ProjectionExample(w: Row)
    requires P20Numeric(w) && "P20_TOT" in w && w["P20_TOT"] == Num(100.0)
    ensures "P25_TOT" in WithP25(w) && WithP25(w)["P25_TOT"] == Num(105.0)
  {
    ProjectedTotal(w);
  }

  /** The total base-year population is the (joined) `POBTOT`, or 0 when the column is absent. */
  lemma FinishedBaseTotal(j: Row, tipo: string, name: Cell)
    requires Finishable(j)
    ensures var x := FinishedRow(j, tipo, name);
      "P20_TOT" in x && x["P20_TOT"] == Safe(j, "POBTOT") && x["P20_TOT"].Num?
  {
    var s := Stamped(j, tipo, name);
    var w := WithP20(s);
    FinishableP20Numeric(j, tipo, name);
    P20Values(s);
    P20Keys(s);
    assert Safe(s, "POBTOT") == Safe(j, "POBTOT");
    ProjectedTotal(w);
  }

  /** The projected total is 1.05 times the base-year total. */
  lemma FinishedProjectedTotal(j: Row, tipo: string, name: Cell)
    requires Finishable(j)
    ensures var x := FinishedRow(j, tipo, name);
      "P20_TOT" in x && x["P20_TOT"].Num? && "P25_TOT" in x && x["P25_TOT"] == Num(x["P20_TOT"].val * GROWTH)
  {
    FinishedBaseTotal(j, tipo, name);
    FinishedProjection(j, tipo, name);
    TotalNames();
  }

  // ---------------------------------------------------------------------
  // One geographic unit: a census row joined with a feature
  // ---------------------------------------------------------------------

  /** The output row of one unit: its census row prepared, joined with its feature, stamped and projected. */
  function UnitRow(f: Feature, r: Row, urban: bool, tipo: string, name: Cell, parse: string -> Option<real>): Row
    requires Preparable(r, urban)
  {
    PreparedRowFacts(r, urban, parse);
    JoinedRowFinishable(f, PreparedRow(r, urban, parse));
    FinishedRow(Joined(f, PreparedRow(r, urban, parse)), tipo, name)
  }

  /** Cleaning reads the census total `POBTOT` as a number, 0 when it does not parse. */
  lemma CleanedPopulation(r: Row, urban: bool, parse: string -> Option<real>)
    requires Preparable(r, urban)
    ensures "POBTOT" in CleanedRow(r, urban, parse)
    ensures CleanedRow(r, urban, parse)["POBTOT"] == Num(ToNumber(r["POBTOT"], parse))
  {
    var g := Geocoded(r, urban);
    RenamedReady(r, urban);
    RenamedFacts(g);
    assert !IsAliasOrCanonical("POBTOT");
    SourcesAreCensus();
    CleanRowFacts(Renamed(g), VARS_CENSO, parse);
  }

  /** The census total as the indicators leave it: a zero count becomes 1. */
  lemma PreparedPopulation(r: Row, urban: bool, parse: string -> Option<real>)
    requires Preparable(r, urban)
    ensures var v := ToNumber(r["POBTOT"], parse);
      "POBTOT" in PreparedRow(r, urban, parse) &&
      PreparedRow(r, urban, parse)["POBTOT"] == Num(if v == 0.0 then 1.0 else v)
  {
    var c := CleanedRow(r, urban, parse);
    CleanedPopulation(r, urban, parse);
    CleanedRowComputable(r, urban, parse);
    ZeroDenominatorsBecomeOne(c);
    IndicatorRowColumns(c);
  }

  /**
   * A unit's base-year total is its census `POBTOT`, with a zero (or
   * unparseable) count reported as 1 because the indicators replaced it in
   * place; the projected total is 1.05 times that.
   */
  lemma UnitPopulation(f: Feature, r: Row, urban: bool, tipo: string, name: Cell, parse: string -> Option<real>)
    requires Preparable(r, urban)
    ensures var v := ToNumber(r["POBTOT"], parse);
      var x := UnitRow(f, r, urban, tipo, name, parse);
      && "P20_TOT" in x && x["P20_TOT"] == Num(if v == 0.0 then 1.0 else v)
      && "P25_TOT" in x && x["P25_TOT"] == Num(x["P20_TOT"].val * GROWTH)
  {
    var p := PreparedRow(r, urban, parse);
    PreparedRowFacts(r, urban, parse);
    PreparedPopulation(r, urban, parse);
    var j := Joined(f, p);
    JoinedRowFinishable(f, p);
    assert j["POBTOT"] == p["POBTOT"];
    FinishedBaseTotal(j, tipo, name);
    FinishedProjectedTotal(j, tipo, name);
  }

  /** A unit whose census total is 0 reports a base-year total of 1 and a projected total of 1.05. */
  lemma ZeroPopulationReportsOne(f: Feature, r: Row, urban: bool, tipo: string, name: Cell,
                                 parse: string -> Option<real>)
    requires Preparable(r, urban) && ToNumber(r["POBTOT"], parse) == 0.0
    ensures var x := UnitRow(f, r, urban, tipo, name, parse);
      "P20_TOT" in x && x["P20_TOT"] == Num(1.0) && "P25_TOT" in x && x["P25_TOT"] == Num(1.05)
  {
    UnitPopulation(f, r, urban, tipo, name, parse);
  }

  /** A column of a prepared row that the later stages do not write reaches the output unchanged. */
  lemma JoinedKeeps(f: Feature, p: Row, tipo: string, name: Cell, k: string)
    requires Finishable(Joined(f, p)) && k in p && k != "geometry"
    requires k !in P20_NAMES && !IsP25(k) && k != "TIPO" && k != "NOM_MUN_OFICIAL"
    ensures k in FinishedRow(Joined(f, p), tipo, name) && FinishedRow(Joined(f, p), tipo, name)[k] == p[k]
  {
    FinishedKeeps(Joined(f, p), tipo, name, k);
  }

  /** The joined feature's polygon reaches the output unchanged. */
  lemma JoinedGeometry(f: Feature, p: Row, tipo: string, name: Cell)
    requires Finishable(Joined(f, p))
    ensures "geometry" in FinishedRow(Joined(f, p), tipo, name) && FinishedRow(Joined(f, p), tipo, name)["geometry"] == Geom(f.shape)
  {
    KeptColumnsNotP25();
    FinishedKeeps(Joined(f, p), tipo, name, "geometry");
  }

  /** Where a unit's output row comes from: its prepared row joined with its feature. */
  lemma UnitRowJoined(f: Feature, r: Row, urban: bool, tipo: string, name: Cell, parse: string -> Option<real>)
    requires Preparable(r, urban)
    ensures Finishable(Joined(f, PreparedRow(r, urban, parse)))
    ensures UnitRow(f, r, urban, tipo, name, parse) == FinishedRow(Joined(f, PreparedRow(r, urban, parse)), tipo, name)
  {
    PreparedRowFacts(r, urban, parse);
    JoinedRowFinishable(f, PreparedRow(r, urban, parse));
  }

  /** A unit keeps its geocode, which is its feature's when the two were joined, and gets its feature's polygon. */
  lemma UnitGeocode(f: Feature, r: Row, urban: bool, tipo: string, name: Cell, parse: string -> Option<real>)
    requires Preparable(r, urban)
    ensures var x := UnitRow(f, r, urban, tipo, name, parse);
      && "CVEGEO" in x && x["CVEGEO"] == Text(Geocode(r, urban))
      && (Match(f, PreparedRow(r, urban, parse)) ==> Geocode(r, urban) == f.cvegeo)
      && "geometry" in x && x["geometry"] == Geom(f.shape)
  {
    var p := PreparedRow(r, urban, parse);
    PreparedRowFacts(r, urban, parse);
    UnitRowJoined(f, r, urban, tipo, name, parse);
    KeptColumnsNotP25();
    KeptColumnsNotPopulation();
    JoinedKeeps(f, p, tipo, name, "CVEGEO");
    JoinedGeometry(f, p, tipo, name);
  }

  /** The prepared row holds every indicator column as a number in [0,1]. */
  lemma PreparedIndicator(r: Row, urban: bool, parse: string -> Option<real>, c: string)
    requires Preparable(r, urban) && c in OUTPUTS
    ensures var p := PreparedRow(r, urban, parse);
      c in p && p[c].Num? && 0.0 <= p[c].val <= 1.0
  {
    CleanedRowComputable(r, urban, parse);
    IndicatorsInUnitRange(CleanedRow(r, urban, parse));
  }

  /** One indicator column of a unit: the prepared row's value, in [0,1]. */
  lemma UnitIndicator(f: Feature, r: Row, urban: bool, tipo: string, name: Cell, parse: string -> Option<real>,
                      c: string)
    requires Preparable(r, urban) && c in OUTPUTS
    ensures var x := UnitRow(f, r, urban, tipo, name, parse);
      c in x && x[c] == PreparedRow(r, urban, parse)[c] && x[c].Num? && 0.0 <= x[c].val <= 1.0
  {
    var p := PreparedRow(r, urban, parse);
    PreparedIndicator(r, urban, parse, c);
    UnitRowJoined(f, r, urban, tipo, name, parse);
    KeptColumnsNotPopulation();
    JoinedKeeps(f, p, tipo, name, c);
  }

  // ---------------------------------------------------------------------
  // The whole layer
  // ---------------------------------------------------------------------

  /** The output rows are the joined rows, each stamped and projected. */
  lemma LayerRows(shp: seq<Feature>, cols: set<string>, raw: seq<Row>, tipo: string, target: string,
                  parse: string -> Option<real>)
    requires RawTable(cols, raw, IsUrban(tipo), target)
    ensures var joined := InnerJoin(shp, Prepared(cols, raw, IsUrban(tipo), target, parse));
      && AllFinishable(joined)
      && |Layer(shp, cols, raw, tipo, target, parse)| == |joined|
      && forall i :: 0 <= i < |joined| ==>
           Layer(shp, cols, raw, tipo, target, parse)[i] ==
           FinishedRow(joined[i], tipo, LayerName(cols, raw, IsUrban(tipo), target))
  {
    JoinedLayerFinishable(shp, cols, raw, IsUrban(tipo), target, parse);
  }

  /** `x` is the output row of the unit made of feature `f` and census row `r`, which share a geocode. */
  predicate UnitOf(x: Row, f: Feature, r: Row, urban: bool, tipo: string, name: Cell, parse: string -> Option<real>)
  {
    && Preparable(r, urban)
    && Match(f, PreparedRow(r, urban, parse))
    && x == UnitRow(f, r, urban, tipo, name, parse)
  }

  /** Every output row is the unit of a feature of the layer and a surviving census row of the same geocode. */
  lemma LayerRowOrigin(shp: seq<Feature>, cols: set<string>, raw: seq<Row>, tipo: string, target: string,
                       parse: string -> Option<real>, i: int)
    requires RawTable(cols, raw, IsUrban(tipo), target)
    requires 0 <= i < |Layer(shp, cols, raw, tipo, target, parse)|
    ensures exists f, r :: f in shp && r in Filtered(cols, raw, IsUrban(tipo), target) &&
              UnitOf(Layer(shp, cols, raw, tipo, target, parse)[i], f, r, IsUrban(tipo), tipo,
                     LayerName(cols, raw, IsUrban(tipo), target), parse)
  {
    var urban := IsUrban(tipo);
    var s := Filtered(cols, raw, urban, target);
    var joined := InnerJoin(shp, Prepared(cols, raw, urban, target, parse));
    var name := LayerName(cols, raw, urban, target);
    LayerRows(shp, cols, raw, tipo, target, parse);
    FilteredPreparable(cols, raw, urban, target);
    var prepared := PreparedRows(s, urban, parse);
    assert joined[i] in InnerJoin(shp, prepared);
    JoinedRowIndex(shp, prepared, joined[i]);
    var f, k :| f in shp && 0 <= k < |prepared| && Match(f, prepared[k]) && joined[i] == Joined(f, prepared[k]);
    var r := s[k];
    assert r in s;
    UnitRowJoined(f, r, urban, tipo, name, parse);
    assert UnitOf(Layer(shp, cols, raw, tipo, target, parse)[i], f, r, urban, tipo, name, parse);
  }

  /** Conversely, every feature and surviving census row of the same geocode give an output row. */
  lemma LayerComplete(shp: seq<Feature>, cols: set<string>, raw: seq<Row>, tipo: string, target: string,
                      parse: string -> Option<real>, f: Feature, r: Row)
    requires RawTable(cols, raw, IsUrban(tipo), target)
    requires f in shp && r in Filtered(cols, raw, IsUrban(tipo), target)
    ensures Preparable(r, IsUrban(tipo))
    ensures Match(f, PreparedRow(r, IsUrban(tipo), parse)) ==>
              UnitRow(f, r, IsUrban(tipo), tipo, LayerName(cols, raw, IsUrban(tipo), target), parse)
                in Layer(shp, cols, raw, tipo, target, parse)
  {
    var urban := IsUrban(tipo);
    var s := Filtered(cols, raw, urban, target);
    var prepared := Prepared(cols, raw, urban, target, parse);
    var joined := InnerJoin(shp, prepared);
    var name := LayerName(cols, raw, urban, target);
    FilteredPreparable(cols, raw, urban, target);
    var k :| 0 <= k < |s| && s[k] == r;
    var p := PreparedRow(r, urban, parse);
    if Match(f, p) {
      assert prepared == PreparedRows(s, urban, parse);
      assert prepared[k] == p;
      assert Joined(f, p) in joined;
      var i :| 0 <= i < |joined| && joined[i] == Joined(f, p);
      LayerRows(shp, cols, raw, tipo, target, parse);
      UnitRowJoined(f, r, urban, tipo, name, parse);
      assert Layer(shp, cols, raw, tipo, target, parse)[i] == UnitRow(f, r, urban, tipo, name, parse);
    }
  }

  /** Every output row carries the layer type and the detected municipality name. */
  lemma LayerRowStamps(shp: seq<Feature>, cols: set<string>, raw: seq<Row>, tipo: string, target: string,
                       parse: string -> Option<real>, i: int)
    requires RawTable(cols, raw, IsUrban(tipo), target)
    requires 0 <= i < |Layer(shp, cols, raw, tipo, target, parse)|
    ensures var x := Layer(shp, cols, raw, tipo, target, parse)[i];
      && "TIPO" in x && x["TIPO"] == Text(tipo)
      && "NOM_MUN_OFICIAL" in x && x["NOM_MUN_OFICIAL"] == LayerName(cols, raw, IsUrban(tipo), target)
  {
    var joined := InnerJoin(shp, Prepared(cols, raw, IsUrban(tipo), target, parse));
    var name := LayerName(cols, raw, IsUrban(tipo), target);
    LayerRows(shp, cols, raw, tipo, target, parse);
    FinishedType(joined[i], tipo, name);
    FinishedName(joined[i], tipo, name);
  }

  /** Every base-year column of a finished row has its projected column at 1.05 times it. */
  lemma FinishedProjection(j: Row, tipo: string, name: Cell)
    requires Finishable(j)
    ensures ProjectedRow(FinishedRow(j, tipo, name))
  {
    var w := WithP20(Stamped(j, tipo, name));
    FinishableP20Numeric(j, tipo, name);
    ProjectionClosed(w);
    assert FinishedRow(j, tipo, name) == WithP25(w);
  }

  /** Every base-year column of an output row has its projected column at 1.05 times it. */
  lemma LayerRowProjection(shp: seq<Feature>, cols: set<string>, raw: seq<Row>, tipo: string, target: string,
                           parse: string -> Option<real>, i: int)
    requires RawTable(cols, raw, IsUrban(tipo), target)
    requires 0 <= i < |Layer(shp, cols, raw, tipo, target, parse)|
    ensures ProjectedRow(Layer(shp, cols, raw, tipo, target, parse)[i])
  {
    var joined := InnerJoin(shp, Prepared(cols, raw, IsUrban(tipo), target, parse));
    var name := LayerName(cols, raw, IsUrban(tipo), target);
    LayerRows(shp, cols, raw, tipo, target, parse);
    var x := Layer(shp, cols, raw, tipo, target, parse)[i];
    assert x == FinishedRow(joined[i], tipo, name);
    FinishedProjection(joined[i], tipo, name);
  }

  /** Every output row has the geocode and polygon of its feature, and the geocode of its census row. */
  lemma LayerRowGeocode(shp: seq<Feature>, cols: set<string>, raw: seq<Row>, tipo: string, target: string,
                        parse: string -> Option<real>, i: int)
    requires RawTable(cols, raw, IsUrban(tipo), target)
    requires 0 <= i < |Layer(shp, cols, raw, tipo, target, parse)|
    ensures var x := Layer(shp, cols, raw, tipo, target, parse)[i];
      "CVEGEO" in x && "geometry" in x &&
      exists f, r :: f in shp && r in Filtered(cols, raw, IsUrban(tipo), target) && Preparable(r, IsUrban(tipo)) &&
        x["CVEGEO"] == Text(f.cvegeo) && Geocode(r, IsUrban(tipo)) == f.cvegeo && x["geometry"] == Geom(f.shape)
  {
    var urban := IsUrban(tipo);
    var name := LayerName(cols, raw, urban, target);
    LayerRowOrigin(shp, cols, raw, tipo, target, parse, i);
    var f, r :| f in shp && r in Filtered(cols, raw, urban, target) &&
                UnitOf(Layer(shp, cols, raw, tipo, target, parse)[i], f, r, urban, tipo, name, parse);
    UnitGeocode(f, r, urban, tipo, name, parse);
  }

  /**
   * Every output row's base-year total is the census `POBTOT` of the census
   * row whose geocode it carries, or 1 when that count is 0 (`LayerRowProjection` gives its
   * projected total).
   */
  lemma LayerRowPopulation(shp: seq<Feature>, cols: set<string>, raw: seq<Row>, tipo: string, target: string,
                           parse: string -> Option<real>, i: int)
    requires RawTable(cols, raw, IsUrban(tipo), target)
    requires 0 <= i < |Layer(shp, cols, raw, tipo, target, parse)|
    ensures var x := Layer(shp, cols, raw, tipo, target, parse)[i];
      "P20_TOT" in x && "CVEGEO" in x &&
      exists r :: r in Filtered(cols, raw, IsUrban(tipo), target) && Preparable(r, IsUrban(tipo)) &&
           x["CVEGEO"] == Text(Geocode(r, IsUrban(tipo))) &&
           var v := ToNumber(r["POBTOT"], parse);
           x["P20_TOT"] == Num(if v == 0.0 then 1.0 else v)
  {
    var urban := IsUrban(tipo);
    var name := LayerName(cols, raw, urban, target);
    LayerRowOrigin(shp, cols, raw, tipo, target, parse, i);
    var f, r :| f in shp && r in Filtered(cols, raw, urban, target) &&
                UnitOf(Layer(shp, cols, raw, tipo, target, parse)[i], f, r, urban, tipo, name, parse);
    var x := Layer(shp, cols, raw, tipo, target, parse)[i];
    assert x == UnitRow(f, r, urban, tipo, name, parse);
    UnitPopulation(f, r, urban, tipo, name, parse);
    UnitGeocode(f, r, urban, tipo, name, parse);
    var v := ToNumber(r["POBTOT"], parse);
    assert x["P20_TOT"] == Num(if v == 0.0 then 1.0 else v);
  }

  /** Every output row holds each indicator as a number in [0,1]. */
  lemma LayerRowIndicators(shp: seq<Feature>, cols: set<string>, raw: seq<Row>, tipo: string, target: string,
                           parse: string -> Option<real>, i: int)
    requires RawTable(cols, raw, IsUrban(tipo), target)
    requires 0 <= i < |Layer(shp, cols, raw, tipo, target, parse)|
    ensures var x := Layer(shp, cols, raw, tipo, target, parse)[i];
      forall c :: c in OUTPUTS ==> c in x && x[c].Num? && 0.0 <= x[c].val <= 1.0
  {
    var urban := IsUrban(tipo);
    var name := LayerName(cols, raw, urban, target);
    LayerRowOrigin(shp, cols, raw, tipo, target, parse, i);
    var f, r :| f in shp && r in Filtered(cols, raw, urban, target) &&
                UnitOf(Layer(shp, cols, raw, tipo, target, parse)[i], f, r, urban, tipo, name, parse);
    forall c | c in OUTPUTS
      ensures var x := Layer(shp, cols, raw, tipo, target, parse)[i];
        c in x && x[c].Num? && 0.0 <= x[c].val <= 1.0
    {
      UnitIndicator(f, r, urban, tipo, name, parse, c);
    }
  }
}
