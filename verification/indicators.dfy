/**
 * The indicator engine (`procesar_indicadores`): six deprivation ratios
 * per geographic unit, each clipped to [0,1], and the composite SITS index,
 * the mean of the first five.
 */
module Indicators {
  import opened Frames

  /** The columns whose zeros are replaced by ones before dividing. */
  const DENOMINATORS: seq<string> := ["POBTOT", "TVIVPARHAB", "P_15YMAS"]

  /** The six ratio columns, in the order they are clipped; the first five make the index. */
  const RATIOS: seq<string> :=
    ["CAR_EDU_20", "CAR_SALUD_20", "CAR_VIV_20", "CAR_SERV_20", "CAR_ALIM_20", "CAR_POBREZA_20"]

  /** Every column the engine adds. */
  const OUTPUTS: set<string> :=
    {"CAR_EDU_20", "CAR_SALUD_20", "CAR_VIV_20", "CAR_SERV_20", "CAR_ALIM_20", "CAR_POBREZA_20", "SITS_INDEX"}

  /** The count columns the ratios read; each one, when present, must hold numbers. */
  const INPUTS: seq<string> := [
    "P15YM_AN", "P15YM_SE", "P_15YMAS", "PDER_SS", "POBTOT", "VPH_PISOTI", "TVIVPARHAB",
    "VPH_AGUAFV", "VPH_NODREN", "VPH_S_ELEC", "VPH_REFRI", "VPH_LAVAD", "VPH_AUTOM", "VPH_PC"
  ]

  predicate NumericIfPresent(r: Row, c: string)
  {
    c in r ==> r[c].Num?
  }

  /** Every input column that is present holds a number. */
  predicate NumericInputs(r: Row)
  {
    && NumericIfPresent(r, "P15YM_AN") && NumericIfPresent(r, "P15YM_SE")
    && NumericIfPresent(r, "P_15YMAS") && NumericIfPresent(r, "PDER_SS")
    && NumericIfPresent(r, "POBTOT") && NumericIfPresent(r, "VPH_PISOTI")
    && NumericIfPresent(r, "TVIVPARHAB") && NumericIfPresent(r, "VPH_AGUAFV")
    && NumericIfPresent(r, "VPH_NODREN") && NumericIfPresent(r, "VPH_S_ELEC")
    && NumericIfPresent(r, "VPH_REFRI") && NumericIfPresent(r, "VPH_LAVAD")
    && NumericIfPresent(r, "VPH_AUTOM") && NumericIfPresent(r, "VPH_PC")
  }

  /**
   * What the engine needs of a row: the three denominator columns are
   * present (they are read directly, not through `g`) and every input
   * column that is present holds a number.
   */
  predicate Computable(r: Row)
  {
    && "POBTOT" in r && "TVIVPARHAB" in r && "P_15YMAS" in r
    && NumericInputs(r)
  }

  /** The helper `g`: a present column's value, or 0 for an absent one. */
  function G(r: Row, c: string): (x: real)
    requires NumericIfPresent(r, c)
    ensures c !in r ==> x == 0.0
    ensures c in r ==> Num(x) == r[c]
  {
    if c in r then r[c].val else 0.0
  }

  /** A denominator as the engine divides by it: its value, with 0 read as 1. */
  function Divisor(r: Row, c: string): (d: real)
    requires c in r && r[c].Num?
    ensures d != 0.0
    ensures r[c].val != 0.0 ==> d == r[c].val
    ensures r[c].val == 0.0 ==> d == 1.0
  {
    if r[c].val == 0.0 then 1.0 else r[c].val
  }

  /** Step 1: the zero-to-one replacement on each denominator present. */
  function ReplaceZeroIfPresent(r: Row, c: string): Row
  {
    if c in r then r[c := OneIfZero(r[c])] else r
  }

  function ZeroToOne(r: Row): Row
  {
    ReplaceZeroIfPresent(ReplaceZeroIfPresent(ReplaceZeroIfPresent(r, "POBTOT"), "TVIVPARHAB"), "P_15YMAS")
  }

  /** The zero-to-one replacement on each listed column present, in list order. */
  function ReplaceZeros(r: Row, cs: seq<string>): Row
    decreases |cs|
  {
    if cs == [] then r else ReplaceZeroIfPresent(ReplaceZeros(r, cs[..|cs| - 1]), cs[|cs| - 1])
  }

  /** Going through the denominators in their list order is `ZeroToOne`. */
  lemma DenominatorsInOrder(r: Row)
    ensures ReplaceZeros(r, DENOMINATORS) == ZeroToOne(r)
  {
    assert DENOMINATORS[..2] == ["POBTOT", "TVIVPARHAB"];
    assert DENOMINATORS[..2][..1] == ["POBTOT"];
    assert ["POBTOT"][..0] == [];
  }

  lemma ZeroToOneDivisible(r: Row)
    requires Computable(r)
    ensures Divisible(ZeroToOne(r))
    ensures ZeroToOne(r).Keys == r.Keys
    ensures forall k :: k in r && k !in DENOMINATORS ==> ZeroToOne(r)[k] == r[k]
    ensures ZeroToOne(r)["POBTOT"] == OneIfZero(r["POBTOT"])
    ensures ZeroToOne(r)["TVIVPARHAB"] == OneIfZero(r["TVIVPARHAB"])
    ensures ZeroToOne(r)["P_15YMAS"] == OneIfZero(r["P_15YMAS"])
  {
  }

  /** A row whose denominators hold nonzero numbers, as after step 1. */
  predicate Divisible(z: Row)
  {
    && "POBTOT" in z && z["POBTOT"].Num? && z["POBTOT"].val != 0.0
    && "TVIVPARHAB" in z && z["TVIVPARHAB"].Num? && z["TVIVPARHAB"].val != 0.0
    && "P_15YMAS" in z && z["P_15YMAS"].Num? && z["P_15YMAS"].val != 0.0
    && NumericInputs(z)
  }

  /** Step 2: the six raw ratios, before clipping. */
  function Edu(z: Row): real requires Divisible(z)
  {
    (G(z, "P15YM_AN") + G(z, "P15YM_SE")) / z["P_15YMAS"].val
  }

  function Salud(z: Row): real requires Divisible(z)
  {
    1.0 - (G(z, "PDER_SS") / z["POBTOT"].val)
  }

  function Viv(z: Row): real requires Divisible(z)
  {
    G(z, "VPH_PISOTI") / z["TVIVPARHAB"].val
  }

  function Serv(z: Row): real requires Divisible(z)
  {
    (G(z, "VPH_AGUAFV") + G(z, "VPH_NODREN") + G(z, "VPH_S_ELEC")) / 3.0 / z["TVIVPARHAB"].val
  }

  function Alim(z: Row): real requires Divisible(z)
  {
    1.0 - (G(z, "VPH_REFRI") / z["TVIVPARHAB"].val)
  }

  /** The asset sum `activos`. */
  function Assets(z: Row): real requires NumericInputs(z)
  {
    G(z, "VPH_REFRI") + G(z, "VPH_LAVAD") + G(z, "VPH_AUTOM") + G(z, "VPH_PC")
  }

  function Pobreza(z: Row): real requires Divisible(z)
  {
    1.0 - (Assets(z) / (4.0 * z["TVIVPARHAB"].val))
  }

  function WithRawRatios(z: Row): Row
    requires Divisible(z)
  {
    z["CAR_EDU_20" := Num(Edu(z))]["CAR_SALUD_20" := Num(Salud(z))]["CAR_VIV_20" := Num(Viv(z))]
     ["CAR_SERV_20" := Num(Serv(z))]["CAR_ALIM_20" := Num(Alim(z))]["CAR_POBREZA_20" := Num(Pobreza(z))]
  }

  /** Step 3: clipping the listed numeric columns to [0,1]. */
  function ClipColumns(r: Row, cols: seq<string>): Row
  {
    map k | k in r :: if k in cols && r[k].Num? then Num(Clip(r[k].val)) else r[k]
  }

  /** Step 4: the composite index, the mean of the first five (clipped) ratios. */
  predicate HasIndexInputs(r: Row)
  {
    && "CAR_EDU_20" in r && r["CAR_EDU_20"].Num? && "CAR_SALUD_20" in r && r["CAR_SALUD_20"].Num?
    && "CAR_VIV_20" in r && r["CAR_VIV_20"].Num? && "CAR_SERV_20" in r && r["CAR_SERV_20"].Num?
    && "CAR_ALIM_20" in r && r["CAR_ALIM_20"].Num?
  }

  function Mean5(r: Row): real
    requires HasIndexInputs(r)
  {
    (r["CAR_EDU_20"].val + r["CAR_SALUD_20"].val + r["CAR_VIV_20"].val +
     r["CAR_SERV_20"].val + r["CAR_ALIM_20"].val) / 5.0
  }

  /** Steps 1 to 3: the zero-replaced row with its six ratio columns, clipped. */
  function Clipped(r: Row): (c: Row)
    requires Computable(r)
    ensures HasIndexInputs(c)
  {
    ZeroToOneDivisible(r);
    var w := WithRawRatios(ZeroToOne(r));
    WithRawRatiosFacts(ZeroToOne(r));
    ClipColumnsFacts(w, RATIOS);
    ClipColumns(w, RATIOS)
  }

  /** The row after `procesar_indicadores`. */
  function IndicatorRow(r: Row): Row
    requires Computable(r)
  {
    var c := Clipped(r);
    c["SITS_INDEX" := Num(Mean5(c))]
  }

  /** The six raw ratios land in their columns; every other column is kept. */
  lemma WithRawRatiosFacts(z: Row)
    requires Divisible(z)
    ensures var w := WithRawRatios(z);
      && w.Keys == z.Keys + (OUTPUTS - {"SITS_INDEX"})
      && w["CAR_EDU_20"] == Num(Edu(z)) && w["CAR_SALUD_20"] == Num(Salud(z))
      && w["CAR_VIV_20"] == Num(Viv(z)) && w["CAR_SERV_20"] == Num(Serv(z))
      && w["CAR_ALIM_20"] == Num(Alim(z)) && w["CAR_POBREZA_20"] == Num(Pobreza(z))
      && forall k :: k in z && k !in OUTPUTS ==> w[k] == z[k]
  {
  }

  /** Clipping keeps the columns, clips the listed numeric ones and leaves the rest. */
  lemma ClipColumnsFacts(r: Row, cols: seq<string>)
    ensures ClipColumns(r, cols).Keys == r.Keys
    ensures forall k :: k in r && k in cols && r[k].Num? ==> ClipColumns(r, cols)[k] == Num(Clip(r[k].val))
    ensures forall k :: k in r && k !in cols ==> ClipColumns(r, cols)[k] == r[k]
  {
  }

  /** The columns of the engine's output: the input's, plus its seven. */
  lemma IndicatorRowKeys(r: Row)
    requires Computable(r)
    ensures Divisible(ZeroToOne(r))
    ensures IndicatorRow(r).Keys == r.Keys + OUTPUTS
    ensures forall k :: k in r && k !in OUTPUTS ==> IndicatorRow(r)[k] == ZeroToOne(r)[k]
  {
    ZeroToOneDivisible(r);
    var z := ZeroToOne(r);
    var w := WithRawRatios(z);
    WithRawRatiosFacts(z);
    ClipColumnsFacts(w, RATIOS);
  }

  /** Each ratio column of the output is the clipped raw ratio. */
  lemma IndicatorRowRatio(r: Row, name: string)
    requires Computable(r) && name in RATIOS
    ensures Divisible(ZeroToOne(r))
    ensures name in WithRawRatios(ZeroToOne(r)) && WithRawRatios(ZeroToOne(r))[name].Num?
    ensures IndicatorRow(r)[name] == Num(Clip(WithRawRatios(ZeroToOne(r))[name].val))
  {
    ZeroToOneDivisible(r);
    RawRatioPresent(ZeroToOne(r), name);
    ClippedRatio(r, name);
    RatioCases(name);
  }

  /** Each ratio column holds a number after the raw ratios are assigned. */
  lemma RawRatioPresent(z: Row, name: string)
    requires Divisible(z) && name in RATIOS
    ensures name in WithRawRatios(z) && WithRawRatios(z)[name].Num?
  {
    WithRawRatiosFacts(z);
    RatioCases(name);
  }

  /** Clipping a ratio column clips its raw value. */
  lemma ClippedRatio(r: Row, name: string)
    requires Computable(r) && name in RATIOS
    ensures Divisible(ZeroToOne(r))
    ensures name in WithRawRatios(ZeroToOne(r)) && WithRawRatios(ZeroToOne(r))[name].Num?
    ensures name in Clipped(r) && Clipped(r)[name] == Num(Clip(WithRawRatios(ZeroToOne(r))[name].val))
  {
    ZeroToOneDivisible(r);
    RawRatioPresent(ZeroToOne(r), name);
    ClipColumnsFacts(WithRawRatios(ZeroToOne(r)), RATIOS);
  }

  /** The six ratio columns, one by one; none of them is the index. */
  lemma RatioCases(name: string)
    requires name in RATIOS
    ensures || name == "CAR_EDU_20" || name == "CAR_SALUD_20" || name == "CAR_VIV_20"
            || name == "CAR_SERV_20" || name == "CAR_ALIM_20" || name == "CAR_POBREZA_20"
    ensures name in OUTPUTS && name != "SITS_INDEX"
  {
  }

  /** The index column is the mean of the first five clipped ratio columns. */
  lemma IndicatorRowIndex(r: Row)
    requires Computable(r)
    ensures var out := IndicatorRow(r);
      && HasIndexInputs(out)
      && out["SITS_INDEX"] == Num(Mean5(out))
  {
    var c := Clipped(r);
    assert Mean5(c) == Mean5(IndicatorRow(r));
  }

  /** The raw ratios of the zero-replaced row, read off the input row. */
  lemma RawRatiosFromInput(r: Row)
    requires Computable(r)
    ensures Divisible(ZeroToOne(r))
    ensures var z := ZeroToOne(r);
      var pob := Divisor(r, "POBTOT");
      var viv := Divisor(r, "TVIVPARHAB");
      var p15 := Divisor(r, "P_15YMAS");
      && Edu(z) == (G(r, "P15YM_AN") + G(r, "P15YM_SE")) / p15
      && Salud(z) == 1.0 - G(r, "PDER_SS") / pob
      && Viv(z) == G(r, "VPH_PISOTI") / viv
      && Serv(z) == (G(r, "VPH_AGUAFV") + G(r, "VPH_NODREN") + G(r, "VPH_S_ELEC")) / 3.0 / viv
      && Alim(z) == 1.0 - G(r, "VPH_REFRI") / viv
      && Pobreza(z) == 1.0 - Assets(r) / (4.0 * viv)
  {
    PersonRawRatios(r);
    DwellingRawRatios(r);
  }

  /** The education, health and housing raw ratios, read off the input row. */
  lemma PersonRawRatios(r: Row)
    requires Computable(r)
    ensures Divisible(ZeroToOne(r))
    ensures var z := ZeroToOne(r);
      && Edu(z) == (G(r, "P15YM_AN") + G(r, "P15YM_SE")) / Divisor(r, "P_15YMAS")
      && Salud(z) == 1.0 - G(r, "PDER_SS") / Divisor(r, "POBTOT")
      && Viv(z) == G(r, "VPH_PISOTI") / Divisor(r, "TVIVPARHAB")
  {
    ZeroToOneDivisible(r);
    var z := ZeroToOne(r);
    assert z["POBTOT"].val == Divisor(r, "POBTOT");
    assert z["TVIVPARHAB"].val == Divisor(r, "TVIVPARHAB");
    assert z["P_15YMAS"].val == Divisor(r, "P_15YMAS");
  }

  /** The services, food and assets raw ratios, read off the input row. */
  lemma DwellingRawRatios(r: Row)
    requires Computable(r)
    ensures Divisible(ZeroToOne(r))
    ensures var z := ZeroToOne(r);
      var viv := Divisor(r, "TVIVPARHAB");
      && Serv(z) == (G(r, "VPH_AGUAFV") + G(r, "VPH_NODREN") + G(r, "VPH_S_ELEC")) / 3.0 / viv
      && Alim(z) == 1.0 - G(r, "VPH_REFRI") / viv
      && Pobreza(z) == 1.0 - Assets(r) / (4.0 * viv)
  {
    ZeroToOneDivisible(r);
    var z := ZeroToOne(r);
    assert z["TVIVPARHAB"].val == Divisor(r, "TVIVPARHAB");
  }

  /**
   * Zero denominators: each of POBTOT, TVIVPARHAB and P_15YMAS holds 1
   * where it held 0 and is otherwise unchanged, so none of the divisions
   * has a zero divisor.
   */
  lemma ZeroDenominatorsBecomeOne(r: Row)
    requires Computable(r)
    ensures IndicatorRow(r)["POBTOT"] == Num(Divisor(r, "POBTOT"))
    ensures IndicatorRow(r)["TVIVPARHAB"] == Num(Divisor(r, "TVIVPARHAB"))
    ensures IndicatorRow(r)["P_15YMAS"] == Num(Divisor(r, "P_15YMAS"))
  {
    DenominatorsNotOutputs();
    ZeroToOneDivisible(r);
    IndicatorRowPassThrough(r, "POBTOT");
    IndicatorRowPassThrough(r, "TVIVPARHAB");
    IndicatorRowPassThrough(r, "P_15YMAS");
  }

  lemma DenominatorsNotOutputs()
    ensures "POBTOT" !in OUTPUTS && "TVIVPARHAB" !in OUTPUTS && "P_15YMAS" !in OUTPUTS
  {
  }

  /** One column outside the engine's outputs holds its zero-replaced value. */
  lemma IndicatorRowPassThrough(r: Row, k: string)
    requires Computable(r) && k in r && k !in OUTPUTS
    ensures k in IndicatorRow(r) && IndicatorRow(r)[k] == ZeroToOne(r)[k]
  {
    IndicatorRowKeys(r);
  }

  /**
   * Each ratio is its formula over the input row, with `g` reading an
   * absent column as 0, with a zero denominator read as 1, and clipped to
   * [0,1]; the index is the mean of the first five clipped ratios, the
   * poverty ratio left out.
   */
  lemma IndicatorValues(r: Row)
    requires Computable(r)
    ensures var out := IndicatorRow(r);
      var pob := Divisor(r, "POBTOT");
      var viv := Divisor(r, "TVIVPARHAB");
      var p15 := Divisor(r, "P_15YMAS");
      && out["CAR_EDU_20"] == Num(Clip((G(r, "P15YM_AN") + G(r, "P15YM_SE")) / p15))
      && out["CAR_SALUD_20"] == Num(Clip(1.0 - G(r, "PDER_SS") / pob))
      && out["CAR_VIV_20"] == Num(Clip(G(r, "VPH_PISOTI") / viv))
      && out["CAR_SERV_20"] == Num(Clip((G(r, "VPH_AGUAFV") + G(r, "VPH_NODREN") + G(r, "VPH_S_ELEC")) / 3.0 / viv))
      && out["CAR_ALIM_20"] == Num(Clip(1.0 - G(r, "VPH_REFRI") / viv))
      && out["CAR_POBREZA_20"] == Num(Clip(1.0 - Assets(r) / (4.0 * viv)))
      && out["SITS_INDEX"] == Num((out["CAR_EDU_20"].val + out["CAR_SALUD_20"].val + out["CAR_VIV_20"].val +
                                   out["CAR_SERV_20"].val + out["CAR_ALIM_20"].val) / 5.0)
  {
    RatioValues(r);
    IndicatorRowIndex(r);
  }

  /** The six ratio columns of the output, as formulas over the input counts. */
  lemma RatioValues(r: Row)
    requires Computable(r)
    ensures var out := IndicatorRow(r);
      var pob := Divisor(r, "POBTOT");
      var viv := Divisor(r, "TVIVPARHAB");
      var p15 := Divisor(r, "P_15YMAS");
      && out["CAR_EDU_20"] == Num(Clip((G(r, "P15YM_AN") + G(r, "P15YM_SE")) / p15))
      && out["CAR_SALUD_20"] == Num(Clip(1.0 - G(r, "PDER_SS") / pob))
      && out["CAR_VIV_20"] == Num(Clip(G(r, "VPH_PISOTI") / viv))
      && out["CAR_SERV_20"] == Num(Clip((G(r, "VPH_AGUAFV") + G(r, "VPH_NODREN") + G(r, "VPH_S_ELEC")) / 3.0 / viv))
      && out["CAR_ALIM_20"] == Num(Clip(1.0 - G(r, "VPH_REFRI") / viv))
      && out["CAR_POBREZA_20"] == Num(Clip(1.0 - Assets(r) / (4.0 * viv)))
  {
    PersonRatioValues(r);
    DwellingRatioValues(r);
  }

  /** The education, health and housing ratios. */
  lemma PersonRatioValues(r: Row)
    requires Computable(r)
    ensures var out := IndicatorRow(r);
      && out["CAR_EDU_20"] == Num(Clip((G(r, "P15YM_AN") + G(r, "P15YM_SE")) / Divisor(r, "P_15YMAS")))
      && out["CAR_SALUD_20"] == Num(Clip(1.0 - G(r, "PDER_SS") / Divisor(r, "POBTOT")))
      && out["CAR_VIV_20"] == Num(Clip(G(r, "VPH_PISOTI") / Divisor(r, "TVIVPARHAB")))
  {
    ZeroToOneDivisible(r);
    WithRawRatiosFacts(ZeroToOne(r));
    PersonRawRatios(r);
    IndicatorRowRatio(r, "CAR_EDU_20");
    IndicatorRowRatio(r, "CAR_SALUD_20");
    IndicatorRowRatio(r, "CAR_VIV_20");
  }

  /** The services, food and assets ratios. */
  lemma DwellingRatioValues(r: Row)
    requires Computable(r)
    ensures var out := IndicatorRow(r);
      var viv := Divisor(r, "TVIVPARHAB");
      && out["CAR_SERV_20"] == Num(Clip((G(r, "VPH_AGUAFV") + G(r, "VPH_NODREN") + G(r, "VPH_S_ELEC")) / 3.0 / viv))
      && out["CAR_ALIM_20"] == Num(Clip(1.0 - G(r, "VPH_REFRI") / viv))
      && out["CAR_POBREZA_20"] == Num(Clip(1.0 - Assets(r) / (4.0 * viv)))
  {
    ZeroToOneDivisible(r);
    WithRawRatiosFacts(ZeroToOne(r));
    DwellingRawRatios(r);
    IndicatorRowRatio(r, "CAR_SERV_20");
    IndicatorRowRatio(r, "CAR_ALIM_20");
    IndicatorRowRatio(r, "CAR_POBREZA_20");
  }

  /** Every ratio and the index lie in [0,1], whatever the counts. */
  lemma IndicatorsInUnitRange(r: Row)
    requires Computable(r)
    ensures forall c :: c in OUTPUTS ==>
              c in IndicatorRow(r) && IndicatorRow(r)[c].Num? && 0.0 <= IndicatorRow(r)[c].val <= 1.0
  {
    IndicatorRowKeys(r);
    forall c | c in RATIOS
      ensures IndicatorRow(r)[c].Num? && 0.0 <= IndicatorRow(r)[c].val <= 1.0
    {
      IndicatorRowRatio(r, c);
    }
    IndicatorRowIndex(r);
    var out := IndicatorRow(r);
    assert forall j :: 0 <= j < 5 ==> out[RATIOS[j]].Num? && 0.0 <= out[RATIOS[j]].val <= 1.0;
    assert 0.0 <= Mean5(out) <= 1.0;
  }

  /**
   * The engine adds exactly its seven columns; apart from the zero-to-one
   * replacement on the denominators, every other column is unchanged.
   */
  lemma OtherColumnsUnchanged(r: Row)
    requires Computable(r)
    ensures IndicatorRow(r).Keys == r.Keys + OUTPUTS
    ensures forall k :: k in r && k !in OUTPUTS && k !in DENOMINATORS ==> IndicatorRow(r)[k] == r[k]
  {
    IndicatorRowKeys(r);
    ZeroToOneDivisible(r);
  }

  /** A column that holds numbers before the engine runs still holds numbers after it. */
  lemma NumericColumnsStayNumeric(r: Row)
    requires Computable(r)
    ensures forall k :: k in r && r[k].Num? ==> k in IndicatorRow(r) && IndicatorRow(r)[k].Num?
  {
    IndicatorRowKeys(r);
    ZeroToOneDivisible(r);
    IndicatorsInUnitRange(r);
  }

  /** The same, for one column that is not among the engine's outputs, whether present or not. */
  lemma NumericIfPresentKept(r: Row, k: string)
    requires Computable(r) && NumericIfPresent(r, k) && k !in OUTPUTS
    ensures NumericIfPresent(IndicatorRow(r), k)
  {
    IndicatorRowKeys(r);
    NumericColumnsStayNumeric(r);
  }

  /** The engine's output columns: the input's, plus its seven. */
  lemma IndicatorRowColumns(r: Row)
    requires Computable(r)
    ensures IndicatorRow(r).Keys == r.Keys + OUTPUTS
  {
    IndicatorRowKeys(r);
  }

  /** One column that is neither an output nor a denominator passes through unchanged. */
  lemma IndicatorRowKeeps(r: Row, k: string)
    requires Computable(r) && k in r && k !in OUTPUTS
    requires k != "POBTOT" && k != "TVIVPARHAB" && k != "P_15YMAS"
    ensures k in IndicatorRow(r) && IndicatorRow(r)[k] == r[k]
  {
    IndicatorRowKeys(r);
    ZeroToOneDivisible(r);
  }

  /** An absent VPH_REFRI counts as 0 through `g`, so food-access deprivation is 1. */
  lemma AbsentRefrigeratorFood(r: Row)
    requires Computable(r) && "VPH_REFRI" !in r
    ensures IndicatorRow(r)["CAR_ALIM_20"] == Num(1.0)
  {
    ZeroToOneDivisible(r);
    var z := ZeroToOne(r);
    WithRawRatiosFacts(z);
    assert G(z, "VPH_REFRI") == 0.0;
    assert Alim(z) == 1.0;
    IndicatorRowRatio(r, "CAR_ALIM_20");
  }

  /** An absent VPH_REFRI drops out of the asset sum of the poverty proxy. */
  lemma AbsentRefrigeratorAssets(r: Row)
    requires Computable(r) && "VPH_REFRI" !in r
    ensures IndicatorRow(r)["CAR_POBREZA_20"] ==
              Num(Clip(1.0 - (G(r, "VPH_LAVAD") + G(r, "VPH_AUTOM") + G(r, "VPH_PC")) /
                             (4.0 * Divisor(r, "TVIVPARHAB"))))
  {
    var viv := Divisor(r, "TVIVPARHAB");
    var rest := G(r, "VPH_LAVAD") + G(r, "VPH_AUTOM") + G(r, "VPH_PC");
    assert Assets(r) == rest;
    RawRatiosFromInput(r);
    var z := ZeroToOne(r);
    assert Pobreza(z) == 1.0 - rest / (4.0 * viv);
    WithRawRatiosFacts(z);
    IndicatorRowRatio(r, "CAR_POBREZA_20");
  }

  /**
   * 150 dwellings with a refrigerator out of 100 gives a raw food ratio of
   * -0.5, which clipping turns into 0.
   */
  lemma MoreRefrigeratorsThanDwellings(r: Row)
    requires Computable(r)
    requires "VPH_REFRI" in r && r["VPH_REFRI"] == Num(150.0) && r["TVIVPARHAB"] == Num(100.0)
    ensures IndicatorRow(r)["CAR_ALIM_20"] == Num(0.0)
  {
    ZeroToOneDivisible(r);
    WithRawRatiosFacts(ZeroToOne(r));
    RawRatiosFromInput(r);
    IndicatorRowRatio(r, "CAR_ALIM_20");
  }

  /** Clipping a prefix of the column list, one column at a time. */
  lemma ClipColumnsStep(r: Row, cols: seq<string>, n: nat)
    requires n < |cols| && cols[n] in r
    requires ClipColumns(r, cols[..n])[cols[n]].Num?
    ensures var prev := ClipColumns(r, cols[..n]);
            ClipColumns(r, cols[..n + 1]) == prev[cols[n] := Num(Clip(prev[cols[n]].val))]
  {
    var prev := ClipColumns(r, cols[..n]);
    var next := ClipColumns(r, cols[..n + 1]);
    assert cols[..n + 1] == cols[..n] + [cols[n]];
    var stepped := prev[cols[n] := Num(Clip(prev[cols[n]].val))];
    forall k | k in next ensures stepped[k] == next[k] {
    }
    assert next == stepped;
  }

  /** Step 1 in place: `replace(0, 1)` on each denominator column present. */
  method ReplaceZeroDenominators(df: Frame)
    requires df.Valid()
    modifies df
    ensures df.Valid() && df.columns == old(df.columns)
    ensures |df.rows| == |old(df.rows)|
    ensures forall i :: 0 <= i < |df.rows| ==> df.rows[i] == ZeroToOne(old(df.rows)[i])
  {
    ghost var rs0: seq<Row> := df.rows;
    var n := 0;
    while n < |DENOMINATORS|
      invariant 0 <= n <= |DENOMINATORS|
      invariant df.Valid() && df.columns == old(df.columns) && |df.rows| == |rs0|
      invariant forall i :: 0 <= i < |rs0| ==> df.rows[i] == ReplaceZeros(rs0[i], DENOMINATORS[..n])
    {
      assert DENOMINATORS[..n + 1][..n] == DENOMINATORS[..n];
      if DENOMINATORS[n] in df.columns {
        df.ReplaceZero(DENOMINATORS[n]);
      }
      n := n + 1;
    }
    forall i | 0 <= i < |rs0| ensures df.rows[i] == ZeroToOne(rs0[i]) {
      assert DENOMINATORS[..n] == DENOMINATORS;
      DenominatorsInOrder(rs0[i]);
    }
  }

  /** Step 2 in place: the six ratio columns, assigned one after the other. */
  method AddRawRatios(df: Frame)
    requires df.Valid()
    requires forall i :: 0 <= i < |df.rows| ==> Divisible(df.rows[i])
    modifies df
    ensures df.Valid() && df.columns == old(df.columns) + (OUTPUTS - {"SITS_INDEX"})
    ensures |df.rows| == |old(df.rows)|
    ensures forall i :: 0 <= i < |df.rows| ==> df.rows[i] == WithRawRatios(old(df.rows)[i])
  {
    // Each right-hand side reads only count columns, which these
    // assignments leave alone, so all six are read from the rows as they
    // stand before the first assignment.
    var z := df.rows;
    df.Assign("CAR_EDU_20", seq(|z|, i requires 0 <= i < |z| && Divisible(z[i]) => Num(Edu(z[i]))));
    df.Assign("CAR_SALUD_20", seq(|z|, i requires 0 <= i < |z| && Divisible(z[i]) => Num(Salud(z[i]))));
    df.Assign("CAR_VIV_20", seq(|z|, i requires 0 <= i < |z| && Divisible(z[i]) => Num(Viv(z[i]))));
    df.Assign("CAR_SERV_20", seq(|z|, i requires 0 <= i < |z| && Divisible(z[i]) => Num(Serv(z[i]))));
    df.Assign("CAR_ALIM_20", seq(|z|, i requires 0 <= i < |z| && Divisible(z[i]) => Num(Alim(z[i]))));
    df.Assign("CAR_POBREZA_20", seq(|z|, i requires 0 <= i < |z| && Divisible(z[i]) => Num(Pobreza(z[i]))));
  }

  /** Step 3 in place: `clip(0, 1)` on each ratio column, in list order. */
  method ClipRatios(df: Frame)
    requires df.Valid() && forall c :: c in RATIOS ==> c in df.columns
    requires forall i, c :: 0 <= i < |df.rows| && c in RATIOS ==> df.rows[i][c].Num?
    modifies df
    ensures df.Valid() && df.columns == old(df.columns)
    ensures |df.rows| == |old(df.rows)|
    ensures forall i :: 0 <= i < |df.rows| ==> df.rows[i] == ClipColumns(old(df.rows)[i], RATIOS)
  {
    ghost var raw: seq<Row> := df.rows;
    var n := 0;
    while n < |RATIOS|
      invariant 0 <= n <= |RATIOS|
      invariant df.Valid() && df.columns == old(df.columns)
      invariant |df.rows| == |raw|
      invariant forall i :: 0 <= i < |raw| ==> df.rows[i] == ClipColumns(raw[i], RATIOS[..n])
    {
      forall i | 0 <= i < |raw|
        ensures df.rows[i][RATIOS[n]].Num?
      {
        assert RATIOS[n] in RATIOS && RATIOS[n] !in RATIOS[..n];
        assert raw[i][RATIOS[n]].Num?;
        ClipColumnsFacts(raw[i], RATIOS[..n]);
      }
      df.ClipColumn(RATIOS[n]);
      forall i | 0 <= i < |raw|
        ensures df.rows[i] == ClipColumns(raw[i], RATIOS[..n + 1])
      {
        ClipColumnsStep(raw[i], RATIOS, n);
      }
      n := n + 1;
    }
    assert RATIOS[..n] == RATIOS;
  }

  /** Step 4 in place: the index column, the mean of the first five ratio columns. */
  method AddIndex(df: Frame)
    requires df.Valid() && forall i :: 0 <= i < |df.rows| ==> HasIndexInputs(df.rows[i])
    modifies df
    ensures df.Valid() && df.columns == old(df.columns) + {"SITS_INDEX"}
    ensures |df.rows| == |old(df.rows)|
    ensures forall i :: 0 <= i < |df.rows| ==>
              df.rows[i] == old(df.rows)[i]["SITS_INDEX" := Num(Mean5(old(df.rows)[i]))]
  {
    var cur := df.rows;
    df.Assign("SITS_INDEX", seq(|cur|, i requires 0 <= i < |cur| && HasIndexInputs(cur[i]) => Num(Mean5(cur[i]))));
  }

  /**
   * `procesar_indicadores(df)`, in place: replace zero denominators, add
   * the six ratios one after the other, clip them, add the index.
   */
  method ProcessIndicators(df: Frame)
    requires df.Valid()
    requires "POBTOT" in df.columns && "TVIVPARHAB" in df.columns && "P_15YMAS" in df.columns
    requires forall i :: 0 <= i < |df.rows| ==> Computable(df.rows[i])
    modifies df
    ensures df.Valid() && df.columns == old(df.columns) + OUTPUTS
    ensures |df.rows| == |old(df.rows)|
    ensures forall i :: 0 <= i < |df.rows| ==> df.rows[i] == IndicatorRow(old(df.rows)[i])
  {
    ghost var rs0: seq<Row> := df.rows;
    ReplaceZeroDenominators(df);
    forall i | 0 <= i < |rs0| ensures Divisible(df.rows[i]) {
      ZeroToOneDivisible(rs0[i]);
    }
    ghost var zs: seq<Row> := df.rows;
    AddRawRatios(df);
    ghost var raw: seq<Row> := df.rows;
    forall i: int, c: string | 0 <= i < |raw| && c in RATIOS ensures raw[i][c].Num? {
      RawRatioPresent(zs[i], c);
    }
    OutputColumns();
    ClipRatios(df);
    forall i | 0 <= i < |rs0| ensures df.rows[i] == Clipped(rs0[i]) {
      ZeroToOneDivisible(rs0[i]);
    }
    AddIndex(df);
  }

  /** The ratio columns are the outputs other than the index. */
  lemma OutputColumns()
    ensures forall c :: c in RATIOS ==> c in OUTPUTS - {"SITS_INDEX"}
    ensures (OUTPUTS - {"SITS_INDEX"}) + {"SITS_INDEX"} == OUTPUTS
  {
    forall c | c in RATIOS ensures c in OUTPUTS - {"SITS_INDEX"} {
      RatioCases(c);
    }
  }
}
