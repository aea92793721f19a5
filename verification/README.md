# SITS data generation, modelled in Dafny

SITS builds map layers for one target municipality from INEGI census tables and geometry layers. It does this with `generar_datos_final.py`. This project models the data-processing core of that script and proves what the script promises about its output.

- **Cleaning.** `limpiar` coerces every census count column that is present to a number. Text that does not parse becomes 0. Three legacy column names of older census releases are renamed to their canonical names first.
- **Indicators.** `procesar_indicadores` first replaces a zero in each of the three denominators (`POBTOT`, `TVIVPARHAB`, `P_15YMAS`) by 1. It then computes six deprivation ratios and clips each to [0, 1]. `SITS_INDEX` is the mean of the first five ratios. Absent input columns count as 0 (the helper `g`).
- **One geographic layer.** `procesar_geo` works on the urban block layer or the rural locality layer.
  - It keeps the target municipality's rows: an exact code and a real block for urban tables, a code suffix for rural tables.
  - It detects the municipality name from the first surviving row, or `Desconocido`.
  - It builds the geocode `CVEGEO` by concatenation, with no separator.
  - It cleans the table, computes the indicators and inner-joins the result with the geometry layer on `CVEGEO`.
  - It stamps `TIPO` and `NOM_MUN_OFICIAL` on every row.
  - It copies nine census counts into the base-year columns `P20_*` (the helper `safe`). An absent count gives 0.
  - It adds a `P25_*` column at 1.05 times each base-year column.
- **Electoral layer.** The vote table is summed per section. The section polygons are joined with the sums on the section number. `GANADOR` is the first of morena, pan, pri, mc with the largest total, as pandas `idxmax` picks it.

The code changes its tables in place. The model follows that shape:
- `Frames.Frame` is a class whose `columns` and `rows` the column operations reassign. A row is a map from column name to cell.
- Each step of the script is a method, specified against a per-row function.
- The whole-layer method `GeoLayer.ProcessGeo` ensures that its result is exactly `GeoLayer.Layer`, a function of the inputs.
- The lemmas of `LayerProperties` then state what every output row of `Layer` carries.

The models are in these files:
- `frames.dfy`: the table and its column operations.
- `cleaning.dfy`: `limpiar` and the alias renames.
- `indicators.dfy`: `procesar_indicadores`.
- `join.dfy`: the inner join on `CVEGEO`.
- `projection.dfy`: the `P20_*` and `P25_*` columns.
- `geolayer.dfy`: `procesar_geo`.
- `layer_properties.dfy`: properties of the output rows.
- `electoral.dfy`: the electoral layer.

Zero populations need care. The script replaces a zero `POBTOT` by 1 in place, before `P20_TOT` copies it. So a unit whose census total is 0 reports a base-year population of 1 and a projected population of 1.05. The model keeps this behaviour and proves it: `LayerProperties.ZeroPopulationReportsOne`.

The code concatenates the five parts with no separator, so `GeoLayer.UrbanGeocodeExample` proves `"3003200010123004"`.

## Model

| member | source | states |
|---|---|---|
| Frames.ToNumber | generar_datos_final.py:30 | a number stays itself; text that parses becomes its value; text that does not parse becomes 0 (`to_numeric(errors='coerce').fillna(0)`) |
| Frames.OneIfZero | generar_datos_final.py:46 | a numeric 0 becomes 1; every other cell is unchanged; a numeric result is never 0 |
| Frames.Clip | generar_datos_final.py:60 | the result lies in [0,1]; a value inside is unchanged; below 0 gives 0; above 1 gives 1 |
| Frames.RenameKey | generar_datos_final.py:89-91 | the renamed row has the new name instead of the old one, holding the old value; every other column is unchanged |
| Frames.Masked | generar_datos_final.py:77 | boolean indexing keeps exactly the flagged rows, and its first row is the first flagged one |
| Frames.Flagged | generar_datos_final.py:77 | the flagged positions, each flagged and in range, strictly increasing, and every flagged position among them |
| Frames.MaskedOrder | generar_datos_final.py:77 | `Masked`, in order and with multiplicity: as many rows as flags set, the k-th row being the row at the k-th flagged position |
| Frames.Frame.constructor | generar_datos_final.py:70 | a table with the given columns and rows |
| Frames.Frame.Assign | generar_datos_final.py:80 | `df[c] = values`: the column is added or replaced row by row and the column set grows by `c` |
| Frames.Frame.Rename | generar_datos_final.py:89 | in-place rename: every row is renamed and the column set swaps the names |
| Frames.Frame.ToNumeric | generar_datos_final.py:30 | each row's cell in the column becomes its `ToNumber` coercion; nothing else changes |
| Frames.Frame.ReplaceZero | generar_datos_final.py:46 | each row's cell in the column goes through `OneIfZero`; nothing else changes |
| Frames.Frame.ClipColumn | generar_datos_final.py:60 | each row's numeric cell in the column is clipped to [0,1]; nothing else changes |
| Frames.Frame.Mask | generar_datos_final.py:77 | the rows become the masked rows; the columns are kept |
| Cleaning.RenamedFacts | generar_datos_final.py:89-91 | `Renamed`: after the renames no legacy name remains; each canonical column holds the legacy values when the legacy column was present; every other column is untouched |
| Cleaning.RenameAliases | generar_datos_final.py:89-91 | the three conditional in-place renames turn every row into its `Renamed` form and the columns into `RenamedColumns` |
| Cleaning.CleanRowFacts | generar_datos_final.py:27-31 | `CleanRow`: cleaning keeps the columns; a listed column that is present becomes numeric with its parsed value, or 0 when unparseable; unlisted columns are unchanged |
| Cleaning.EmptyFieldBecomesZero | generar_datos_final.py:30 | with a parser that reads the empty text as no number, an empty field of a listed column becomes 0 |
| Cleaning.CleanRowIdempotent | generar_datos_final.py:27-31 | cleaning a cleaned row changes nothing |
| Cleaning.CleanRowStep | generar_datos_final.py:28-30 | one more loop iteration coerces exactly the next listed column, if present |
| Cleaning.Clean | generar_datos_final.py:27-31 | the loop over `VARS_CENSO` leaves every row equal to `CleanRow` of the original row, with the same columns |
| Indicators.G | generar_datos_final.py:48 | `g(col)` is the column's value when present and 0 when absent |
| Indicators.Divisor | generar_datos_final.py:45-46 | a denominator after `replace(0, 1)` is never 0; a nonzero count is kept; 0 becomes 1 |
| Indicators.ZeroToOneDivisible | generar_datos_final.py:45-46 | `ZeroToOne`: after the replacement the three denominators are numeric and nonzero; every other column is unchanged |
| Indicators.DenominatorsInOrder | generar_datos_final.py:45-46 | replacing zeros in `POBTOT`, `TVIVPARHAB`, `P_15YMAS` one after the other, each only when present, gives `ZeroToOne` |
| Indicators.RawRatiosFromInput | generar_datos_final.py:50-57 | `Edu`, `Salud`, `Viv`, `Serv`, `Alim`, `Pobreza`: each of the six raw ratios is its formula over the input counts, with absent counts as 0 and zero denominators as 1 |
| Indicators.IndicatorValues | generar_datos_final.py:44-63 | `IndicatorRow`: each output ratio is its clipped formula over the input counts, and `SITS_INDEX` is the mean of the first five clipped ratios |
| Indicators.IndicatorsInUnitRange | generar_datos_final.py:59-62 | all six ratios and `SITS_INDEX` are numbers in [0,1] |
| Indicators.IndicatorRowIndex | generar_datos_final.py:62 | `Mean5`: `SITS_INDEX` is the mean of the five clipped ratios `CAR_EDU_20` through `CAR_ALIM_20` |
| Indicators.OtherColumnsUnchanged | generar_datos_final.py:44-63 | the indicators add exactly the seven output columns; every column that is not a denominator or an output keeps its value |
| Indicators.ZeroDenominatorsBecomeOne | generar_datos_final.py:45-46 | after the indicators each of the three denominators holds its count, or 1 where the count was 0 |
| Indicators.AbsentRefrigeratorFood | generar_datos_final.py:54 | with no `VPH_REFRI` column, `CAR_ALIM_20` is 1 |
| Indicators.AbsentRefrigeratorAssets | generar_datos_final.py:56-57 | with no `VPH_REFRI` column, `CAR_POBREZA_20` counts only the other three assets |
| Indicators.MoreRefrigeratorsThanDwellings | generar_datos_final.py:54-60 | 150 refrigerators in 100 dwellings give `CAR_ALIM_20` = 0 after clipping, not a negative value |
| Indicators.ReplaceZeroDenominators | generar_datos_final.py:45-46 | the in-place loop over the three denominators turns every row into `ZeroToOne` of it |
| Indicators.AddRawRatios | generar_datos_final.py:50-57 | the six column assignments add the six raw ratios to every row |
| Indicators.ClipRatios | generar_datos_final.py:59-60 | the in-place clipping loop clips the six ratio columns of every row |
| Indicators.AddIndex | generar_datos_final.py:62 | every row gains `SITS_INDEX` = the mean of its first five ratios |
| Indicators.ProcessIndicators | generar_datos_final.py:44-63 | `procesar_indicadores` turns every row into `IndicatorRow` of it and adds the seven output columns |
| Join.InnerJoin | generar_datos_final.py:97 | every joined row is a feature plus a table row of the same geocode, and every such pair gives a joined row |
| Join.Matches | generar_datos_final.py:97 | the rows one feature contributes are exactly the table rows of its geocode with its polygon added, and there are no more of them than table rows |
| Join.JoinColumns | generar_datos_final.py:97 | every joined row has the table's columns plus `geometry` |
| Join.JoinKeys | generar_datos_final.py:97 | the geocodes of the join are exactly those present on both sides |
| Join.MatchesAtMostOne | generar_datos_final.py:97 | with distinct geocodes in the table, a feature matches at most one row |
| Join.JoinKeysDistinct | generar_datos_final.py:97 | with distinct geocodes on both sides, the joined rows carry distinct geocodes of the layer |
| Join.JoinSizeUnique | generar_datos_final.py:97 | with distinct geocodes on both sides, the join is no larger than either input |
| Projection.Safe | generar_datos_final.py:102 | `safe(col)` is the column's cell when present and the number 0 when absent |
| Projection.P20Values | generar_datos_final.py:104-112 | `WithP20`: each of the nine base-year columns equals its census column, or 0 when that column is absent |
| Projection.P20OthersUnchanged | generar_datos_final.py:104-112 | the nine assignments change no other column |
| Projection.AssignP20 | generar_datos_final.py:104-112 | the nine in-place assignments turn every row into `WithP20` of it and add the nine columns |
| Projection.NamesRoundTrip | generar_datos_final.py:116 | `P25Name`: the `P25_` name of a `P20_` column is not a `P20_` name, and swapping the prefix back gives the original name |
| Projection.P25Values | generar_datos_final.py:114-116 | `WithP25`: for every `P20_*` column there is a `P25_*` column equal to it times 1.05; base-year columns and other columns are unchanged; exactly the projected names are added |
| Projection.ProjectionClosed | generar_datos_final.py:114-116 | after the loop every `P20_*` column has its `P25_*` partner at 1.05 times it, and every new column is the projection of a `P20_*` column |
| Projection.ProjectP25 | generar_datos_final.py:114-116 | the loop over the `P20_*` columns, fixed before it starts, turns every row into `WithP25` of it |
| GeoLayer.KeepMask | generar_datos_final.py:77 | `Keep`: the filter mask holds, row by row, the urban or rural keep test |
| GeoLayer.SurvivorsFilter | generar_datos_final.py:76-84 | `Survivors`: a surviving urban row has the target code and is not a `000` block; a surviving rural row's code ends with the target; every row that passes survives |
| GeoLayer.RuralSuffixExamples | generar_datos_final.py:82 | the rural filter is a suffix test: `0032` and `032` match `032`, while `132` and `32` do not |
| GeoLayer.DetectNameFirstMatch | generar_datos_final.py:79 | `DetectName`: the detected name is the `NOM_MUN` of the first row that passes the filter, or `Desconocido` when none does; only the rows that pass need a `NOM_MUN` column |
| GeoLayer.UrbanGeocodeParts | generar_datos_final.py:80 | `UrbanGeocode` and `Geocode` of an urban row: with the census widths an urban geocode has 16 characters and each part sits at its offset |
| GeoLayer.UrbanGeocodeInjective | generar_datos_final.py:80 | with the census widths distinct urban keys give distinct geocodes |
| GeoLayer.RuralGeocodeParts | generar_datos_final.py:84 | `RuralGeocode` and `Geocode` of a rural row: with the census widths a rural geocode has 9 characters and each part sits at its offset |
| GeoLayer.RuralGeocodeInjective | generar_datos_final.py:84 | with the census widths distinct rural keys give distinct geocodes |
| GeoLayer.UrbanGeocodeExample | generar_datos_final.py:80 | state 30, municipality 032, locality 0001, AGEB 0123 and block 004 give `3003200010123004` |
| GeoLayer.AssignGeocode | generar_datos_final.py:80 | every row gains `CVEGEO` built from its own key columns |
| GeoLayer.FilterCensus | generar_datos_final.py:76-83 | the filtered table holds exactly the surviving rows, and the detected name is `LayerName` |
| GeoLayer.CleanCensus | generar_datos_final.py:80-93 | geocode, renames and cleaning turn every row into `CleanedRow` of it |
| GeoLayer.PrepareCensus | generar_datos_final.py:76-94 | the census table before the merge is exactly `Prepared`, and the detected name is `LayerName` |
| GeoLayer.StampAndCopy | generar_datos_final.py:98-112 | every joined row is stamped with `TIPO` and `NOM_MUN_OFICIAL` and gains the nine base-year columns |
| GeoLayer.ProcessGeo | generar_datos_final.py:66-118 | `Layer` is what the method computes: the output of `procesar_geo` is exactly `Layer` of its inputs, with the columns `LayerColumns` |
| LayerProperties.FinishedType | generar_datos_final.py:98 | every output row carries `TIPO` = the layer type |
| LayerProperties.FinishedName | generar_datos_final.py:99 | every output row carries `NOM_MUN_OFICIAL` = the detected name |
| LayerProperties.FinishedBaseTotal | generar_datos_final.py:104 | `P20_TOT` is the joined row's `POBTOT`, or 0 when the column is absent |
| LayerProperties.FinishedProjectedTotal | generar_datos_final.py:116 | `P25_TOT` is 1.05 times `P20_TOT` |
| LayerProperties.ProjectionExample | generar_datos_final.py:116 | a base-year total of 100 is projected to 105 |
| LayerProperties.UnitPopulation | generar_datos_final.py:93-116 | a unit's `P20_TOT` is its census `POBTOT` as cleaned, or 1 when that is 0, and its `P25_TOT` is 1.05 times that |
| LayerProperties.ZeroPopulationReportsOne | generar_datos_final.py:104 | a unit whose census `POBTOT` is 0 reports `P20_TOT` = 1 and `P25_TOT` = 1.05 |
| LayerProperties.UnitGeocode | generar_datos_final.py:97 | a unit keeps its census geocode, which equals its feature's when they were joined, and carries its feature's polygon |
| LayerProperties.UnitIndicator | generar_datos_final.py:94-97 | each indicator of a unit is the prepared row's value, a number in [0,1] |
| LayerProperties.LayerRows | generar_datos_final.py:97-116 | `Layer`: the output rows are the joined rows, each stamped and projected, in join order |
| LayerProperties.LayerRowOrigin | generar_datos_final.py:97 | every output row is the unit of a layer feature and a surviving census row of the same geocode |
| LayerProperties.LayerComplete | generar_datos_final.py:97 | every layer feature and surviving census row of the same geocode give an output row |
| LayerProperties.LayerRowStamps | generar_datos_final.py:98-99 | every output row carries the layer type and the detected municipality name |
| LayerProperties.FinishedProjection | generar_datos_final.py:114-116 | in a finished row every `P20_*` column is a number with its `P25_*` partner at 1.05 times it |
| LayerProperties.LayerRowProjection | generar_datos_final.py:114-116 | in every output row every `P20_*` column has its `P25_*` partner at 1.05 times it |
| LayerProperties.LayerRowGeocode | generar_datos_final.py:97 | every output row has the geocode and polygon of a layer feature, and that geocode is a surviving census row's geocode |
| LayerProperties.LayerRowPopulation | generar_datos_final.py:104 | every output row's `P20_TOT` is the `POBTOT` of the surviving census row whose geocode the row carries, or 1 when that count is 0 |
| LayerProperties.LayerRowIndicators | generar_datos_final.py:59-62 | every output row holds the six ratios and `SITS_INDEX` as numbers in [0,1] |
| Electoral.Add | generar_datos_final.py:157 | the sum of two vote tuples is the party-by-party sum |
| Electoral.TotalsAreSectionSums | generar_datos_final.py:157 | `Totals` against the reference `SectionTotal`: the grouped table has one entry per section of the vote table, and each is the sum of that section's rows |
| Electoral.SectionTotalAbsent | generar_datos_final.py:157 | a section with no rows sums to zero votes |
| Electoral.FirstMax | generar_datos_final.py:158 | the chosen position holds a largest value, and every earlier position holds a strictly smaller one |
| Electoral.FirstMaxUnique | generar_datos_final.py:158 | the first largest position is unique |
| Electoral.VoteList | generar_datos_final.py:158 | a section's totals in the column order morena, pan, pri, mc |
| Electoral.Rank | generar_datos_final.py:158 | a party's position in that column order |
| Electoral.WinnerIsFirstMaximum | generar_datos_final.py:158 | `Winner`: the winner has a largest total, and every party before it in column order has strictly fewer votes |
| Electoral.WinnerUnique | generar_datos_final.py:158 | any party with those two properties is the winner |
| Electoral.WinnerExamples | generar_datos_final.py:158 | (120, 80, 95, 10) gives morena; a 50/50 tie between morena and pan gives morena; (10, 30, 30, 5) gives pan; (0, 0, 0, 7) gives mc |
| Electoral.JoinSectionsRows | generar_datos_final.py:157 | `JoinSections`: the merge keeps exactly the polygons whose section has totals, each with those totals and its winner |
| Electoral.JoinSectionsMultiplicity | generar_datos_final.py:157 | `JoinSections`: a polygon occurs in the output as many times as in the layer when its section has totals, and not at all otherwise |
| Electoral.ElectoralLayerRows | generar_datos_final.py:155-158 | `ElectoralLayer`: every output row is a polygon whose section has votes, with the sum of that section's rows and the first party with the most votes; every such polygon is in the output as many times as in the layer, and no other polygon is |

## Left out

- The dashboard `app.py` is not part of this model. It is display code: Streamlit, folium and plotly.
- File reading and writing are left out: `read_file`, `read_csv`, `to_file` and `makedirs`. So is the early `None` return when a file cannot be read (lines 68-73). The tables are inputs of the model.
- The progress printing is left out.
- The driver lines 121-137 are left out. They call `procesar_geo` once per layer and add display columns:
  - urban `NOM_LOC` is the detected name followed by `" (Cabecera)"` (lines 124-125);
  - urban `CVE_AGEB` and `CVE_MZA` come from the merge-suffixed `AGEB_y` and `MZA_y` when present, and otherwise from `AGEB` and `MZA`, with the defaults `'SN'` and `'000'` (lines 127-128);
  - rural `NOM_LOC` is the layer's `NOMGEO` (line 134), and rural `CVE_AGEB` is the constant `'RURAL'` (line 135).
- Reprojection with `to_crs` is left out. It is a foreign geodesy call, and polygons are carried through unchanged.
- The bounding-box cut of the electoral polygons (lines 151-153) is left out, because it needs polygon geometry. The model joins the whole section layer.
- The `astype(int)` conversions of the section numbers (lines 155-156) are left out. Section numbers are integers in the model, and vote counts are integers too (no NaN).
- The `try/except` around the electoral layer is left out. A failure there does not affect the census layers, which the model computes separately.
- Floating point is left out. Counts and ratios are exact reals, so rounding and infinities are not modelled. Neither is an `inf` that the number parser could produce.
- An empty CSV field is read as the text `""` rather than NaN. The model takes the number parser to read `""` as no number, and then cleaning turns the field into 0, as `fillna(0)` does (`Cleaning.EmptyFieldBecomesZero`). A parser that gives a value for `""` is not excluded by the other members.
- A missing value in a key or filter column is not modelled: key parts are always text. pandas behaves differently there. A NaN `MUN` makes the rural `str.endswith` mask (line 82) fail, and a NaN key part makes the row's `CVEGEO` NaN (lines 80 and 84).
- Number parsing is a parameter (`parse`) standing in for `pd.to_numeric`.
- Geometry-layer attributes other than `CVEGEO` and the polygon are left out. So are the `_x`/`_y` suffixes a merge gives to columns present on both sides.
- GeoLayer.ProcessGeo: requires what the code needs in order not to raise:
  - the key columns and the three denominators exist;
  - a legacy name and its canonical name are never both present, since pandas would then hold two columns of one name;
  - no `P20_*` column other than the nine the code writes is in the census table;
  - `NOM_MUN` exists whenever some row survives the filter.
- Projection.P25Name: swaps the `P20_` prefix for `P25_`. `str.replace` would replace every occurrence of `P20_`. Only the nine fixed names can occur here, and they contain it once.
- LayerProperties.LayerRowPopulation: does not restate the projected total. `LayerProperties.LayerRowProjection` states it for every base-year column of every output row.
