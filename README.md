# Well-test reduction core of burovichok-desktop

A Dafny model of the computational core of the burovichok-desktop well-test
workstation:

- the measurement calculator: pressure units, the hydrostatic reduction of
  bottom-hole readings to the datum (VDP), the split of a liquid rate into
  water and oil with the gas-oil ratio, survey (inclinometry) interpolation,
  and the report-header geometry;
- the flexible timestamp parser: spreadsheet serial dates and eight
  text layouts tried in order;
- the import rules that turn spreadsheet rows into Block 1, 2 and 3 records;
- the three in-memory stores that imports append to.

Files:

| file | module | models |
|---|---|---|
| wrappers.dfy | Wrappers | `Option` and `Result` |
| civil.dfy | Civil | Go `time.Time` in UTC as nanoseconds since 0001-01-01, proleptic Gregorian calendar |
| models.dfy | Models | the record shapes of internal/pkg/models (`*float64` "not computed" fields as `Option<real>`) |
| calc.dfy | Calc | internal/service/calc/service.go |
| convertor.dfy | Convertor | internal/pkg/service/convertor/service.go, and the identical copies `parseFlexibleTime`/`excelDateToTime` at internal/pkg/service/importer/service.go:169-208 |
| importer.dfy | Importer | the row loops of internal/pkg/service/importer/service.go |
| storage.dfy | InMemoryStorage | internal/storage/inmemory/storage.go |
| block_store.dfy | InMemoryBlockStore | internal/storage/inmemory/store.go |
| table_store.dfy | InMemoryTableStore | internal/pkg/storage/inmemory/store.go |

Modelling choices:

- `float64` is Dafny `real`: no rounding, NaN or infinities.
- An instant is an integer count of nanoseconds, Go's own resolution; the zero
  `time.Time` is instant 0. `t.Before(u)` is `t < u`.
- `strconv.ParseFloat` and `time.Parse(time.RFC3339, ·)` are library code; they
  are the two function fields of `Convertor.Parsers`, passed to every parse.
  The seven other layouts are modelled with `time.Parse`'s own rules:
  a four-digit year, two-digit month, day, minute and second, an hour of one
  or two digits, a layout space matching a run of spaces, a fractional second
  after the seconds accepted even though no layout asks for one, range checks
  (month 1-12, a day that exists in that month, hour < 24, minute and
  second < 60), and no trailing text.
- The xlsx reader becomes the rows of the first sheet: `Importer.Row` with the
  reader's 1-based index and the text of each cell. A `ParseBlock*File` returns
  `Success(records)` or `Failure(ImportError(context, row))`, where the context
  is the text the Go code wraps its error in.
- The survey loader of `CalcBlockFive` becomes a parameter that is either the
  survey or a load error.
- Go methods that take a struct by value and return it (`CalcTableOne`,
  `CalcBlockThree`, `CalcBlockFive`) are functions; the indexed scan of
  `interpolateTVD` and the row loops are methods with loops, proved against
  the functions `Calc.Interpolated` and `Importer.CollectRows`; the stores are
  classes whose `seq` fields the methods reassign.

The model follows the code in the places where it departs from the usual
convention or from the names in its own record types:

- `CalcBlockFive` declares its own `g = 9.81` (internal/service/calc/service.go:124),
  shadowing the package constant 9.80665, standard gravity, that `CalcTableOne` uses.
- `interpolateTVD` does not clamp at the largest MD of the survey: it returns the
  last point only when the scan finds no point whose MD reaches md. On a
  survey sorted by MD the two agree (`Calc.InterpolatedClampsHigh`); on an
  unsorted one the first covering point wins (`Calc.InterpolatedAtFirstCovering`).
- Serial dates are converted as the code does it, with its two defects (see
  "## Findings"): `ParseFlexibleTime`, and through it every timestamp cell
  the importer reads, uses `Convertor.ExcelDateToTimeAsWritten`. The corrected
  conversion `Convertor.ExcelDateToTime` is used only by
  `Convertor.ParseFlexibleTimeCorrected`, the intended half of the findings.
- When the VDP depth is not positive, `CalcBlockFive` leaves the five VDP
  fields as they were rather than clearing them (`Calc.CalcBlockFive`); they
  are absent afterwards only when they were absent before (`Calc.BlockFiveAllOrNothing`).
- Instants have nanosecond resolution, not seconds: fractional seconds in text
  and the fraction of a serial date both reach the nanosecond.
- Field names follow the code that reads and writes the records: `PressureAtVDP`
  is optional (the calculator assigns a pointer although
  internal/pkg/models/table_one.go:11 declares a `float64`), and Block 3 uses
  `flowLiquid`, `flowGas` and `gasOilRatio` as the calculator and the importer
  do (internal/pkg/models/table_three.go:8-13 names them differently).

## Model

| member | source | states |
|---|---|---|
| Calc.ToPa | internal/service/calc/service.go:166-177 | a known unit keeps the sign and zero of the pressure; any other unit string leaves it as it is |
| Calc.FromPa | internal/service/calc/service.go:178-190 | the result is the pressure that `ToPa` maps to the given pascals, for every unit string |
| Calc.UnitRoundTrip | internal/service/calc/service.go:167-190 | converting to pascals and back, or back and forth, returns the value for every unit string |
| Calc.UnknownUnitIsIdentity | internal/service/calc/service.go:167-190 | a unit other than "kgf/cm2", "bar", "atm" makes both conversions the identity |
| Calc.ToPaMonotone | internal/service/calc/service.go:167-178 | the conversion to pascals keeps the order of pressures |
| Calc.BarExample | internal/service/calc/service.go:171-172 | 1 bar is 100000 Pa and 100000 Pa is 1 bar |
| Calc.NoColumnNoPressure | internal/service/calc/service.go:57-58 | a zero height or a zero density gives no hydrostatic pressure |
| Calc.DensityAt | internal/service/calc/service.go:45-55 | a density applies iff t is in [workStart, workEnd) or [idleStart, idleEnd); the work density whenever t is in the work window, the idle density only outside it |
| Calc.CalcTableOne | internal/service/calc/service.go:41-65 | outside both windows the record comes back unchanged; otherwise only the datum pressure is set, and in pascals it is the measured pressure plus ρ·9.80665·Δh |
| Calc.TableOneDensityChoice | internal/service/calc/service.go:46-63 | the datum pressure is fromPa(toPa(p) + ρ·g·Δh) with the work density inside the work window, even where the idle window overlaps, and the idle density only outside it |
| Calc.TableOneNoColumn | internal/service/calc/service.go:57-64 | with Δh = 0 or ρ = 0 the datum pressure equals the measured pressure in the same unit |
| Calc.TableOneIdempotent | internal/service/calc/service.go:41-65 | reducing an already reduced reading changes nothing |
| Calc.CalcBlockThree | internal/service/calc/service.go:73-94 | measured fields are kept; water·100 = liquid·W and water + oil = liquid; the gas-oil ratio is present iff oil > 0 and then ratio·oil = gas·1000 |
| Calc.BlockThreeOilPositive | internal/service/calc/service.go:75-86 | the gas-oil ratio is present iff liquid·(100 − W) > 0 |
| Calc.BlockThreeIdempotent | internal/service/calc/service.go:73-94 | a second pass changes nothing |
| Calc.BlockThreeExample | internal/service/calc/service.go:75-91 | liquid 100, water cut 30, gas 5 give water 30, oil 70 and ratio 5000/70 |
| Calc.Ratio | internal/service/calc/service.go:154 | for prev.MD < md ≤ curr.MD the ratio lies in (0, 1], is 1 exactly at curr.MD, and ratio·(curr.MD − prev.MD) = md − prev.MD |
| Calc.Lerp | internal/service/calc/service.go:153-157 | each interpolated value lies between prev's and curr's; md = curr.MD gives curr's values; a strict increase gives a strictly inner value |
| Calc.Interpolated | internal/service/calc/service.go:139-147 | (0, 0) for an empty survey; the first point's values when md ≤ its MD |
| Calc.ScanFromAtCovering | internal/service/calc/service.go:150-157 | the scan interpolates between the first point whose MD reaches md and its predecessor |
| Calc.ScanFromPastEnd | internal/service/calc/service.go:150-163 | when no MD reaches md the scan ends at the last point |
| Calc.InterpolatedAtFirstCovering | internal/service/calc/service.go:149-157 | past the first point, the result interpolates between the first covering point and its predecessor, whose MD lies strictly below md |
| Calc.InterpolatedPastEveryPoint | internal/service/calc/service.go:161-163 | md beyond every MD gives the last point's values |
| Calc.InterpolatedClampsHigh | internal/service/calc/service.go:150-163 | on a survey sorted by MD, md at or beyond the last MD gives the last point's values exactly |
| Calc.InterpolatedStrictlyBetween | internal/service/calc/service.go:153-156 | with MD and TVD strictly increasing, md strictly between two points gives a TVD strictly between theirs |
| Calc.InterpolatedMidpoint | internal/service/calc/service.go:153-156 | the survey (0,0,0), (1000,950,940) at md 500 gives (475, 470) |
| Calc.InterpolateTvd | internal/service/calc/service.go:139-164 | the indexed scan with early return computes `Interpolated` |
| Calc.CalcBlockFive | internal/service/calc/service.go:97-136 | a load error returns the header unchanged; otherwise the inputs are kept, TVD/TVDSS are set from the survey, and for VDP MD > 0 the VDP depths, diff = TVDSS − vdpTVDSS and both pressure diffs ρ·9.81·diff are set, else the VDP fields stay as they were |
| Calc.BlockFiveAllOrNothing | internal/service/calc/service.go:111-133 | from a header without them, the five VDP fields are each present iff VDP MD > 0 |
| Calc.BlockFiveInstrumentAtVdp | internal/service/calc/service.go:116-132 | an instrument at the VDP depth has zero height difference and zero pressure differences |
| Calc.BlockFiveIdempotent | internal/service/calc/service.go:97-136 | running the header calculation twice with the same survey changes nothing |
| Convertor.ParseFlexibleTime | internal/pkg/service/convertor/service.go:18-40 | text that parses as a number is converted by the as-written `excelDateToTime` in the 1900 system and never reaches the layouts; a failure happens only for non-numeric text and names the raw text |
| Convertor.ParseFlexibleTimeCorrected | internal/pkg/service/convertor/service.go:18-21 | the same parse with the corrected serial-date conversion; non-numeric text is parsed exactly as by `ParseFlexibleTime` |
| Convertor.FlexibleTimeOneDayEarly | internal/pkg/service/convertor/service.go:19-21 | within the no-overflow range, numeric text is read exactly one day earlier than the corrected reading; other text is read the same by both |
| Convertor.FirstMatch | internal/pkg/service/convertor/service.go:34-39 | a found instant is the result of some layout of the list |
| Convertor.FirstMatchIsFirst | internal/pkg/service/convertor/service.go:34-38 | the search returns t iff some layout gives t and every earlier one fails |
| Convertor.FirstMatchFails | internal/pkg/service/convertor/service.go:34-39 | the search fails iff every layout fails |
| Convertor.FlexibleTimeLayoutOrder | internal/pkg/service/convertor/service.go:23-39 | non-numeric text gives the instant of the first of the eight layouts, in their listed order, that parses it, and the error iff none does |
| Convertor.ScanRender | internal/pkg/service/convertor/service.go:25-31 | reading back a layout's own rendering of some fields sets exactly the fields the layout names |
| Convertor.PatternNames | internal/pkg/service/convertor/service.go:25-31 | every fixed layout reads year, month and day, and the four date-time ones also hour, minute and second |
| Convertor.LayoutRoundTrip | internal/pkg/service/convertor/service.go:25-35 | a valid date-time written in any of the seven fixed layouts parses back to its instant (midnight for date-only layouts) |
| Convertor.TimeOfDay | internal/pkg/service/convertor/service.go:54-56 | the fraction of the serial gives a time of day in [0, 24h) |
| Convertor.SerialDays | internal/pkg/service/convertor/service.go:50-53 | the day count is the floor of the serial, or one less exactly when the 1900 system is used and the floor is at least 61 |
| Convertor.ExcelDateToTime | internal/pkg/service/convertor/service.go:43-57 | the corrected conversion: never fails; the result lies in [midnight, midnight + 24h) of the day the serial designates, counted from 1899-12-31 with the day-61 decrement (1900 system) or from 1904-01-01 |
| Convertor.Serial1900Anchors | internal/pkg/service/convertor/service.go:48-56 | serial 1 is 1900-01-01, 59 is 1900-02-28, 60 and 61 are 1900-03-01, 44927 is 2023-01-01, 45000.5 is noon on 2023-03-15 |
| Convertor.Serial1904Anchors | internal/pkg/service/convertor/service.go:45-46 | in the 1904 system serial 0 is 1904-01-01 and 61 is 1904-03-02: no decrement |
| Convertor.ExcelRoundTrip | internal/pkg/service/convertor/service.go:43-57 | every instant (from 1900-03-01 on in the 1900 system) is recovered from its serial |
| Convertor.ExcelDateMonotone | internal/pkg/service/convertor/service.go:50-56 | from serial 61 on a later serial never gives an earlier instant |
| Convertor.Wrap64 | internal/pkg/service/convertor/service.go:55 | the 64-bit wrap-around of `time.Duration` stays in range and is the identity on in-range values |
| Convertor.DurationOfDays | internal/pkg/service/convertor/service.go:55 | `time.Duration(days)` is an int64, equal to the day count whenever that fits |
| Convertor.ExcelDateToTimeAsWritten | internal/pkg/service/convertor/service.go:43-57 | as written, for every serial: without overflow, epoch 1899-12-30 (or 1904-01-01) plus the decremented day count plus the time of day; in every case the day offset added to the epoch is an int64 |
| Convertor.AsWrittenBeyondInt64 | internal/pkg/service/convertor/service.go:51-55 | a day count outside int64 becomes MinInt64, whose product with 24 wraps to 0, so the serial lands on the epoch day |
| Convertor.AsWrittenSixtyAndSixtyOne | internal/pkg/service/convertor/service.go:48-55 | as written, serials 60.x and 61.x both fall on 1900-02-28 |
| Convertor.AsWrittenOneDayEarly | internal/pkg/service/convertor/service.go:48-53 | as written, every 1900-system serial without overflow lands exactly one day before the corrected conversion's instant |
| Convertor.AsWrittenAgreesFor1904 | internal/pkg/service/convertor/service.go:45-46 | the 1904 path agrees with the corrected conversion when no overflow occurs |
| Convertor.AsWrittenSerial44927 | internal/pkg/service/convertor/service.go:48-55 | as written serial 44927 gives 2022-12-31; corrected it gives 2023-01-01 |
| Convertor.AsWrittenOverflows | internal/pkg/service/convertor/service.go:55 | as written serial 106753 lands before 1899-12-30 and before serial 106752's instant; corrected it is 2192-04-10 |
| Importer.CollectRows | internal/pkg/service/importer/service.go:34-57 | a successful import has no more records than rows; a failed one carries the error of some aborting row |
| Importer.ParseRows | internal/pkg/service/importer/service.go:34-57 | the row loop returns exactly the result of `CollectRows` |
| Importer.CollectSucceeds | internal/pkg/service/importer/service.go:35-57 | an import succeeds iff no row aborts |
| Importer.CollectRecords | internal/pkg/service/importer/service.go:34-55 | on success there is one record per kept row, in row order, each the one that row emits |
| Importer.CollectFailsAtFirstAbort | internal/pkg/service/importer/service.go:43-54 | an import fails with e iff e is the error of the first aborting row; nothing gathered before it is returned |
| Importer.CollectAppend | internal/pkg/service/importer/service.go:35-56 | the records of a successful first part of the rows come before those of the rest |
| Importer.BlockOneRow | internal/pkg/service/importer/service.go:36-55 | row 1 and rows with fewer than 3 cells are skipped; a kept row emits iff its timestamp, pressure and temperature cells decode, with those values and no datum pressure; otherwise it aborts naming the first bad cell and the row index |
| Importer.ParseBlockOneFile | internal/pkg/service/importer/service.go:24-58 | the Block 1 import is the row loop over `BlockOneRow` |
| Importer.BlockOneImport | internal/pkg/service/importer/service.go:34-57 | succeeds iff every kept row decodes, then yields one record per kept row in order from cells 0-2; a failure names a kept row |
| Importer.BlockTwoRow | internal/pkg/service/importer/service.go:73-115 | rows with index ≤ 2 or fewer than 6 cells are skipped; a kept row emits iff all six cells decode, mapping cells 0-5 to the tubing, annulus and line (timestamp, pressure) pairs; otherwise it aborts naming the first bad cell |
| Importer.ParseBlockTwoFile | internal/pkg/service/importer/service.go:61-118 | the Block 2 import is the row loop over `BlockTwoRow` |
| Importer.BlockTwoImport | internal/pkg/service/importer/service.go:71-117 | succeeds iff every kept row decodes, then maps cells 0-5 of each kept row in order; a failure is the first bad kept row with its first bad cell |
| Importer.BlockThreeRow | internal/pkg/service/importer/service.go:133-163 | row 1 and rows with fewer than 4 cells are skipped; a kept row emits iff cells 0-3 decode, with the derived rates absent; otherwise it aborts naming the first bad cell |
| Importer.ParseBlockThreeFile | internal/pkg/service/importer/service.go:121-166 | the Block 3 import is the row loop over `BlockThreeRow` |
| Importer.BlockThreeImport | internal/pkg/service/importer/service.go:131-165 | succeeds iff every kept row decodes, then yields one record per kept row in order with the derived rates absent |
| InMemoryStorage.Storage.constructor | internal/storage/inmemory/storage.go:44-51 | a fresh store has all four lists empty |
| InMemoryStorage.Storage.AddBlockOneData | internal/storage/inmemory/storage.go:54-59 | appends to Block 1 only; no error |
| InMemoryStorage.Storage.AddBlockTwoData | internal/storage/inmemory/storage.go:62-67 | appends to Block 2 only; no error |
| InMemoryStorage.Storage.AddBlockThreeData | internal/storage/inmemory/storage.go:70-75 | appends to Block 3 only; no error |
| InMemoryStorage.Storage.AddBlockFourData | internal/storage/inmemory/storage.go:136-141 | appends to the inclinometry list only; no error |
| InMemoryStorage.Storage.GetAllBlockOneData | internal/storage/inmemory/storage.go:78-85 | returns the stored Block 1 list, changing nothing |
| InMemoryStorage.Storage.GetAllBlockTwoData | internal/storage/inmemory/storage.go:88-94 | returns the stored Block 2 list, changing nothing |
| InMemoryStorage.Storage.GetAllBlockThreeData | internal/storage/inmemory/storage.go:97-103 | returns the stored Block 3 list, changing nothing |
| InMemoryStorage.Storage.ClearAll | internal/storage/inmemory/storage.go:106-113 | empties blocks one to three and keeps the inclinometry list |
| InMemoryStorage.Storage.CountBlockOne | internal/storage/inmemory/storage.go:116-120 | the length of the Block 1 list |
| InMemoryStorage.Storage.CountBlockTwo | internal/storage/inmemory/storage.go:123-127 | the length of the Block 2 list |
| InMemoryStorage.Storage.CountBlockThree | internal/storage/inmemory/storage.go:130-134 | the length of the Block 3 list |
| InMemoryStorage.AccumulateThenClear | internal/storage/inmemory/storage.go:9 | two imports accumulate in order and the count grows by each size; a clear brings the count to zero and keeps the survey |
| InMemoryBlockStore.InMemoryStore.constructor | internal/storage/inmemory/store.go:42-48 | a fresh store has three empty lists |
| InMemoryBlockStore.InMemoryStore.AddBlockOneData | internal/storage/inmemory/store.go:51-56 | appends to Block 1 only; no error |
| InMemoryBlockStore.InMemoryStore.AddBlockTwoData | internal/storage/inmemory/store.go:59-64 | appends to Block 2 only; no error |
| InMemoryBlockStore.InMemoryStore.AddBlockThreeData | internal/storage/inmemory/store.go:67-72 | appends to Block 3 only; no error |
| InMemoryBlockStore.InMemoryStore.GetAllBlockOneData | internal/storage/inmemory/store.go:75-82 | returns the stored Block 1 list, changing nothing |
| InMemoryBlockStore.InMemoryStore.GetAllBlockTwoData | internal/storage/inmemory/store.go:85-91 | returns the stored Block 2 list, changing nothing |
| InMemoryBlockStore.InMemoryStore.GetAllBlockThreeData | internal/storage/inmemory/store.go:94-100 | returns the stored Block 3 list, changing nothing |
| InMemoryBlockStore.InMemoryStore.ClearAll | internal/storage/inmemory/store.go:103-110 | empties all three lists; no error |
| InMemoryBlockStore.InMemoryStore.CountBlockOne | internal/storage/inmemory/store.go:113-117 | the length of the Block 1 list |
| InMemoryBlockStore.InMemoryStore.CountBlockTwo | internal/storage/inmemory/store.go:120-124 | the length of the Block 2 list |
| InMemoryBlockStore.InMemoryStore.CountBlockThree | internal/storage/inmemory/store.go:127-131 | the length of the Block 3 list |
| InMemoryBlockStore.AddThenClear | internal/storage/inmemory/store.go:30 | adding grows only its own count, by the size of the data; after a clear every count is zero |
| InMemoryTableStore.InMemoryStore.constructor | internal/pkg/storage/inmemory/store.go:23-29 | a fresh store has three empty lists |
| InMemoryTableStore.InMemoryStore.AddBlockOneData | internal/pkg/storage/inmemory/store.go:32-37 | appends to Block 1 only; no error |
| InMemoryTableStore.InMemoryStore.AddBlockTwoData | internal/pkg/storage/inmemory/store.go:40-45 | appends to Block 2 only; no error |
| InMemoryTableStore.InMemoryStore.AddBlockThreeData | internal/pkg/storage/inmemory/store.go:48-53 | appends to Block 3 only; no error |
| InMemoryTableStore.InMemoryStore.GetAllBlockOneData | internal/pkg/storage/inmemory/store.go:56-63 | returns the stored Block 1 list, changing nothing |
| InMemoryTableStore.InMemoryStore.GetAllBlockTwoData | internal/pkg/storage/inmemory/store.go:66-72 | returns the stored Block 2 list, changing nothing |
| InMemoryTableStore.InMemoryStore.GetAllBlockThreeData | internal/pkg/storage/inmemory/store.go:75-81 | returns the stored Block 3 list, changing nothing |
| InMemoryTableStore.InMemoryStore.ClearAll | internal/pkg/storage/inmemory/store.go:84-91 | empties all three lists; no error |
| InMemoryTableStore.InMemoryStore.CountBlockOne | internal/pkg/storage/inmemory/store.go:94-98 | the length of the Block 1 list |
| InMemoryTableStore.InMemoryStore.CountBlockTwo | internal/pkg/storage/inmemory/store.go:101-105 | the length of the Block 2 list |
| InMemoryTableStore.InMemoryStore.CountBlockThree | internal/pkg/storage/inmemory/store.go:108-112 | the length of the Block 3 list |
| InMemoryTableStore.AddThenClear | internal/pkg/storage/inmemory/store.go:11 | after adding d the count is the old count plus \|d\| and the other counts are kept; after a clear every count is zero |

## Left out

- The GUI, charts, archive/export, SQL persistence, configuration and logging are not part of this model; `CalcBlockFive`'s error logging is dropped.
- Reading the file (`os.ReadFile`) and opening the workbook (`xlsxreader.NewReader`) are I/O; their errors are not modelled, and the rows of the first sheet are an input.
- The wrapped error's inner cause (the parser's own message) is not kept: `Importer.ImportError` holds only the context and the row index.
- `ParseFlexibleTime` returns the zero `time.Time` beside its error; the model returns only the error.
- `strconv.ParseFloat` and RFC 3339 parsing are parameters, not models of the library; in particular NaN, infinities, hexadecimal floats and float64 rounding are not represented, and a serial date is an exact real.
- `Convertor.TimeOfDay`: the fraction of the day is truncated to whole nanoseconds exactly, not through float64 multiplication.
- `Convertor.ExcelDateToTimeAsWritten`: for a day count outside int64, Go's float-to-integer conversion is implementation-defined; the model takes amd64's result, MinInt64 (`Convertor.DurationOfDays`), and does not model other architectures.
- `Convertor.ExcelRoundTrip`: stated from 1900-03-01 on for the 1900 system; before that the fictitious 1900-02-29 makes serials 60 and 61 coincide.
- `time.Parse`'s two-digit-year, month-name, time-zone and AM/PM elements are not modelled: none of the seven fixed layouts uses them.
- The `sync.RWMutex` of the stores: the stores are modelled sequentially. `GetAll*` returns a copy in Go; a Dafny `seq` is a value, so the copy is implicit.
- The store constructors return the Go interface types (`InMemoryBlocksStorage`, `BlocksStorage`, `storage.Storage`); the model uses the classes directly.

## Findings

| source | as written | input that shows it | evidently intended | confidence | as-written member | corrected member |
|---|---|---|---|---|---|---|
| internal/pkg/service/convertor/service.go:48-53 | the epoch 1899-12-30 is combined with the one-day decrement for days ≥ 61, so the leap-day bug is corrected twice (the importer copy, internal/pkg/service/importer/service.go:199-204, is the same) | serial 44927, which is 2023-01-01 in the 1900 date system, gives 2022-12-31; serial 1 gives 1899-12-31 | serial 1 is 1900-01-01 (section 18.17.4 of ECMA-376 Part 1): epoch 1899-12-31 with the decrement, as the corrected model uses | high; not executed | Convertor.AsWrittenSerial44927 | Convertor.Serial1900Anchors |
| internal/pkg/service/convertor/service.go:55 | `time.Duration(days) * 24 * time.Hour` is computed in int64 nanoseconds and wraps past about 106751 days (also in the importer copy, internal/pkg/service/importer/service.go:206) | serial 106753 (2192-04-10) gives 9223372800000000000 ns, which wraps to an instant in 1607, earlier than serial 106752's | the exact day offset, so later serials give later instants | medium; not executed | Convertor.AsWrittenOverflows | Convertor.ExcelDateMonotone |
