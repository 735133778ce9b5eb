# Scenario ingestion pipeline of the dolf-charts dashboard, in Dafny

The dashboard loads JSON "scenario" files (synthetic market data: price and
open-interest candles plus summary statistics) and shows up to six of them side
by side. This project models the part of it with logic in it, and proves what
that logic promises:

- **Scenarios** (`scenario_service.dfy`): the scenario service.
  - `validateScenario` is a function over a decoded JSON value. It uses
    JavaScript truthiness, `typeof`, and property reads that yield `undefined`.
    It returns true or false, or throws when the first candle is `null`.
  - `optimizeCandles` is a method with the source's stride-5 loop. It is
    proved against a recursive reference definition.
  - The part of `parseScenarioFile` after the file is read: validate, then
    copy the object with its candles downsampled.
  - The bounded list of scenarios is a class with a `seq` field. Each
    operation replaces that field, and every operation keeps "at most six".
- **Uploader** (`file_uploader.dfy`): `FileUploaderComponent`, a class over
  `isDragging`, `isLoading` and `errorMessage`.
  - `handleFiles` makes the per-batch check, then the total-capacity check.
  - It then runs the file loop (suffix check, then the parser; the batch is
    all-or-nothing) and adds the parsed scenarios in order.
  - The method is proved equal to a function of its inputs. Lemmas about that
    function state the upload rules.
- **StatsGrid** (`stats_grid.dfy`): the OI/price ratio and the colour
  classes. The ratio is Finite, Infinity or NaN, so the case where the guard
  tests `priceEnd` but the divisor is `priceChangePercent` is represented
  exactly.
- **Charts** (`chart_section.dfy`): the candle-to-point projections and the
  `ChartSection` class. `UpdateCharts` replaces only the `data` of its two
  option records.
- **ScenarioModel** (`scenario_model.dfy`): the Candle, Statistics and
  ScenarioData records.
- **JsValues** (`js_values.dfy`): the JavaScript value semantics used above.

The model follows the code as written. Three behaviours are worth knowing:

- `validateScenario` can throw. Reading `timestamp` of a `null` first candle
  raises a TypeError. `parseScenarioFile` catches it and rejects with "Failed
  to parse file: TypeError: …".
- `parseScenarioFile` always downsamples on success.
- `error.message` is built from `${error}`, which is `Error.prototype.toString`
  (for example "Error: Invalid scenario data format"). So a parser failure
  reaches `errorMessage` as `Failed to parse "<name>": Error: <message>`.

## Model

| member | source | states |
|---|---|---|
| `Scenarios.ValidateScenario` | src/app/services/scenario.service.ts:54-82 | the validator can only throw a TypeError, and only once `candles` is known to be an array |
| `Scenarios.ValidateScenarioMeaning` | src/app/services/scenario.service.ts:54-82 | true exactly for a non-null object whose five required fields are truthy (an empty string fails), whose candles are a non-empty array, whose first candle has truthy timestamp, price, openInterest and volume (0 fails), and whose statistics have numeric totalCandles, priceStart and priceEnd (0 passes); a throw exactly when everything before the candle check passed and the first candle is null; false otherwise |
| `Scenarios.ValidateIgnoresLaterCandles` | src/app/services/scenario.service.ts:69-73 | only `candles[0]` is inspected: replacing all later candles never changes the verdict |
| `Scenarios.EveryFifth` | src/app/services/scenario.service.ts:92-95 | the stride-5 selection has ceil(n/5) elements, and element k is input element 5k |
| `Scenarios.Optimized` | src/app/services/scenario.service.ts:87-98 | the downsampled sequence is never longer than its input, is the input itself exactly when it has at most 500 candles, and keeps the first candle |
| `Scenarios.OptimizeCandles` | src/app/services/scenario.service.ts:87-98 | at most 500 candles come back unchanged; more come back as ceil(n/5) candles with `result[k] == candles[5k]`, equal to the reference definition |
| `Scenarios.WithOptimizedCandles` | src/app/services/scenario.service.ts:32-35 | the spread copy has the same keys as the validated object, its `candles` are the downsampled candles, and every other field is unchanged |
| `Scenarios.ParseScenarioFile` | src/app/services/scenario.service.ts:21-45 | a read failure gives "Failed to read file"; a decode error or a validator throw gives "Failed to parse file: " plus the error's text; a value that does not validate gives exactly "Invalid scenario data format"; success happens exactly for values of scenario shape, and yields the same object with the same keys, only `candles` replaced by its downsampled sequence |
| `Scenarios.TryAdd` | src/app/services/scenario.service.ts:103-112 | an add succeeds exactly on a list of fewer than six; it then appends the scenario after the unchanged earlier elements; otherwise the error is the capacity error |
| `Scenarios.WithoutIndex` | src/app/services/scenario.service.ts:119 | `filter((_, i) => i !== index)` has one element fewer exactly when `index` is a position of the list, and element k is the old element k before `index` and the old element k + 1 from `index` on |
| `Scenarios.KeepOtherPositionsSplice` | src/app/services/scenario.service.ts:119 | filtering out one position of a list that starts at a given offset is the splice around that position, or the list itself when the position is outside it |
| `Scenarios.WithoutIndexSplice` | src/app/services/scenario.service.ts:119 | `filter((_, i) => i !== index)` deletes exactly position `index` and shifts later elements down in order; an out-of-range index changes nothing |
| `Scenarios.ScenarioService.constructor` | src/app/services/scenario.service.ts:9 | the list starts empty |
| `Scenarios.ScenarioService.AddScenario` | src/app/services/scenario.service.ts:103-112 | on a list of six or more, it throws "Maximum of 6 scenarios allowed. Please remove one first." and the list is unchanged; otherwise it appends at the end and keeps the earlier elements; at most six holds before and after |
| `Scenarios.ScenarioService.RemoveScenario` | src/app/services/scenario.service.ts:117-121 | the new list is the old one without position `index`, later elements shifted down; an out-of-range index is a no-op |
| `Scenarios.ScenarioService.ClearAllScenarios` | src/app/services/scenario.service.ts:126-128 | the list becomes empty whatever it held, so calling it again changes nothing |
| `Scenarios.ScenarioService.GetScenariosCount` | src/app/services/scenario.service.ts:133-135 | the count is the list's length and at most six |
| `Scenarios.ScenarioService.GetScenarios` | src/app/services/scenario.service.ts:140-142 | returns the current list |
| `JsValues.ErrorString` | src/app/services/scenario.service.ts:39 | `${error}` is the message alone for an error with an empty name; otherwise it starts with the error's name, is never empty, and continues with ": " and the message exactly when the message is non-empty |
| `JsValues.NatStringValue` | src/app/components/file-uploader/file-uploader.component.ts:66 | the decimal digits `${n}` writes for a natural number read back as n |
| `Uploader.MessageOf` | src/app/components/file-uploader/file-uploader.component.ts:100 | the message shown for a caught error is never empty |
| `Uploader.ParseOne` | src/app/components/file-uploader/file-uploader.component.ts:79-90 | one file passes exactly when its name ends in ".json" and the parser accepts it, and then yields the parser's scenario; a failure is an Error with a non-empty message |
| `Uploader.ParseAll` | src/app/components/file-uploader/file-uploader.component.ts:76-91 | a successful loop yields one scenario per file; a failed loop's error is the error of one of the files |
| `Uploader.AddAll` | src/app/components/file-uploader/file-uploader.component.ts:94-96 | the adds keep the earlier list as a prefix and never take a list of at most six past six; with no throw the whole batch is appended in order; a throw is the capacity error and leaves at least six |
| `Uploader.HandleFilesOutcome` | src/app/components/file-uploader/file-uploader.component.ts:54-104 | the error message is empty exactly when a batch is emitted; the list keeps its earlier elements as a prefix and never goes past six; an emitted batch has one scenario per file and is what was appended |
| `Uploader.ParseAllSucceeds` | src/app/components/file-uploader/file-uploader.component.ts:76-91 | the file loop succeeds exactly when every file ends in ".json" and parses; then it yields one scenario per file, in file order |
| `Uploader.ParseAllFirstFailure` | src/app/components/file-uploader/file-uploader.component.ts:76-91 | the first failing file decides the batch's error; the later files are never looked at |
| `Uploader.AddAllWithinCapacity` | src/app/components/file-uploader/file-uploader.component.ts:94-96 | adding a batch that fits never throws and appends the whole batch in order |
| `Uploader.AddAllPartialCommit` | src/app/components/file-uploader/file-uploader.component.ts:94-96 | when a batch does not fit, the adds before the throw stay: the list is filled to six and the capacity error is reported |
| `Uploader.BatchIsAllOrNothing` | src/app/components/file-uploader/file-uploader.component.ts:54-104 | a batch is emitted exactly when both limits pass and every file parses; then it is added in file order and `errorMessage` is ''; otherwise nothing is emitted, the list is unchanged and the message is non-empty |
| `Uploader.NonJsonFileAbortsBatch` | src/app/components/file-uploader/file-uploader.component.ts:80-82 | a file without the ".json" suffix aborts the batch with `File "<name>" is not a JSON file`, whatever its content, and nothing is added |
| `Uploader.ParserFailureAbortsBatch` | src/app/components/file-uploader/file-uploader.component.ts:85-90 | a parser rejection aborts the batch with `Failed to parse "<name>": ` followed by the rejection's text, and nothing is added |
| `Uploader.LimitsCheckedFirst` | src/app/components/file-uploader/file-uploader.component.ts:57-68 | more than six files gives "Maximum 6 files can be uploaded at once"; otherwise exceeding six in total gives "Can only upload <6 - count> more scenario(s). Maximum is 6 total."; the per-batch check comes first, and in both cases nothing is added or emitted |
| `Uploader.FileUploaderComponent.constructor` | src/app/components/file-uploader/file-uploader.component.ts:17-21 | not dragging, not loading, empty error message |
| `Uploader.FileUploaderComponent.OnDragOver` | src/app/components/file-uploader/file-uploader.component.ts:23-27 | sets `isDragging` |
| `Uploader.FileUploaderComponent.OnDragLeave` | src/app/components/file-uploader/file-uploader.component.ts:29-33 | clears `isDragging` |
| `Uploader.FileUploaderComponent.OnDrop` | src/app/components/file-uploader/file-uploader.component.ts:35-44 | clears `isDragging`; when a file list is present, even an empty one, it is handled as a batch, and `isLoading` is false when it returns; without one nothing else changes |
| `Uploader.FileUploaderComponent.OnFileSelect` | src/app/components/file-uploader/file-uploader.component.ts:46-52 | when a file list is present, even an empty one, it is handled as a batch, and `isLoading` is false when it returns; without one nothing changes |
| `Uploader.FileUploaderComponent.HandleFiles` | src/app/components/file-uploader/file-uploader.component.ts:54-104 | the list, `errorMessage` and the emitted list are those of the batch function; `isLoading` is raised only past the two limit checks and is false again whenever the call returns, so the component's invariant (at most six stored, no batch in flight) holds between calls; `isDragging` is untouched |
| `Uploader.FileUploaderComponent.ParseFiles` | src/app/components/file-uploader/file-uploader.component.ts:73-91 | the loop's outcome equals the recursive file-loop definition |
| `Uploader.FileUploaderComponent.AddScenarios` | src/app/components/file-uploader/file-uploader.component.ts:94-96 | the list and the thrown error after the `forEach` equal the recursive add definition |
| `Uploader.FileUploaderComponent.ClearError` | src/app/components/file-uploader/file-uploader.component.ts:106-108 | `errorMessage` becomes '' |
| `StatsGrid.AbsQuotient` | src/app/components/stats-grid/stats-grid.component.ts:22 | `Math.abs(a / b)` is a non-negative finite q with q·\|b\| = \|a\| when b ≠ 0, Infinity when only b is 0, NaN when both are 0 |
| `StatsGrid.OiPriceRatio` | src/app/components/stats-grid/stats-grid.component.ts:18-23 | 0 without statistics or when `priceEnd` is 0; otherwise non-negative, with ratio·\|priceChangePercent\| = \|oiChangePercent\|; Infinity, or NaN when the OI change is also 0, when `priceEnd` ≠ 0 but `priceChangePercent` is 0 |
| `StatsGrid.RatioIgnoresSigns` | src/app/components/stats-grid/stats-grid.component.ts:22 | negating either change percent leaves the ratio unchanged (10/5 and −10/5 both give 2) |
| `StatsGrid.StatColor` | src/app/components/stats-grid/stats-grid.component.ts:25-42 | always one of the three classes; 'text-gray-400' exactly without statistics or for an unknown kind; 'text-primary' iff price/oi change ≥ 0, iff ratio ≥ 2 under JavaScript's comparison, iff volatility < 2.5 (2.5 itself is 'text-danger') |
| `StatsGrid.RatioColourAtZeroDivisor` | src/app/components/stats-grid/stats-grid.component.ts:18-36 | with `priceEnd` ≠ 0 and a zero price change, the ratio colour is primary (Infinity), or danger when the OI change is also 0 (NaN); a zero `priceEnd` is danger |
| `StatsGrid.RatioColourThreshold` | src/app/components/stats-grid/stats-grid.component.ts:35-36 | for non-zero `priceEnd` and price change, the ratio colour is primary exactly when \|OI change\| ≥ 2·\|price change\| |
| `Charts.PricePoints` | src/app/components/chart-section/chart-section.component.ts:94-101 | one price point per candle, including 0 and 1 candles; point i carries candle i's timestamp, price open/high/low/close and volume |
| `Charts.OiPoints` | src/app/components/chart-section/chart-section.component.ts:104-110 | one OI point per candle; point i carries candle i's timestamp and open-interest open/high/low/close |
| `Charts.SeriesKeepTimeOrder` | src/app/components/chart-section/chart-section.component.ts:92-110 | candles ordered by timestamp give both series ordered by date |
| `Charts.PriceSeriesCommutesWithDownsampling` | src/app/components/chart-section/chart-section.component.ts:94-101 | projecting the downsampled candles the parser produces equals downsampling the price series |
| `Charts.OiSeriesCommutesWithDownsampling` | src/app/components/chart-section/chart-section.component.ts:104-110 | the same for the open-interest series |
| `Charts.ChartSection.constructor` | src/app/components/chart-section/chart-section.component.ts:20-83 | before any update both records have empty data, chart type 'candlestick', zoom on and volume off, with the source's other option values |
| `Charts.ChartSection.UpdateCharts` | src/app/components/chart-section/chart-section.component.ts:92-122 | each record's `data` becomes the projection of the current candles, whatever it held before (no accumulation); every other option field is unchanged; both series have one point per candle |

## Left out

- Reading the file (`FileReader`, `readAsText`, the `onload`/`onerror` callbacks) is browser I/O. The model receives its outcome as a value: unreadable, or text that JSON.parse decoded or rejected.
- JSON.parse (RFC 8259 decoding) is a foreign call. The decoded value or the SyntaxError is an input. Duplicate keys are not modelled, because objects are maps.
- IEEE-754 numbers are modelled as reals. Rounding, −0, overflow and NaN inside statistics (NaN passes `typeof === 'number'`) are not modelled. The ratio keeps only the Finite / Infinity / NaN distinction its guard needs.
- The TypeError text for a null first candle is V8's ("Cannot read properties of null (reading 'timestamp')"). Other engines word it differently.
- Named property reads on strings, arrays and primitives are modelled as `undefined`. This holds for every named key the validator reads. The validator reads `length` and index 0 only on a value already known to be an array, and the model reads them from the sequence.
- Scenarios.ScenarioService.RemoveScenario: the index is an integer. A fractional or NaN index also matches no position and is a no-op in the source. The model does not represent such indexes.
- The RxJS `BehaviorSubject`/`Observable` plumbing and its notifications are not modelled. The list is a plain field, and each operation replaces it with a new sequence.
- Angular wiring is left out: dependency injection, change detection, `effect()` re-running `updateCharts` when the `candles` input changes, and the drag events' `preventDefault`/`stopPropagation`. `EventEmitter.emit` is modelled as the emitted list being returned. The app shell and the scenario card are not part of this model.
- The uploader does not call the scenario parser directly. It takes the parser as an abstract function from file to scenario or error, because the TypeScript `ScenarioData` type is a static cast of the parsed JSON object, with no runtime behaviour.
- Uploader.FileUploaderComponent.HandleFiles: overlapping `handleFiles` calls across `await` are concurrency and are left out. One batch runs at a time, and `onDrop`/`onFileSelect` run it to completion although the source does not await it. So `isLoading` being true while a batch is in flight is not observable. Also, the capacity error thrown part-way through the adds cannot happen after the capacity check: `AddAllWithinCapacity` proves this. `AddAllPartialCommit` states what the source does when it does happen.
- Charts.ChartSection.constructor: the `Date` objects are modelled as their integer timestamps. `width`/`height` (both `undefined`) are omitted. The theme is reduced to its base theme, palette and background strings.
- The number and percentage formatting pipes are left out. They do floating-point `toFixed` formatting.
