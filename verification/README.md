# Scope3 emissions scripts: a Dafny model of the request-building core

Two one-shot Python scripts read an advertising-delivery CSV with pandas, turn
every row into a request record for the Scope3 emissions API, and POST the
records. This project models the deterministic part in between. The model
works over in-memory sequences. A CSV row is a record of cells, and each cell
is `NaN`, `None`, a string or an integer.

`sample_scope3_api_script.py` is modelled in three modules:

- `Prepare` covers `prepare_input_file`. It builds the derived columns: row
  identifiers `0..n-1`, the formatted date, a device type classified by the
  mobile/desktop alias lists, a creative format classified by the
  banner/video alias lists, and the `WxH` size split into width and height
  columns.
- `Evaluate` covers the first loop of `evaluate_emissions`, which builds one
  `row_dict` per prepared row. It also composes that loop with the batch
  loop.
- `Batching` covers the batch loop. The number of calls is `n // b + 1`, and
  call `i` sends the Python slice `[i*b : (i+1)*b - 1]`. The two impression
  counters add up the responses.

The model proves which records are sent: exactly those whose index `k` has
`k % b != b - 1`. They are sent in order, each once, `n - n/b` of them. The
last call is empty exactly when `b` divides `n`.

`example_carbon_emissions_calculator.py` is modelled in `Calculator`. Its
loop appends each `row_dict` to the list first and fills it in afterwards.
The model keeps that order with a `RowDict` class, so the filling happens
through the reference the list already holds. The payload is one
`{"rows": [...]}` object: country is always `AU`, device is always `mobile`,
and the other fields are copied verbatim.

`PyValues` holds the Python semantics the scripts rely on. That covers `==`
on cells, where NaN is unequal to itself, which is what `isNaN` tests. It
also covers `str()` and `int()` on cells, and JSON values.

The device labels are `mobile`, `desktop` and `unknown`; `Tablet` is one of
the mobile aliases. The scripts do not normalise channels, domains or store
URLs, do not derive the batch size from the payload size, and do not retry a
failed call. Call `i` sends the slice `[i*b : (i+1)*b - 1]`, one record short
of a full block.

## Model

| member | source | states |
|---|---|---|
| `PyValues.PyEqIsEquality` | sample_scope3_api_script.py:45 | Python's `==` on cells holds exactly for equal values other than NaN |
| `PyValues.IsNaN` | sample_scope3_api_script.py:43-45 | `string != string` holds exactly for a NaN cell |
| `PyValues.DecimalRoundTrip` | sample_scope3_api_script.py:74 | reading back the decimal `str()` of an identifier gives the identifier |
| `PyValues.DecimalInjective` | sample_scope3_api_script.py:74 | two identifiers have the same decimal string only if they are equal |
| `PyValues.PyStr` | sample_scope3_api_script.py:74-84 | `str()` of a string is the string. `str()` of an integer is a minus sign, present exactly for a negative number, followed by decimal digits without a leading zero |
| `PyValues.ParseInt` | sample_scope3_api_script.py:88-91 | `int()` of a string either reads an integer, non-negative when the string starts with a digit, or raises `ValueError` |
| `PyValues.PyInt` | sample_scope3_api_script.py:88-91 | `int()` of a cell keeps an integer and reads a string. It raises `TypeError` on `None` and `ValueError` otherwise |
| `PyValues.IntStrRoundTrip` | sample_scope3_api_script.py:88-91 | `int(str(i)) == i` for every integer, as the creative branches rely on |
| `Prepare.InAliases` | sample_scope3_api_script.py:61 | `x in aliases` holds exactly when the cell is the string of some alias |
| `Prepare.ClassifyDevice` | sample_scope3_api_script.py:61 | the result is `mobile`, `desktop` or `unknown`. It is `mobile` iff the label is a mobile alias. It is `desktop` iff the label is a desktop alias but not a mobile one, so a label in both lists is `mobile` |
| `Prepare.ClassifyFormat` | sample_scope3_api_script.py:62 | the result is `banner`, `video` or `unknown`. It is `banner` iff the label is a banner alias. It is `video` iff the label is a video alias but not a banner one |
| `Prepare.DefaultDeviceClassification` | sample_scope3_api_script.py:27-28 | with the shipped lists, `Tablet` and `Mobile` are mobile and `PC` is desktop. An unlisted label or NaN is unknown |
| `Prepare.DefaultFormatClassification` | sample_scope3_api_script.py:32-33 | with the shipped lists, `Standard` is banner and `Video` is video. An unlisted label is unknown |
| `Prepare.Split` | sample_scope3_api_script.py:63 | `split('x')` gives at least one piece, and no piece contains `x` |
| `Prepare.JoinSplit` | sample_scope3_api_script.py:63 | joining the pieces of a split with `x` gives back the string |
| `Prepare.SplitJoin` | sample_scope3_api_script.py:63 | splitting pieces joined with `x` gives back the pieces, when none contains `x` |
| `Prepare.ExpandedColumns` | sample_scope3_api_script.py:63 | the number of expanded columns is the largest number of pieces any row's size splits into |
| `Prepare.SizeColumn` | sample_scope3_api_script.py:63 | an expanded size column is NaN exactly when the size is not a string. It is `None` exactly when the size has too few pieces, and otherwise a piece without `x` |
| `Prepare.SizeSplit` | sample_scope3_api_script.py:63 | a size with one `x` splits into a width and a height, neither containing `x`, and `width + "x" + height` rebuilds it |
| `Prepare.PrepareInputFile` | sample_scope3_api_script.py:47-66 | it succeeds iff every date parses and the split yields exactly two columns. On success there is one prepared row per input row, in order. Row `k` has identifier `k`, its own input and its formatted date. Its device type and format are the classification of its own labels, and its width and height are columns 0 and 1 of its own size split. A failure with every date parsed reports the number of expanded columns |
| `Prepare.PreparedSizes` | sample_scope3_api_script.py:63 | a prepared row's width and height are the two halves of a `WxH` size. A string without `x` gives `(size, None)`, and a non-string gives `(NaN, NaN)` |
| `Evaluate.Creative` | sample_scope3_api_script.py:85-91 | device type `video` raises `NameError`. Any device type other than `video` and `banner` gives `{"format": ...}` alone. Width is only present for a `banner` device type with an integer width |
| `Evaluate.Location` | sample_scope3_api_script.py:75-80 | the location has the single key `app` when the domain is NaN, and `site` otherwise. It holds `storeId` or `domain`, the `str()` of the app or domain cell |
| `Evaluate.BuildRecord` | sample_scope3_api_script.py:73-86 | the record's keys are the six common ones plus `app` when the domain is NaN, otherwise plus `site`. `app.storeId`/`site.domain` are the `str()` of the cell. The identifier is the decimal of the row identifier. Country and impressions are copied, and device, date and creative are set |
| `Evaluate.ClassifiedRowCreative` | sample_scope3_api_script.py:87-91 | for every device type the classifier yields, the record is built and its `creative` holds `format` only |
| `Evaluate.CreativeBranchesNeedForeignDeviceTypes` | sample_scope3_api_script.py:87-91 | only a device type outside the classifier's range reaches the branches: `video` raises `NameError`, and `banner` with `300x250` sends width 300 |
| `Evaluate.IntendedCreative` | sample_scope3_api_script.py:87-91 | the corrected branches keep `format` in every record they build |
| `Evaluate.IntendedCreativeCarriesSize` | sample_scope3_api_script.py:87-91 | with the corrected branches, a banner with decimal width/height sends them as integers, and a video with a decimal duration sends it |
| `Evaluate.BuildRequestRecords` | sample_scope3_api_script.py:71-93 | the loop succeeds iff every row's record builds. It then returns one record per row, in row order. Otherwise it fails with the exception of the first row that raises |
| `Evaluate.PreparedRowsBuild` | sample_scope3_api_script.py:74 | every row prepared by `prepare_input_file` builds a record whose identifier is the decimal of its index |
| `Evaluate.EvaluateEmissions` | sample_scope3_api_script.py:71-120 | if every device type is classified, the run succeeds. It makes `n // b + 1` calls, and call `i` sends `Batch(records, b, i)`. Together the calls send exactly the records at kept indices, `n - n/b` in all. The counters and result rows are the sums and concatenation over the responses. A failure is the exception of the first row whose record raises |
| `Evaluate.SentIdentifiersDistinct` | sample_scope3_api_script.py:110-113 | no identifier is sent twice |
| `Batching.NumberOfCalls` | sample_scope3_api_script.py:95 | `n // b + 1` is the number `c` of calls with `(c-1)*b <= n < c*b` |
| `Batching.Batch` | sample_scope3_api_script.py:113 | call `i` sends fewer than `b` records, the consecutive records from index `i*b`. It sends exactly `b - 1` of them when the records reach `i*b + b - 1` |
| `Batching.Responses` | sample_scope3_api_script.py:114-115 | one response per call, and response `i` is the server's answer to batch `i` |
| `Batching.ModeledTotal` | sample_scope3_api_script.py:117 | the sum of `impressionsModeled` over the responses, non-negative when every response's is |
| `Batching.SkippedTotal` | sample_scope3_api_script.py:118 | the sum of `impressionsSkipped` over the responses, non-negative when every response's is |
| `Batching.ResultRows` | sample_scope3_api_script.py:119-120 | the result rows are empty exactly when every response has no rows |
| `Batching.ModeledTotalAppend` | sample_scope3_api_script.py:117 | over two stretches of calls the modeled totals add up |
| `Batching.SkippedTotalAppend` | sample_scope3_api_script.py:118 | over two stretches of calls the skipped totals add up |
| `Batching.ResultRowsAppend` | sample_scope3_api_script.py:119-120 | over two stretches of calls the result rows concatenate |
| `Batching.Slice` | sample_scope3_api_script.py:113 | Python slicing with clipped bounds: its length and its elements |
| `Batching.KeptIndices` | sample_scope3_api_script.py:113 | the kept indices are strictly increasing and below `n`. They are exactly the indices `k` with `k % b != b - 1` |
| `Batching.KeptInBlock` | sample_scope3_api_script.py:113 | within one block of `b` indices, all but the block's last index are kept |
| `Batching.SentByKept` | sample_scope3_api_script.py:110-113 | the first `c` calls send the records at the kept indices below `min(c*b, n)` |
| `Batching.KeptCount` | sample_scope3_api_script.py:110-113 | there are `n - n/b` kept indices below `n` |
| `Batching.AllSentExactly` | sample_scope3_api_script.py:110-113 | all calls together send the records at the kept indices, in order and each once, `n - n/b` of them |
| `Batching.LastBatchEmpty` | sample_scope3_api_script.py:95 | the last of the `n // b + 1` calls sends nothing iff `b` divides `n`. With `b >= 2` every other call sends something |
| `Batching.BlockLastNeverSent` | sample_scope3_api_script.py:113 | an index with `k % b == b - 1` is never among those sent |
| `Batching.AsWrittenDropsRecords` | sample_scope3_api_script.py:113 | with 4 records and batches of 2, the three calls send `[r0]`, `[r2]` and `[]` |
| `Batching.IntendedSentByPrefix` | sample_scope3_api_script.py:113 | with the corrected slice, the first `c` calls send the first `min(c*b, n)` records |
| `Batching.IntendedBatchesPartition` | sample_scope3_api_script.py:113 | with `ceil(n/b)` calls and slice `[i*b:(i+1)*b]`, the batches concatenate to all records, and each holds 1 to `b` records |
| `Batching.SubmitBatches` | sample_scope3_api_script.py:106-120 | it makes `n // b + 1` calls, and call `i` sends `Batch(records, b, i)`. `impressionsModeled`/`impressionsSkipped` end as the sums over the responses, and the result rows are their concatenation |
| `Calculator.RowRecord` | example_carbon_emissions_calculator.py:50-68 | a row's record has the six keys `site`, `country`, `device`, `impressions`, `date` and `creative`, with country `AU` and device `mobile`. Its `creative` has the four keys `width`, `height`, `format` and `durationSeconds` |
| `Calculator.Payload` | example_carbon_emissions_calculator.py:70-73 | the payload is an object whose only key is `rows`, holding one record per CSV row |
| `Calculator.RowDict.Set` | example_carbon_emissions_calculator.py:56-61 | `d[key] = value` changes that key and keeps every other entry |
| `Calculator.RowDict.SetIn` | example_carbon_emissions_calculator.py:65-68 | `d[outer][inner] = value` changes that inner key and keeps every other entry |
| `Calculator.PayloadRecords` | example_carbon_emissions_calculator.py:48-73 | the payload has the single key `rows` with one record per row. Every record has country `AU` and device `mobile`. Domain, impressions, date, width, height, format and duration are the row's cells unchanged |
| `Calculator.PayloadIgnoresDeviceType` | example_carbon_emissions_calculator.py:58-59 | rows that differ only in `devicetype` give the same payload |
| `Calculator.FillRowDict` | example_carbon_emissions_calculator.py:56-68 | the assignments after the append turn the dict holding only `site` into the full record |
| `Calculator.CreateJsonDataFromCsv` | example_carbon_emissions_calculator.py:43-73 | it returns `{"rows": [...]}`, with the row records in order, built through the references the list holds |

## Left out

- Reading the CSV (`pd.read_csv`, including `on_bad_lines='skip'`) is not modelled: the rows are an input sequence. A configured column missing from the file, which raises `KeyError`, cannot occur in the model.
- Date parsing and reformatting (`pd.to_datetime(...).dt.strftime`) is the parameter `formatDate`. It gives `None` where pandas raises, and is otherwise opaque.
- The HTTP POST, `response.json()`, `json.dumps` and `pd.read_json` are not modelled. Call `i` is answered by the parameter `server(i, batch)`, already decoded into rows and two integer counters. Malformed responses, with missing keys or non-integer counters, are not modelled.
- The left merge, `totalEmissions`, measurement rate, per-ad averages, the group-by reports and `to_csv` are not modelled. They are floating-point arithmetic and report files.
- All `print` output is left out. So are the credentials and headers, and the second script's `evaluate_emissions`, a single POST of the payload.
- Cells hold no floats. A numeric column with missing values, which pandas stores as floats (`str()` gives `"123.0"`), is not modelled.
- `PyValues.ParseInt`: Python's `int()` also accepts surrounding whitespace and underscores between digits; the model accepts only an optional sign and digits.
- `Batching.SubmitBatches` requires a positive `max_json_rows`: with 0 the script stops with `ZeroDivisionError` before any call.
- `Evaluate.EvaluateEmissions` requires a positive `max_json_rows` for the same reason.
- A size column whose expanded split has no string at all (every cell NaN) raises in pandas before the column count is checked. The model reports it as `SizeColumnsMismatch(0)`, which also aborts.
- JSON object key order is not modelled: records are maps.

## Findings

| source | as written | input that shows it | evidently intended | confidence | as-written member | corrected member |
|---|---|---|---|---|---|---|
| sample_scope3_api_script.py:113 | call `i` sends `rows_to_compute[i*b:(i+1)*b-1]`, over `n // b + 1` calls | 4 records, `max_json_rows = 2`: the calls send `[r0]`, `[r2]`, `[]`, so records 1 and 3 are never scored | slice `[i*b:(i+1)*b]` over `ceil(n/b)` calls, partitioning the records | high, not executed | `Batching.AsWrittenDropsRecords` | `Batching.IntendedBatchesPartition` |
| sample_scope3_api_script.py:87-91 | the creative branches test the device type against `'video'`/`'banner'`, call the undefined `isNan` and read the literal column `'creative_duration_header'` | a row with format `Video`, device `Mobile` and duration `15` sends a creative with `format` only | test the creative format, call `isNaN`, and read the configured duration column | medium, not executed | `Evaluate.ClassifiedRowCreative` | `Evaluate.IntendedCreativeCarriesSize` |

The end-to-end methods `Batching.SubmitBatches` and `Evaluate.EvaluateEmissions` model the script as written. The corrected definitions stand beside them with their properties proved.
