# DOGE API export tool — a Dafny model

This project models the core of a small Python tool. The tool downloads
savings and spending records from the DOGE API and writes each data type to
an Excel workbook, falling back to CSV when no Excel engine works. The model
follows the tool's own modules:

- `basics.dfy` (`Basics`): `Option`, `Result` and the raised exception
  (`Exception(kind, message)`).
- `config.dfy` (`Config`): the settings the environment variables give, and
  `Defaults`, the settings of an unset environment.
- `strings.dfy` (`Strings`) and `json.dfy` (`Json`): the Python `str`
  operations the core uses (`strip`, `split`, `upper`, `replace`,
  `startswith`, `in`, `str(int)`), and decoded JSON with its first-match key
  lookup.
- `filter_parser.dfy` (`FilterParser`): `parse_filter`, which turns
  `"k1=v1,k2=v2"` into the query-parameter map or a `ValueError`.
- `utils.dfy` (`Utils`): `process_data`, which builds a frame, applies the
  column transformations and truncates text cells, and `save_to_excel`,
  which builds the path, replaces control characters and runs the engine
  loop with its CSV fallback. A DataFrame is the class `Frame`, which
  `save_to_excel` changes in place.
- `api_client.dfy` (`ApiClient`): the class `DogeApiClient`:
  - the constructor, with its defaults and the API-key header;
  - `_make_request`: URL building, the verb check, unpacking the response
    envelope and turning failures into exceptions;
  - the eight `get_*` endpoints;
  - `export_to_excel`;
  - the eight-category `export_all_data`.
- `processor.dfy` (`Processor`): the eight `export_*` wrappers, each with its
  column coercions, and the three-category `export_all_data`.

The outside world is a set of parameters:

- The HTTP session is `send: Request -> Transport`. It maps the one request
  `_make_request` issues to its final outcome, after the session's own
  retries.
- `pd.DataFrame(records)` is `frameOf`.
- The file system and the clock are `WriteEnv`. It says whether
  `os.makedirs`, `to_excel` (per engine) and `to_csv` succeed, and which
  timestamp `datetime.now()` gives.
- The float, integer and date coercions of the wrappers are `Coercions`.

What is proved:

- `parse_filter`:
  - it fails exactly when a piece is malformed, and the error names the
    first malformed piece;
  - on success, the keys are those of the well-formed pieces, with the
    last value winning;
  - formatting printable pairs and parsing them gives them back.
- The envelope unpacking: which list is returned for each shape of body,
  and which bodies make the code raise.
- Every transport failure raises the right exception class, with a message
  that names the URL.
- Requests:
  - an unsupported verb sends nothing;
  - different categories request different URLs;
  - one category's result depends only on the requests to its own URL.
- `process_data`:
  - transformations change only their own column;
  - truncation keeps every text cell within 32000 characters and is
    idempotent.
- `save_to_excel`:
  - it returns the `.xlsx` path, the CSV path or `""`;
  - sanitising keeps lengths and removes `\r`, `\n` and `\t`;
  - the engine loop stops at the first entry equal to the list's last entry.
    With the default configuration, `xlsxwriter` is therefore never tried.
- Both `export_all_data` methods return exactly their keys, each holding its
  category's outcome.

## Model

| member | source | states |
|---|---|---|
| Strings.Strip | doge_api_processor.py:61 | `str.strip`: the result is no longer than the input, and it neither starts nor ends with a stripped character. |
| Strings.StripIsSlice | doge_api_processor.py:61 | The strip is the slice of the input that starts after its leading stripped characters, and every character outside that slice is a stripped one; with `Strip`'s own contract, it is exactly `str.strip()`. |
| Strings.StripUnchanged | doge_api_processor.py:61 | A string is its own strip exactly when it is empty or its first and last characters are kept. |
| Strings.StripIdempotent | doge_api_processor.py:69-70 | Stripping a stripped string changes nothing. |
| Strings.Split | doge_api_processor.py:60 | `str.split(sep)` gives at least one piece, and no piece contains the separator. |
| Strings.JoinSplit | doge_api_processor.py:60 | Joining the pieces of a split with the separator gives back the original string. |
| Strings.SplitJoin | doge_api_processor.py:60 | Splitting a join of separator-free pieces (at least one) gives back the pieces. |
| Strings.IndexOf | doge_api_processor.py:68 | The first occurrence of a character: the character is at that index and not before it. |
| Strings.ReplaceAbsent | utils.py:123 | `str.replace` of a pattern that does not occur changes nothing. |
| Strings.ReplaceAtEnd | utils.py:123 | A pattern that occurs only once, at the end, is replaced there only. |
| Strings.NatToStringRoundTrip | doge_api_client.py:168 | The decimal digits `str(n)` prints read back as `n`. |
| Strings.UpperIdempotent | doge_api_client.py:113-118 | `upper()` of an upper-cased string changes nothing. |
| Json.Get | doge_api_client.py:130-131 | Key lookup in a decoded object: `None` exactly when no member has the key, otherwise the value of a member with that key. |
| Json.FirstArray | doge_api_client.py:143-146 | The scan for the first list value: `None` exactly when no value is a list, otherwise one member's list value. |
| FilterParser.Message | doge_api_processor.py:65-74 | Both ValueError messages contain the offending piece. |
| FilterParser.ParseFilter | doge_api_processor.py:42-88 | The loop returns the map the fold over the pieces gives, or raises the ValueError whose message is that of the fold's error; `None` and `""` give `{}`. |
| FilterParser.ItemSplitsAtFirstEquals | doge_api_processor.py:68-73 | A piece splits at its first `=`: key and value are stripped, later `=` stay in the value, and an empty key is an error. |
| FilterParser.PieceWithoutEquals | doge_api_processor.py:65-66 | A non-blank piece without `=` is the missing-separator error naming the stripped piece. |
| FilterParser.PieceBlank | doge_api_processor.py:62-63 | A piece is skipped exactly when it is blank after stripping. |
| FilterParser.ErrorIsFirstMalformed | doge_api_processor.py:60-75 | The fold fails with `e` exactly when `e` is the error of the first malformed piece. |
| FilterParser.ParseError | doge_api_processor.py:42-88 | `parse_filter` raises `e` exactly when `e` is the error of the first malformed piece of the input. |
| FilterParser.ErrorMessageNamesPiece | doge_api_processor.py:60-74 | When `parse_filter` raises, the message contains one of the input's comma-separated pieces, stripped. |
| FilterParser.LastValueForCons | doge_api_processor.py:75 | The last occurrence of a key in `[head] + tail` is found in the tail first, else in the head. |
| FilterParser.ResultKeysAndValues | doge_api_processor.py:60-75 | On success, a key is in the result exactly when it was there before or a piece supplies it, and the last such piece's value wins. |
| FilterParser.ParseKeysAndValues | doge_api_processor.py:42-88 | The keys of the parsed map are exactly those of the well-formed pieces, each with the value of its last occurrence. |
| FilterParser.ReadPrintable | doge_api_processor.py:60-75 | A printable pair, formatted as `k=v`, reads back as that pair. |
| FilterParser.FoldPairs | doge_api_processor.py:75 | Folding well-formed pieces inserts their pairs in order, later ones overwriting earlier ones. |
| FilterParser.FormatThenParse | doge_api_processor.py:42-88 | Parsing `k1=v1,k2=v2,...` built from printable pairs gives the map those pairs build in order. |
| FilterParser.EmptyInputs | doge_api_processor.py:55-56 | `None` and `""` give the empty map. |
| FilterParser.BlankPiecesSkipped | doge_api_processor.py:62-63 | `"k1=v1,,k2=v2,"` gives `{k1: v1, k2: v2}`; when the keys are equal, the later value wins. |
| Utils.Frame.constructor | utils.py:36 | A new frame holds the given rows and columns. |
| Utils.Frame.SetColumn | utils.py:42 | Assigning a column replaces its cells and dtype, keeping its name, its position and every other column. |
| Utils.ColumnIndex | utils.py:41-42 | `df[name]` is the first column with that name. |
| Utils.MapCells | utils.py:42 | `Series.apply` either maps every cell in order, or raises the first cell's error, every earlier cell having mapped. |
| Utils.TruncateText | utils.py:48 | A truncated cell is a prefix of the text, at most 32000 characters long, and is either the whole text or exactly 32000 characters. |
| Utils.MaxLenAtMost | utils.py:51-53 | A bound on every cell bounds the measured maximum, so the truncation warning, taken after truncating, never fires. |
| Utils.ProcessData | utils.py:21-55 | The transformation loop and the truncation loop give exactly the table `process_data` returns, or the error it raises, on a fresh frame. |
| Utils.ProcessedEmpty | utils.py:32-33 | No records give the empty frame. |
| Utils.TransformAbsentColumn | utils.py:41 | A transformation whose column is missing is ignored. |
| Utils.TransformOnlyItsColumn | utils.py:40-42 | A transformation keeps every column's name and position and every other column, and gives its own column the mapped cells and the new dtype. |
| Utils.TransformAllKeepsOthers | utils.py:39-42 | After all transformations, no column is added, removed or renamed, and a column none of them names is unchanged. |
| Utils.TruncateColumnsShape | utils.py:44-48 | Truncation keeps names, dtypes and every non-text column. Each text cell becomes a string of at most 32000 characters: the text itself when short enough, else its 32000-character prefix. |
| Utils.TruncateIdempotent | utils.py:44-48 | Truncating an already truncated frame changes nothing. |
| Utils.ProcessedShape | utils.py:21-55 | On records, the result has the rows and column names of `pd.DataFrame(data)`; untransformed columns are only truncated, and every text cell fits within 32000 characters. |
| Utils.FileNameHasStem | utils.py:92-96 | The file name is its stem, with or without `_timestamp`, followed by `.xlsx`. |
| Utils.PathJoinExtension | utils.py:98 | `os.path.join` commutes with appending an extension that does not start with `/`. |
| Utils.CsvPathSwapsExtension | utils.py:123 | When `.xlsx` occurs only as the extension, the CSV path is the `.xlsx` path with `.csv` in its place. |
| Utils.PathJoinPlain | utils.py:98 | A relative name joined to a directory without a trailing `/` gets exactly one `/` between them. |
| Utils.CsvPathRewritesDirectory | utils.py:123 | The CSV fallback also renames a directory called `X.xlsx`: `X.xlsx/f.xlsx` becomes `X.csv/f.csv`. |
| Utils.PathExamples | utils.py:83-98 | An explicit `False` timestamp flag is honoured, an empty directory falls back to the configured one, and the test's arguments give `test_output/test_file.xlsx`. |
| Utils.ReplaceOneChar | utils.py:105 | Replacing a one-character pattern swaps exactly those characters. |
| Utils.SanitiseClean | utils.py:101-106 | The cleaned text has the same length; `\r`, `\n` and `\t` become spaces, every other character is kept, and no control character is left. |
| Utils.SaveToExcel | utils.py:58-133 | The result, the writes attempted and the frame left with the caller are those of `Save`. An empty frame gives `""` and a failing `os.makedirs` raises; otherwise the engine loop runs on the sanitised frame. |
| Utils.SanitiseFrame | utils.py:101-106 | The sanitising loop replaces every text column of the caller's frame by its cleaned strings, in place, and leaves the rest. |
| Utils.WriteWithEngines | utils.py:109-133 | The engine loop with its early returns returns the path, and attempts the writes, that the engine-loop definition gives. |
| Utils.EngineSucceedsAt | utils.py:111-116 | When every earlier engine failed and was not the last entry, the first engine that writes gives the `.xlsx` path, and those are all the engines tried. |
| Utils.EngineFallsBackAt | utils.py:111-129 | Once the first entry equal to the last entry has failed like all before it, CSV is tried next and later engines never are; the result is the CSV path, or `""` when CSV fails too. |
| Utils.DefaultEngineSkipsXlsxwriter | utils.py:109-129 | With the default `openpyxl`, a failed first write goes straight to CSV, and `xlsxwriter` is never tried. |
| Utils.UniqueLastTriesAll | utils.py:109-129 | When the last entry occurs nowhere earlier, the loop is "every engine in order, then CSV". |
| Utils.DefaultListDiffersFromTryAll | utils.py:109-129 | With the default list, a file system where only `xlsxwriter` writes makes the loop fall back to CSV; trying every engine would have written the `.xlsx` file. |
| Utils.SaveEmpty | utils.py:78-80 | An empty frame is neither written nor changed, and gives `""`. |
| Utils.EnginePaths | utils.py:111-133 | The engine loop returns the `.xlsx` path, the CSV path or `""`. |
| Utils.SaveOutcomes | utils.py:58-133 | A non-empty frame whose directory can be made never raises, and gives the `.xlsx` path, the CSV path or `""`. |
| Utils.SaveSanitises | utils.py:101-106 | The frame the writes see is the caller's frame with the same rows, columns and dtypes. Non-text columns are untouched; every text cell becomes a string of the original length with no control character. |
| Utils.SaveDirectoryFailure | utils.py:89 | A failing `os.makedirs` raises before anything is written or changed. |
| ApiClient.NormaliseEndpoint | doge_api_client.py:99-100 | The endpoint gets its leading `/`. |
| ApiClient.NormaliseEndpointKeeps | doge_api_client.py:99-100 | The `/` is added only when missing, in front of the unchanged endpoint; normalising twice is normalising once. |
| ApiClient.BuildUrlParts | doge_api_client.py:102-106 | The URL is the base URL, then `/version` when a version is set, then the normalised endpoint. |
| ApiClient.BuildUrlInjective | doge_api_client.py:102-106 | On one base and version, two endpoints give the same URL only when they normalise to the same path. |
| ApiClient.BuildUrlExample | tests/test_doge_api_client.py:50-55 | `/test` on version `v1` of the test base URL is `https://test-api.doge.gov/v1/test`; without a version it is `https://test-api.doge.gov/test`. |
| ApiClient.ParseVerbIgnoresCase | doge_api_client.py:113-118 | The verb check ignores case both ways, and a rejected method raises a ValueError whose message ends with the method. |
| ApiClient.ParseVerbLowerGet | doge_api_client.py:113-114 | `get` is accepted as GET. |
| ApiClient.ParseVerbMixedPost | doge_api_client.py:115-116 | `Post` is accepted as POST. |
| ApiClient.ParseVerbRejectsDelete | doge_api_client.py:117-118 | `DELETE` is rejected. |
| ApiClient.DataTypeOfTwoSegments | doge_api_client.py:136-138 | `/a/b` names the data type `b`. |
| ApiClient.DataTypeOfOneSegment | doge_api_client.py:136-138 | A one-segment endpoint names no data type. |
| ApiClient.RecordsNamedList | doge_api_client.py:139-140 | When `result` is an object holding a list under the endpoint's data type, that list is returned. |
| ApiClient.RecordsGrantsExample | doge_api_client.py:135-140 | `/savings/grants` returns `result["grants"]` even when another list comes first in `result`. |
| ApiClient.RecordsFirstList | doge_api_client.py:142-150 | Otherwise the first list value of `result` is returned, and with none the whole body is wrapped in a list. |
| ApiClient.RecordsOneSegment | doge_api_client.py:136-146 | A one-segment endpoint always takes the first-list scan. |
| ApiClient.RecordsLists | doge_api_client.py:148-156 | A list `result` is returned as it is, and so is a bare array body. |
| ApiClient.RecordsLegacyData | doge_api_client.py:152-161 | Without `result`, a list `data` is returned; otherwise the body is wrapped. |
| ApiClient.RecordsScalarResult | doge_api_client.py:130-161 | A `result` that is neither an object nor a list wraps the body, even beside a list `data`. |
| ApiClient.RecordsOfObject | doge_api_client.py:130-161 | An object body never fails. It gives `[body]` or a list found among its members or among `result`'s members. |
| ApiClient.RecordsOfResultObject | doge_api_client.py:134-146 | When `result` is an object, the records are `[body]` or one of `result`'s list values, and never an error. |
| ApiClient.RecordsFailures | doge_api_client.py:130-161 | Null, boolean and number bodies raise TypeError, a string body always raises, and an array raises exactly when it holds the string `result` or `data`. |
| ApiClient.FailuresNameUrl | doge_api_client.py:162-179 | Failures map to exceptions: connection failure to ConnectionError, timeout to TimeoutError, HTTP 4xx/5xx to ValueError, other failures to RuntimeError. Every message names the URL. |
| ApiClient.OtherFailureMessage | tests/test_doge_api_client.py:102-111 | A request exception's message begins with `API request failed`. |
| ApiClient.DeliveredRecords | doge_api_client.py:123-161 | A delivered, decodable response with a non-error status yields the records of its body. |
| ApiClient.UnsupportedMethodSendsNothing | doge_api_client.py:113-118 | An unsupported method raises its ValueError whatever the session would do: nothing is sent. |
| ApiClient.PerformSendsOneRequest | doge_api_client.py:108-122 | The result depends on the session only through the request to the built URL. |
| ApiClient.PerformGetExample | tests/test_doge_api_client.py:38-57 | The test's GET of `/test` with a `data` list body returns that list. |
| ApiClient.EndpointsDistinct | doge_api_client.py:181-275 | The eight endpoints already start with `/`, and different categories request different URLs. |
| ApiClient.ResultKeysDistinct | doge_api_client.py:299-383 | Different categories are stored under different keys. |
| ApiClient.StoredUnderEightKeys | doge_api_client.py:299-383 | The map filled category by category has exactly the eight keys, each holding its category's value. |
| ApiClient.FetchExample | tests/test_doge_api_client.py:114-129 | `get_department_data(status="active")` sends one GET of `/departments` with that query. |
| ApiClient.ExportOutcomeCases | doge_api_client.py:313-381 | A failed fetch stores `""`, an empty fetch stores `""`, and otherwise the export's path (or `""` when it raised). |
| ApiClient.ExportOutcomeIsolated | doge_api_client.py:313-381 | One category's stored value depends only on the session's answers for its own URL and on its own save. |
| ApiClient.OtherCategoriesUnaffected | doge_api_client.py:313-381 | A session that answers differently only for one category's URL changes no other category's value. |
| ApiClient.DogeApiClient.constructor | doge_api_client.py:52-72 | An argument that is missing or falsy falls back to its setting; the `X-Api-Key` header, and no other, is added exactly when the resolved key is non-empty. |
| ApiClient.DogeApiClient.ExportToExcel | doge_api_client.py:277-297 | No data gives `""`. Otherwise the result is that of `process_data` without transformations, then a save with the configured directory and timestamp flag. |
| ApiClient.DogeApiClient.ExportOne | doge_api_client.py:313-319 | One try block: fetch, export, and `""` for any exception. |
| ApiClient.DogeApiClient.ExportAllData | doge_api_client.py:299-383 | The result has exactly the eight keys, each holding its category's outcome on the client's state. |
| ApiClient.ExportedExample | tests/test_doge_api_client.py:131-156 | With `OUTPUT_DIR` `test_output`, no timestamp and the engine `openpyxl`, exporting a non-empty table writes and returns `test_output/test_file.xlsx`. |
| Processor.PlanColumnsDistinct | doge_api_processor.py:134-137 | No wrapper's coercion dict names a column twice (here the employee dict; the other seven are at lines 164-167, 194-198, 225-229, 256-260, 287-291 and 318-322, and the department wrapper has none), so its transformations have pairwise different columns. |
| Processor.WrapperOutcomeCases | doge_api_processor.py:91-330 | A wrapper returns `""` when fetching fails, when nothing is fetched or when a coercion raises; otherwise it returns the save's path (or `""` when the save raised). |
| Processor.DepartmentsAgreeWithClient | doge_api_processor.py:91-114 | The department wrapper, which passes no transformations, returns what the client's export of that category stores. |
| Processor.UnplannedColumnsOnlyTruncated | doge_api_processor.py:134-138 | A column no coercion names comes out of `process_data` only truncated. |
| Processor.WrapperIsolated | doge_api_processor.py:91-330 | A wrapper's result depends on the session only through its category's URL. |
| Processor.OtherWrappersUnaffected | doge_api_processor.py:91-330 | A session that answers differently only for one category changes no other wrapper's result. |
| Processor.ExportData | doge_api_processor.py:91-330 | One wrapper gives exactly the specified outcome on the client's state. |
| Processor.ExportAllData | doge_api_processor.py:332-364 | The result has exactly the keys `grants`, `contracts` and `leases`, each holding that wrapper's result. |
| Processor.StoredUnderThreeKeys | doge_api_processor.py:332-364 | The map filled category by category has exactly the three keys, each holding its category's value. |

## Left out

- HTTP retries: the `Retry` adapter (status list, backoff, `method_whitelist`) is inside `send`, which gives the final outcome of the one request. They are library behaviour, and `method_whitelist` only exists for urllib3 versions before 2.
- The session's built-in default headers: only the header the client adds is modelled.
- Logging: every `logger` call, including the timing and the warnings, is left out because it changes no result.
- `main`, the command line, `setup_logging` and the example scripts are not part of this model. They are outside the core.
- `pd.DataFrame(data)` is the parameter `frameOf`, and pandas' dtype inference is the `isText` flag of a column. Both are library behaviour.
- `Processor.Coercions`: `float(x)`, `int(x)` and `pd.to_datetime(x)` are parameters (which cell values convert, and which dtype results). Their numeric and date semantics are library behaviour.
- `Utils.WriteEnv`: `os.makedirs`, `to_excel`, `to_csv` and `datetime.now()` are parameters. The file system and the clock are outside the model. Each category's save gets its own environment in the two `export_all_data` methods.
- ApiClient.ExportOutcome: an exception caught by a try block is recorded only as `""`; its message went only to the log.
- Processor.WrapperOutcome: as above, a wrapper's caught exception is recorded only as `""`.
- Utils.Processed: exceptions from pandas itself, such as a malformed record list, are not modelled; only a raising transformation is an error.
- Json: an object is a list of members, so duplicate keys are possible. `Get` takes the first, while Python's decoder keeps the last; the envelope lemmas are stated for any member list.
- ApiClient.Outcome: a body that is not JSON is modelled as a RuntimeError whose text is the decoder's message. This is what happens when the decoder's error is a `RequestException`, as in requests 2.27 and later.
- ApiClient.Records: the exceptions raised for bodies outside the envelope's shapes are modelled by their class, with an empty message; their text comes from Python's runtime.
- Strings.Upper: only characters whose upper-case form is ASCII are upper-cased (`a`-`z`, plus `ı`, `ſ`, `ß` and the ligatures U+FB00 to U+FB06, which Python maps into ASCII). Other characters are kept, which is enough to decide whether the result is `GET` or `POST`.
- Config: the settings are read from the environment at import time; the environment is not modelled, only the resulting settings. The comment in config.py says `API_VERSION` is not used in URLs, but the client puts it in every URL. The model follows the code.
- Processor.ExportAllData: its `try`/`except` blocks are not modelled, because every wrapper already catches its own exceptions, so they never fire.
- The test of the client's `export_all_data` (tests/test_doge_api_client.py:160-181) expects five categories; the code exports eight. The model follows the code.
- ApiClient.ExportedExample: the client's test of `export_to_excel` (tests/test_doge_api_client.py:131-156) patches `doge_api_client.config`, but `save_to_excel` reads the `config` that utils.py imports, so the test's settings never reach the save. The lemma states the export under the settings the test means to give, not the test as written.
