# S3 JSON Visualizer backend: selection, merge and response logic

This project models the deterministic core of the FastAPI backend `backend/main.py`. The
backend lists the JSON objects under a bucket prefix, loads up to `max_files` of them, and
merges them into one document. An LLM-backed JSON agent answers the user's query over that
document. The backend then picks a chart from the shape of the merged data and returns
everything in one response. The model covers these pieces:

- the key-selection scans, capped in `/analyze` and uncapped in `/list_files` (module `Listing`);
- loading each key into an optional document, then dropping the failures (`Loading`);
- `merge_json_data` (`Merge`);
- extracting the data-frame rows and choosing the chart kind (`Visualization`);
- the pipeline, the response dicts and the handlers' `except` clauses (`Api`).

`Json`, `Decimal`, `Seqs` and `Wrappers` hold the JSON value type, the decimal rendering
used by `f"file_{i}"`, and generic sequence facts.

JSON objects are insertion-ordered member lists, as Python dicts are, because
`merged["files"].values()` is read in insertion order. Every collaborator is a
function-typed parameter:

- the paginated S3 listing: the pages it delivers, one request at a time, and the error raised by the request for the next page, if that request fails;
- `get_object` (a body, or a failure);
- UTF-8 decoding together with `json.loads` (a document, or a failure). A body that is the JSON literal `null` parses to Python's `None`, so `load_json_file` treats it like a failed load;
- the agent run (its answer, or the error it raised);
- the two pandas facts the code depends on: whether `pd.DataFrame(rows)` raises, and the kinds of the frame's columns;
- the plotly figure encoder (a figure document, or the error it raised).

Three behaviours of the code are easy to misread:

- `max_files <= 0` does not select nothing. The cap is compared only after an append and at the end of a page that has `Contents`. So the scan still returns the first JSON key of the first page with `Contents`, if that page has one (`Listing.CappedKeys`).
- `total_files_found` is the length of the capped key list, not the number of JSON keys before the cap.
- `files_processed` counts successful loads, not load attempts.

## Model

| member | source | states |
|---|---|---|
| `Listing.Lower` | backend/main.py:101 | `str.lower()` on ASCII: same length, each letter A to Z replaced by its lower-case form and every other character kept, so no upper-case ASCII letter remains |
| `Listing.IsJsonKeySuffix` | backend/main.py:101 | `key.lower().endswith('.json')` holds exactly when the key has at least five characters and its last five, lower-cased, are `.json` |
| `Listing.IsJsonKeyExamples` | backend/main.py:101 | `data.JSON` and `logs/2024/a.Json` are JSON keys; `data.json.gz`, `json` and `data.jsonl` are not |
| `Listing.ListedPageKeys` | backend/main.py:99-106 | the JSON keys of the first page that has `Contents`, all of them JSON keys; pages without `Contents` are passed over |
| `Listing.CappedKeys` | backend/main.py:96-106 | every selected key ends in `.json` after lower-casing; for `max_files >= 1` the keys are a prefix of the listing's JSON keys, at most `max_files` long; for `max_files <= 0` they are a prefix of the JSON keys of the first page with `Contents`, at most one long |
| `Listing.SelectKeys` | backend/main.py:96-106 | the nested loops return exactly `CappedKeys`, with the cap checked after each append and after each page that has `Contents`. `stopped` holds exactly when the scan leaves the page loop by a `break` (`ScanStops`) |
| `Listing.ScanPage` | backend/main.py:100-104 | the inner loop over one page appends that page's JSON keys in order and stops once the count reaches the cap; it always admits at least one key |
| `Listing.ScanOutcome` | backend/main.py:98-106 | the scan fails with the paginator's error only when it does not stop on the delivered pages. Without a failure, or when the scan stops, the result is `CappedKeys`. A failing scan had taken every delivered JSON key |
| `Listing.StoppedScanIgnoresLaterPages` | backend/main.py:98-106 | once the scan stops on some pages, adding later pages changes neither the stop nor the selected keys, so pages the paginator was never asked for cannot matter |
| `Listing.UnstoppedScanTakesAll` | backend/main.py:98-106 | a scan that runs out of pages without a `break` has selected every JSON key of the listing |
| `Listing.ListedPageKeysPrefix` | backend/main.py:99-102 | the JSON keys of the first page with `Contents` lead the listing's JSON keys: the pages before it contribute none |
| `Listing.JsonKeysStep` | backend/main.py:98-102 | the JSON keys of the first `p + 1` pages are those of the first `p` pages followed by page `p`'s, and they lead the whole listing's JSON keys |
| `Listing.CappedKeysSubsequence` | backend/main.py:98-106 | the selected keys are a prefix of the listing's JSON keys and an order-preserving subsequence of all its keys; with a cap of zero or less, a subsequence of the keys of the first page that has `Contents` |
| `Listing.NonPositiveCapFirstListedPage` | backend/main.py:99-106 | with `max_files <= 0`, the scan selects no key exactly when the first page with `Contents` has no JSON key; no page with `Contents` selects no key |
| `Listing.JsonEntries` | backend/main.py:73-79 | the kept objects all have JSON keys, and there are no more of them than objects |
| `Listing.JsonEntriesSubsequence` | backend/main.py:72-79 | the kept keys are an order-preserving subsequence of the listed keys |
| `Listing.JsonEntriesComplete` | backend/main.py:73-79 | every listed object with a JSON key is kept |
| `Listing.JsonEntriesAppend` | backend/main.py:71-79 | filtering distributes over concatenation, so page-by-page filtering equals filtering the whole listing |
| `Listing.PageJsonFiles` | backend/main.py:73-79 | the inner loop over one page appends exactly that page's JSON objects, in page order, to the files found so far |
| `Listing.ListJsonFiles` | backend/main.py:70-84 | `/list_files` returns every JSON object of the listing, with no cap; its keys are the listing's JSON keys and `count` equals the number of files |
| `Api.ListFiles` | backend/main.py:63-86 | the loop reads every page, so a failing page request becomes a 500 carrying the error text; otherwise the files are all JSON objects of the listing and `count` is their number |
| `Loading.LoadJsonFile` | backend/main.py:39-46 | the load yields `None` exactly when the fetch fails, the body does not parse, or it parses to JSON `null`; otherwise it yields the parsed document, which is not `null` |
| `Loading.LoadedDocumentsNotNull` | backend/main.py:119 | no document that survives the `is not None` filter is JSON `null` |
| `Loading.LoadAll` | backend/main.py:112-116 | the mapped loads keep input order: slot `i` holds the outcome for key `i` |
| `Loading.DropFailures` | backend/main.py:118-119 | the result is empty exactly when every load failed; every kept document was a successful outcome; it is never longer than the input |
| `Loading.DropFailuresSubsequence` | backend/main.py:118-119 | the kept documents are the successes in their original relative order (an order-preserving subsequence) |
| `Loading.DropFailuresKeepsSuccesses` | backend/main.py:119 | every successful outcome survives the filter |
| `Loading.DropFailuresNoneFailed` | backend/main.py:119 | when no load failed, all documents are kept in order |
| `Loading.DropFailuresAppend` | backend/main.py:119 | filtering distributes over concatenation of outcome lists |
| `Merge.MergeJsonData` | backend/main.py:48-61 | no documents give `{}`; all-array documents give `{"merged_data": concatenation}`; otherwise, including any mix of arrays and objects, `{"files": …}` with `file_i` holding document `i` |
| `Merge.Merged` | backend/main.py:48-61 | the merge result always has one of the three shapes: `{}`, `{"merged_data": [...]}` or `{"files": {...}}` |
| `Merge.FileKey` | backend/main.py:60 | `f"file_{i}"`: the text `file_` followed by the decimal digits of `i` |
| `Merge.NumberedEntries` | backend/main.py:58-60 | entry `i` is `("file_i", document i)` for every document |
| `Merge.ConcatAppend` | backend/main.py:55 | the concatenation keeps document order: concatenating two runs of documents is concatenating their results |
| `Merge.ConcatSingle` | backend/main.py:55 | a single array contributes exactly its items |
| `Merge.ConcatLength` | backend/main.py:55 | `merged_data` has as many items as all the arrays together |
| `Merge.ConcatAt` | backend/main.py:55 | item `k` of document `i` sits right after all items of the documents before `i` |
| `Merge.FileKeyInjective` | backend/main.py:60 | different indices give different `file_i` keys |
| `Merge.FreshFileKey` | backend/main.py:59-60 | when document `i` is added, key `file_i` is not yet present, so the dict assignment appends |
| `Merge.NumberedFilesLookup` | backend/main.py:58-60 | looking up `file_i` in `merged["files"]` gives document `i` |
| `Merge.NumberedFilesKeys` | backend/main.py:58-60 | the keys of `merged["files"]` are exactly `file_0` … `file_{n-1}` |
| `Merge.NumberedFilesValues` | backend/main.py:155 | `merged["files"].values()` gives the documents back in order |
| `Json.Put` | backend/main.py:60 | assigning a new key appends it; the key then maps to the value; all other keys are unchanged |
| `Visualization.NumericIndices` | backend/main.py:167 | the numeric columns, as increasing positions, are all numeric, and every numeric column is among them |
| `Visualization.ChooseChart` | backend/main.py:167-176 | the choice fails (the `IndexError` of `df.columns[0]`) exactly when the frame has no columns; a value-count bar is of the first column and is drawn only when no column is numeric |
| `Visualization.ScatterIffTwoNumeric` | backend/main.py:168-169 | a scatter plot is chosen exactly when at least two columns are numeric |
| `Visualization.ScatterAxes` | backend/main.py:168-169 | the scatter plot's x and y are the first and second numeric columns, in column order |
| `Visualization.HistogramIffOneNumeric` | backend/main.py:170-171 | a histogram is chosen exactly when exactly one column is numeric, and it is of that column |
| `Visualization.Contribution` | backend/main.py:155-162 | a file value contributes rows exactly when it is a list or a dict that pandas accepts: a list gives its items, a dict gives itself as one row |
| `Visualization.Frames` | backend/main.py:154-162 | at most one frame per file value, each one a frame pandas accepts |
| `Visualization.FrameRows` | backend/main.py:150-163 | the empty merge result raises the `KeyError` on `"files"`; no frame happens only for the `files` shape; a `merged_data` frame that does not raise is built from rows pandas accepts |
| `Visualization.Plot` | backend/main.py:165-178 | no columns raise the `IndexError` of `df.columns[0]`; a successful plot is the rendering of the chart `ChooseChart` picks |
| `Visualization.ExtractFrames` | backend/main.py:154-162 | the loop appends, in file order, a list file's rows or a dict file's single row, and skips other shapes and frames that raise |
| `Visualization.FramesEmpty` | backend/main.py:163 | there is no frame (`df is None`) exactly when no file value produces one |
| `Visualization.FramesOfDicts` | backend/main.py:159-160 | when every file is a dict pandas accepts, the frame's rows are those dicts in file order |
| `Visualization.FramesOfLists` | backend/main.py:157-158 | when every file is a list pandas accepts, the frame's rows are the concatenated lists |
| `Visualization.FrameRowsOfArrays` | backend/main.py:150-151 | for the `merged_data` shape, the frame is built from the concatenated items |
| `Visualization.FrameRowsOfFiles` | backend/main.py:152-163 | for the `files` shape, the frames come from the documents themselves, in order; none at all gives no frame |
| `Visualization.VisualizationOutcome` | backend/main.py:165-180 | a null visualization happens exactly when there is no frame |
| `Visualization.Visualize` | backend/main.py:148-180 | returns the figure for the frame, null when there is no frame, or the error raised on the way |
| `Api.Respond` | backend/main.py:182-197 | both response dicts report `success: true` and the two counts; a visualization error leaves the figure null and is reported as `visualization_error` |
| `Api.AnalyzeBody` | backend/main.py:90-197 | a paginator error the scan reaches is raised on; no selected key raises 404 "No JSON files found…"; all loads failing raises 500 "Failed to load any JSON files"; an agent error is raised on; otherwise `success` is true, `files_processed` counts the successes, `total_files_found` is the capped key count, and `1 <= files_processed <= total_files_found <= max(max_files, 1)` |
| `Api.HandleAsWritten` | backend/main.py:199-200 | every exception, including the handler's own `HTTPException`s, becomes a 500 with `str(e)` |
| `Api.HandleCorrected` | backend/main.py:199-200 | the handler's own `HTTPException`s reach the client unchanged; only other exceptions become a 500 |
| `Api.AnalyzeDataAsWritten` | backend/main.py:88-200 | every failure reaches the client as status 500: a paginator error with its text, no selected key as "404: No JSON files found…", no loaded file as "500: Failed to load any JSON files"; a success has `1 <= files_processed <= total_files_found` |
| `Api.AnalyzeData` | backend/main.py:88-200 | no selected key gives 404; no loaded file gives 500 "Failed to load any JSON files"; a paginator error the scan reaches gives 500; a success has `1 <= files_processed <= total_files_found` |
| `Api.HttpExceptionText` | backend/main.py:199-200 | `str(e)` of an `HTTPException` is its status in decimal digits, then ": ", then the detail, which can be read back from the text |
| `Api.NoFilesAnswered500AsWritten` | backend/main.py:108-109 | the 404 raised for "no JSON files" turns into a 500 as written, and stays a 404 when corrected |

## Left out

- FastAPI app, routes, CORS middleware, `QueryRequest` validation and the uvicorn start-up (backend/main.py:1-37, 202-204): web-framework glue.
- boto3 client, paginator and `get_object` body reading: network I/O. The listing and each object body are parameters, both with a failure outcome.
- `json.loads` and UTF-8 decoding: a foreign parser. Its outcome is a parameter.
- The `ThreadPoolExecutor` and its worker count: concurrency. Only its order-preservation matters, so the loads are a sequential map.
- The LangChain JSON agent, the OpenAI model and the text of the enhanced prompt (backend/main.py:128-145): an external LLM. The agent is a parameter that gets the merged document and the query, and returns an answer or an error.
- pandas dtype inference, `pd.concat` and plotly figure construction and encoding: foreign libraries. The kinds of the frame's columns are one function of the rows the frame is built from, which ignores the dtype changes `pd.concat` can cause. The bar chart records only its column, not its value counts.
- `Listing.Lower` (backend/main.py:74 and 101): lower-cases only the letters A to Z, where `str.lower()` covers all of Unicode. For `.lower().endswith('.json')` this decides the same keys: only U+0130 lower-cases to more than one character, and no non-ASCII character lower-cases to `.`, `j`, `s`, `o` or `n`.
- `max_files` given as `null`: the comparison with `None` would raise `TypeError`, which the handler turns into a 500. The model's cap is always an integer.
- `Api.ExceptionText`: renders an `HTTPException` as "status: detail", as Starlette's `HTTPException.__str__` does. That rendering is not part of `backend/main.py` and depends on the Starlette version.
- JSON numbers are kept as their literal text: nothing in the core computes with them.

## Findings

| source | as written | input that shows it | evidently intended | confidence | as-written member | corrected member |
|---|---|---|---|---|---|---|
| backend/main.py:108-109 | the 404 raised when no JSON key is found is inside the `try`, so `except Exception` at lines 199-200 catches it and re-raises it as a 500 with detail "404: No JSON files found in the specified bucket and prefix" | a bucket prefix whose listing has no key ending in `.json` | the client receives 404 "No JSON files found in the specified bucket and prefix" | high, not executed | `Api.AnalyzeDataAsWritten`, `Api.NoFilesAnswered500AsWritten` | `Api.AnalyzeData`, `Api.HandleCorrected` |
