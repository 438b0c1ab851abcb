# Relewise code playground: a Dafny model of the page logic

The playground is a browser page. It collects a dataset id, an API key and a
server URL, runs one of two example queries against the Relewise search API,
and shows what the example logged. This project models what the page decides
for itself:

- **Example resolution.** Which example is selected at load time, taken from
  the `example` and `file` query parameters. `file` holds a path such as
  `src/search-term-prediction.ts`: the model takes its last `/`-segment and
  strips the extension with a hand-written form of the `/\.[^.]+$/`
  replacement. The result is then clamped to the two offered ids. This part
  is pure functions (`ExampleResolver`).
- **The Run handler.** `handleRun` swaps in a capturing `console.log`. It
  dispatches on the selection, and its `catch` turns a throw into one
  `Error: ...` line when the thrown value can be converted to a string. It
  then restores the original log function and shows the buffer. When the
  conversion itself throws, the code as written skips the restore (see
  "## Findings").
  The global console is a `Console` object whose `log` field holds the
  installed function. The capture wrapper pushes one formatted line onto a
  run-local `LogBuffer` and forwards the call to the function it replaced
  (`Capture`, `Page.App`).
- **The two examples.** Each example has a guard on its three
  required fields, which fails with a fixed message. It builds a fixed
  request and constructs a `Searcher` bound to the three values. It sends one
  call and logs the response once (`Options`, `ProductSearch`,
  `SearchTermPrediction`). The request builders are immutable values
  (`Queries`).

The client library and the remote service are opaque. A `Backend` object
holds the service's behaviour as a function from the call received to the
reply. It also records, as ghost history, every searcher constructed and every
call sent. The runtime's `JSON.stringify(v, null, 2)` and `String(v)` are opaque
functions in a `Renderer` value. `String` of a string is the string itself.
`String` of an object runs the object's own conversion methods, so it may
throw; its renderer function returns a `Result`.

Each example's observable effect is a `Trace`: the searchers constructed, the
calls sent, the arguments of each `console.log` call, and how the run settled.
Each run method is proved to have exactly the effect its trace function
describes. `Page.App.HandleRunAsWritten` follows the handler line by line.
`Page.App.HandleRun` is the handler with the restore in a `finally`, and it
is proved to leave exactly `RunOutput` of that trace on screen with the
original log function back.

With the restore on every path, `RunOutput` is a function of the selection,
the form fields, the service's answers and the renderer. The service is one
fixed function from call to reply, so it answers the same call the same way
every time. Against such a service, two runs from the same state show the
same lines, and the buffer of one run does not
leak into another. As written, the one path that skips the restore does leak
(`Page.BareObjectRejectionLeaksCapture`).

Files: `wrappers.dfy` (Option, Result, Outcome), `strings.dfy` (truthiness,
`split`, `join`, last index), `example_resolver.dfy`, `js_values.dfy`,
`capture.dfy`, `queries.dfy`, `client.dfy`, `options.dfy`,
`product_search.dfy`, `search_term_prediction.dfy`, `page.dfy`.

Two facts about the code that the model depends on:

- An empty `example` parameter counts as absent, so resolution falls
  through to `file` (`EmptyExampleFallsThrough`).
- On failure the buffer holds whatever was logged before the throw, then the
  error line. The exception is when converting the caught value throws (see
  "## Findings"): then nothing is pushed. In both examples nothing is logged
  before a throw can happen. So on failure the buffer is exactly the one
  error line, or empty when the line cannot be built (`RunOutputShape`). As
  written, that empty buffer is never shown, because the handler stops
  before `setOutput`.

## Model

| member | source | states |
|---|---|---|
| Strings.Split | src/App.tsx:20 | `split('/')` yields at least one piece, and no piece contains the separator |
| Strings.JoinSplit | src/App.tsx:20 | joining the pieces of a split with the separator gives back the original path |
| Strings.SplitJoin | src/App.tsx:213 | splitting the join of separator-free lines gives back exactly those lines |
| Strings.SplitAround | src/App.tsx:20 | splitting at one separator occurrence splits the text on each side independently and concatenates the pieces |
| Strings.JoinAppend | src/App.tsx:53 | characterises `Join` (`join(' ')`, `join('\n')`): joining two non-empty lists of pieces puts exactly one separator at the seam |
| Strings.JoinSnoc | src/App.tsx:213 | characterises `Join`: adding one more piece adds one separator and then that piece at the end |
| Strings.LastIndexOf | src/App.tsx:22 | the result is the position of the last occurrence: it holds the character and nothing after it does; `None` exactly when the character does not occur |
| ExampleResolver.StripExtension | src/App.tsx:22 | where `/\.[^.]+$/` matches (a dot followed by one or more non-dot characters up to the end), the result is the text before the match; with no match the segment is unchanged |
| ExampleResolver.StripExtensionEdgeCases | src/App.tsx:22 | `a.b.ts` gives `a.b`, `search-term-prediction.ts` gives `search-term-prediction`, `a.` is unchanged, `.ts` gives the empty string, a name without a dot is unchanged |
| ExampleResolver.ResolveExampleId | src/App.tsx:10-27 | a non-empty `example` is returned verbatim; with neither parameter usable the result is `search-term-prediction` |
| ExampleResolver.LastSegmentIsFinalComponent | src/App.tsx:20 | characterises `LastSegment`: `split('/').pop()` is the longest suffix without `/`: it is the whole path or it follows a `/` |
| ExampleResolver.LastSegmentOfPath | src/App.tsx:20 | a directory ending in `/` (or none) followed by a slash-free name has that name as its last segment |
| ExampleResolver.EmptyExampleFallsThrough | src/App.tsx:14-15 | an empty `example` resolves exactly as an absent one |
| ExampleResolver.ResolveFromFile | src/App.tsx:17-23 | without a usable `example`, `file` = `dir/stem.ext` resolves to `stem` for any directory part, any slash-free stem (dots allowed) and any non-empty dot-free extension |
| ExampleResolver.ResolveFromFileWithoutExtension | src/App.tsx:17-23 | without a usable `example`, a `file` whose last segment is non-empty and dot-free resolves to that segment |
| ExampleResolver.TrailingSlashGivesDefault | src/App.tsx:19-26 | without a usable `example`, a `file` ending in `/` resolves to `search-term-prediction` |
| ExampleResolver.DotfileResolvesToDefaultSelection | src/App.tsx:17-35 | a dotfile `file` such as `.ts` resolves to the empty id, and the allow-list turns the initial selection into `search-term-prediction` |
| ExampleResolver.HasOption | src/App.tsx:32 | `EXAMPLE_OPTIONS.some(opt => opt.id === id)` is true exactly when some option carries the id |
| ExampleResolver.ClampToOptions | src/App.tsx:30-35 | the result is always an offered id; it equals the input exactly when the input is offered, and is `search-term-prediction` otherwise |
| ExampleResolver.InitialExampleId | src/App.tsx:30-36 | the initial selection is one of the two option ids, and it is the resolved id whenever that id is offered |
| ExampleResolver.ExampleParamSelection | src/App.tsx:30-35 | an offered `example` is selected as given; any other non-empty `example` selects `search-term-prediction` |
| JsValues.StringOf | src/App.tsx:66 | `String` of a string is that string, of `null` is `null`, and of any other primitive is the runtime's `String`; only the conversion of an object other than `null` or of a function can throw, and theirs is the runtime's possibly throwing conversion |
| JsValues.RenderArg | src/App.tsx:50-52 | a string argument is logged as itself, `null` as `null`, any other object as its `JSON.stringify(arg, null, 2)` form, and every other argument (a primitive or a function) as its `String(arg)` |
| Capture.FormatOne | src/App.tsx:49-53 | characterises `Format`: a call with one argument gives that argument's rendering, with no separator |
| Capture.FormatAppend | src/App.tsx:49-53 | characterises `Format`: the renderings of one call's arguments are separated by exactly one space |
| Capture.FormatAllAppend | src/App.tsx:54 | consecutive calls contribute their lines in order, one line per call |
| Capture.LogBuffer.Push | src/App.tsx:54 | `logs.push` appends exactly the one line |
| Capture.Console.Log | src/App.tsx:48-56 | one `console.log` call appends exactly one formatted line to every capture buffer along the installed chain, and its arguments reach the runtime's sink once |
| Capture.Console.Call | src/App.tsx:54-55 | a capture wrapper pushes the formatted line and then forwards the same arguments to the function it replaced |
| Capture.CaptureWindowExample | src/App.tsx:47-70 | inside the window, logging `"x"` then an object gives the lines `x` and the object's JSON; after the original log is restored a further call reaches the sink but not the buffer |
| Options.ValidateOptions | src/examples/product-search.ts:13-20 | the guard fails exactly when a required field is absent or empty, always with the fixed message; on success it yields the three non-empty values unchanged (the guard at src/examples/search-term-prediction.ts:18-22 is the same) |
| Options.MissingFieldCases | src/examples/search-term-prediction.ts:13-22 | the default `{}` argument and any single empty field fail with the fixed message |
| Client.Searcher.constructor | src/examples/product-search.ts:45-47 | the searcher is bound to exactly the given dataset id, API key and server URL, and its construction is recorded |
| Client.Searcher.SearchProducts | src/examples/product-search.ts:49 | one product search call with this searcher's binding is recorded, and the reply is the service's answer to it |
| Client.Searcher.SearchTermPrediction | src/examples/search-term-prediction.ts:39 | one prediction call with this searcher's binding is recorded, and the reply is the service's answer to it |
| ProductSearch.ConfigurePagination | src/examples/product-search.ts:37 | whatever the builder held, the pagination asks for page 1 with 30 results per page |
| ProductSearch.ConfigureFacets | src/examples/product-search.ts:38-43 | the facets already requested are kept, followed by brand, the `Product` sales-price range and the `Size` variant specification, in that order |
| ProductSearch.ProductSearchQuery | src/examples/product-search.ts:22-43 | settings are `da-DK`, `DKK`, `Search Page`, an anonymous user; display name selected for products and variants; term `laptop`; page size 30, page 1; facets brand, sales-price range for `Product`, variant specification `Size`, in that order |
| ProductSearch.ProductSearchTrace | src/examples/product-search.ts:13-50 | a failed guard constructs no searcher, sends nothing, logs nothing and rejects with the fixed error; otherwise one searcher bound to the three values sends one call with the fixed request, a response is logged once and unchanged, and a rejection propagates with nothing logged |
| ProductSearch.RunProductSearch | src/examples/product-search.ts:13-51 | the run has exactly the effect of `ProductSearchTrace` on the searchers, the calls, the console and the outcome |
| SearchTermPrediction.PredictionQuery | src/examples/search-term-prediction.ts:28-37 | settings are `da-DK`, `eur`, `Search Page`, an anonymous user; term `laptop`; take 10 |
| SearchTermPrediction.PredictionTrace | src/examples/search-term-prediction.ts:13-40 | a failed guard constructs no searcher, sends nothing, logs nothing and rejects with the fixed error; otherwise one searcher bound to the three values sends one call with the fixed request, a response is logged once, and a rejection propagates with nothing logged |
| SearchTermPrediction.RunSearchTermPrediction | src/examples/search-term-prediction.ts:13-41 | the run has exactly the effect of `PredictionTrace` on the searchers, the calls, the console and the outcome |
| Page.Dispatch | src/App.tsx:59-63 | the product search runs exactly when the selection is `product-search`; any other selection runs the search term prediction |
| Page.FormOptions | src/App.tsx:60-62 | the options built from the form's fields pass the guard exactly when all three fields are non-empty |
| Page.DispatchSendsOneCall | src/App.tsx:58-63 | with the guard passed, one searcher bound to the three values sends exactly one call; it is a product search with the fixed product request iff the selection is `product-search`, and otherwise a prediction with the fixed prediction request |
| Page.ErrorLine | src/App.tsx:65-67 | an `Error` gives `Error: ` and its message; any other thrown value whose conversion succeeds gives `Error: ` followed by `String(error)` (a thrown string itself); the line always starts with `Error: `; building it fails exactly when the thrown value is an object or a function whose conversion throws, with that conversion's error |
| Page.CatchEscapes | src/App.tsx:64-68 | the `catch` block throws exactly when the example failed and its error line cannot be built, and what escapes is the conversion's error for a thrown object or function |
| Page.ThrownFunctionCanEscape | src/App.tsx:64-68 | a thrown function whose own `toString` throws makes the `catch` throw that error, just as a bare object does |
| Page.RunOutput | src/App.tsx:45-71 | the buffer holds one formatted line per `console.log` call in order, followed by one more line, the error line, exactly when the run failed and the `catch` did not throw |
| Page.RunOutputShape | src/App.tsx:64-72 | a successful run shows exactly the one rendered response; a failed run shows exactly one error line, or nothing when the error line cannot be built; a guard failure shows `Error: Missing required fields...` and sends nothing |
| Page.SettingsDifferOnlyInCurrency | src/examples/search-term-prediction.ts:28-33 | the two examples' settings are equal except that product search uses `DKK` and prediction uses `eur` |
| Page.OutputText | src/App.tsx:212-214 | with no output the area shows `Click "Run" to execute the selected example`; a single line is shown as it is |
| Page.OutputTextShowsLines | src/App.tsx:212-214 | an empty output shows the placeholder; otherwise splitting the shown text at newlines gives back the lines, when no line contains a newline |
| Page.FindOption | src/App.tsx:96 | `find` returns the first option with the id, and nothing exactly when no option has it |
| Page.HeaderLabel | src/App.tsx:95-98 | the header reads `Product Search` exactly for the `product-search` selection and `Search Term Prediction` for every other one, including an unknown id |
| Page.HeaderNamesDispatchedExample | src/App.tsx:95-98 | the header always names the example that Run would execute, including for an unknown selection |
| Page.App.constructor | src/App.tsx:30-41 | the first state has the resolved and clamped selection, empty fields, no output and not running |
| Page.App.StartRun | src/App.tsx:44-63 | the run is marked in progress, a fresh buffer's wrapper is installed around the previous log function, and the dispatched example's calls, log lines and outcome are exactly its trace |
| Page.App.HandleRunAsWritten | src/App.tsx:43-73 | when the `catch` does not throw, the original log function is back, the run has ended and the output is `RunOutput`; when `String(error)` throws, the handler rejects with that error while the wrapper is still installed, `isRunning` stays true, the output keeps its old value, and the buffers of wrappers installed before the run got exactly the run's log lines; the searchers and calls are those of the dispatched example either way |
| Page.App.HandleRun | src/App.tsx:43-73 | corrected form, with lines 70-72 in a `finally` (see "## Findings"): afterwards the original log function is back, `isRunning` is false, and the output is `RunOutput` of the run; every call also reached the functions that were installed before; the searchers and calls are exactly those of the dispatched example; an error thrown by the `catch` is passed on |
| Page.BareObjectRejectionLeaksCapture | src/App.tsx:64-72 | as written, a run whose example rejects with an object that cannot be converted leaves the wrapper installed and the run in progress, and a later `console.log` lands in that run's buffer |
| Page.BareObjectRejectionRestoresLog | src/App.tsx:64-72 | with the restore in a `finally`, the same run restores the runtime's log function, ends the run with an empty output and passes on the conversion's `TypeError` |

## Findings

| source | as written | input that shows it | evidently intended | confidence | as-written member | corrected member |
|---|---|---|---|---|---|---|
| src/App.tsx:64-72 | the restore `console.log = originalLog`, `setOutput(logs)` and `setIsRunning(false)` follow the `try`/`catch` instead of sitting in a `finally`, and the `catch` computes `String(error)`, which throws for some objects and functions | the awaited example rejects with `Object.create(null)` (or with a function whose `toString` throws): `String` throws a `TypeError` in the `catch`, the handler rejects, the capture wrapper stays installed, the Run button stays disabled, and every later `console.log` is pushed into the finished run's buffer | restore the log function and end the run on every path, including when the `catch` throws | not executed; medium | Page.App.HandleRunAsWritten, with Page.BareObjectRejectionLeaksCapture | Page.App.HandleRun, with Page.BareObjectRejectionRestoresLog |

## Left out

- React rendering, JSX, styles, `useState`/`useMemo` and the change handlers of the `<select>` and `<input>` elements: the state they hold is the public fields of `Page.App`.
- Page.App.HandleRun: the Running state (`isRunning` true while the example is awaited) is stated only as `StartRun`'s result. The disabled controls matter only for overlapping clicks, which a sequential model does not have.
- Page.App.HandleRun: an error that escapes the `catch` is returned as a value. What the browser does with the unhandled rejection of the click handler is not modelled.
- `URLSearchParams` parsing and percent-decoding (the application/x-www-form-urlencoded parser of the WHATWG URL Standard, section 5): the decoded `example` and `file` values are inputs.
- The internals of `@relewise/client` (`ProductSearchBuilder`, `SearchTermPredictionBuilder`, `Searcher`, `UserFactory`): the request builders keep only the parts they are given, and the service is an opaque function from call to reply. HTTP transport, authentication and the response schema are not modelled.
- What `JSON.stringify(arg, null, 2)` and `String(arg)` print for values other than strings: opaque functions. Inside the capture wrapper both are taken to succeed: a `JSON.stringify` that throws (a circular object) and a function argument whose own `toString` throws are not modelled, so a log call never throws. `String(error)` of a thrown object or function in the `catch` may throw, and that is modelled.
- The regular-expression engine: the single `/\.[^.]+$/` replacement is written out as `StripExtension`.
- `async`/`await`, promise settlement, and the real process-global `console.log` assignment: one sequential run against an explicit `Console` object.
- UTF-16 code units: strings are sequences of Dafny characters.
