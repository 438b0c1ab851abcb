/** src/App.tsx: the page component. Its React state is the fields of the
    `App` class; `HandleRun` is the Run button's handler; the header and
    the output area are pure functions of that state. */
module Page {
  import opened Wrappers
  import opened Strings
  import opened JsValues
  import opened Client
  import opened Options
  import opened Capture
  import opened ExampleResolver
  import opened ProductSearch
  import opened SearchTermPrediction

  /** The two example runners. */
  datatype Example = ProductSearchExample | SearchTermPredictionExample

  /** Which runner the Run handler awaits for a selection. */
  function Dispatch(selected: string): (e: Example)
    ensures e == ProductSearchExample <==> selected == ProductSearchId
  {
    if selected == ProductSearchId then ProductSearchExample else SearchTermPredictionExample
  }

  /** What the dispatched example does. */
  function ExampleTrace(selected: string, options: RunOptions, answer: Call -> Reply): Trace
  {
    match Dispatch(selected)
    case ProductSearchExample => ProductSearchTrace(options, answer)
    case SearchTermPredictionExample => PredictionTrace(options, answer)
  }

  /** `{ datasetId, apiKey, serverUrl }` built from the form's fields, which
      are always strings. */
  function FormOptions(datasetId: string, apiKey: string, serverUrl: string): (o: RunOptions)
    ensures HasRequiredFields(o) <==> datasetId != "" && apiKey != "" && serverUrl != ""
  {
    RunOptions(Some(datasetId), Some(apiKey), Some(serverUrl))
  }

  /** The line the handler's `catch` pushes: `Error: ` followed by the
      message of an `Error`, or by `String(error)` for anything else. The
      conversion of a thrown object or function can itself throw, and then the `catch`
      block throws that instead of pushing a line. */
  function ErrorLine(render: Renderer, error: Thrown): (r: Result<string, Thrown>)
    ensures r.Success? ==> |r.value| >= 7 && r.value[..7] == "Error: "
    ensures error.ErrorInstance? ==> r == Success("Error: " + error.message)
    ensures error.OtherThrown? && error.value.Str? ==> r == Success("Error: " + error.value.s)
    ensures error.OtherThrown? && StringOf(render, error.value).Success? ==>
              r == Success("Error: " + StringOf(render, error.value).value)
    ensures r.Failure? <==> error.OtherThrown? && error.value.ConvertsThroughOwnMethods() && render.objectText(error.value).Failure?
    ensures r.Failure? ==> r.error == render.objectText(error.value).error
  {
    match error
    case ErrorInstance(message) => Success("Error: " + message)
    case OtherThrown(value) =>
      match StringOf(render, value)
      case Success(text) => Success("Error: " + text)
      case Failure(thrown) => Failure(thrown)
  }

  /** What escapes the `catch` block: the error thrown while converting
      the caught value, if that conversion throws. */
  function CatchEscapes(render: Renderer, outcome: Outcome<Thrown>): (r: Option<Thrown>)
    ensures r.Some? <==> outcome.Fail? && ErrorLine(render, outcome.error).Failure?
    ensures r.Some? ==> outcome.error.OtherThrown? && outcome.error.value.ConvertsThroughOwnMethods() &&
                        r.value == render.objectText(outcome.error.value).error
  {
    if outcome.Fail? && ErrorLine(render, outcome.error).Failure? then
      Some(ErrorLine(render, outcome.error).error)
    else
      None
  }

  /** A thrown function whose own `toString` throws makes the `catch`
      throw as well, just as a bare object does. */
  lemma ThrownFunctionCanEscape(render: Renderer, handle: nat)
    requires render.objectText(Callable(handle)).Failure?
    ensures CatchEscapes(render, Fail(OtherThrown(Callable(handle)))) ==
            Some(render.objectText(Callable(handle)).error)
  {
  }

  /** The buffer at the end of a run: one line per `console.log` call made
      during it, then the error line if the example threw and its error
      could be turned into a line. */
  function RunOutput(render: Renderer, t: Trace): (r: seq<string>)
    ensures |r| == |t.logged| || |r| == |t.logged| + 1
    ensures forall k :: 0 <= k < |t.logged| ==> r[k] == Format(render, t.logged[k])
    ensures |r| == |t.logged| + 1 <==> t.outcome.Fail? && CatchEscapes(render, t.outcome).None?
    ensures |r| == |t.logged| + 1 ==> r[|t.logged|] == ErrorLine(render, t.outcome.error).value
  {
    var caught := ErrorLine(render, if t.outcome.Fail? then t.outcome.error else ErrorInstance(""));
    FormatAll(render, t.logged) + if t.outcome.Fail? && caught.Success? then [caught.value] else []
  }

  /** A run ends with either the one formatted response line, or exactly
      one error line (nothing is logged before a throw), or nothing at all
      when the error line cannot be built. A guard failure gives the fixed
      message and sends nothing. */
  lemma RunOutputShape(render: Renderer, selected: string, options: RunOptions, answer: Call -> Reply)
    ensures var t := ExampleTrace(selected, options, answer);
      var out := RunOutput(render, t);
      (t.outcome.Pass? ==> |t.logged| == 1 && |t.logged[0]| == 1 && out == [RenderArg(render, t.logged[0][0])]) &&
      (t.outcome.Fail? && CatchEscapes(render, t.outcome).None? ==> out == [ErrorLine(render, t.outcome.error).value]) &&
      (CatchEscapes(render, t.outcome).Some? ==> out == [])
    ensures !HasRequiredFields(options) ==>
      var t := ExampleTrace(selected, options, answer);
      RunOutput(render, t) == ["Error: " + MissingFieldsMessage] && t.searchers == [] && t.calls == []
  {
    var t := ExampleTrace(selected, options, answer);
    if t.outcome.Pass? {
      FormatOne(render, t.logged[0][0]);
    }
  }

  /** With the guard passed, exactly one call is sent, by a searcher bound
      to the given values, and it is a product search iff the selection is
      `product-search`. */
  lemma DispatchSendsOneCall(selected: string, options: RunOptions, answer: Call -> Reply)
    requires HasRequiredFields(options)
    ensures var t := ExampleTrace(selected, options, answer);
      var binding := Credentials(options.datasetId.value, options.apiKey.value, options.serverUrl.value);
      t.searchers == [binding] && |t.calls| == 1 && t.calls[0].binding == binding &&
      (t.calls[0].SearchProductsCall? <==> selected == ProductSearchId) &&
      (t.calls[0].SearchProductsCall? ==> t.calls[0].productRequest == ProductSearchQuery()) &&
      (t.calls[0].SearchTermPredictionCall? ==> t.calls[0].predictionRequest == PredictionQuery())
  {
  }

  /** The two examples send the same settings except for the currency code. */
  lemma SettingsDifferOnlyInCurrency()
    ensures ProductSearchQuery().settings.(currency := "eur") == PredictionQuery().settings
    ensures ProductSearchQuery().settings.currency == "DKK"
  {
  }

  const OutputPlaceholder := "Click \"Run\" to execute the selected example"

  /** The text of the output area: the placeholder while there is no
      output, a single line as it is, several lines one below the other. */
  function OutputText(output: seq<string>): (r: string)
    ensures output == [] ==> r == OutputPlaceholder
    ensures |output| == 1 ==> r == output[0]
  {
    if |output| > 0 then Join(output, '\n') else OutputPlaceholder
  }

  /** An empty output shows the placeholder; otherwise the area shows the
      lines, one per line, and splitting at newlines gives them back. */
  lemma {:induction false} OutputTextShowsLines(output: seq<string>)
    ensures output == [] ==> OutputText(output) == OutputPlaceholder
    ensures output != [] && (forall i :: 0 <= i < |output| ==> '\n' !in output[i]) ==>
      Split(OutputText(output), '\n') == output
  {
    if output != [] && (forall i :: 0 <= i < |output| ==> '\n' !in output[i]) {
      SplitJoin(output, '\n');
    }
  }

  /** The first option carrying `id`, as the header's `find` looks it up. */
  function FindOption(options: seq<ExampleOption>, id: string): (r: Option<ExampleOption>)
    ensures r.None? <==> !IsOfferedIn(options, id)
    ensures r.Some? ==> exists i :: 0 <= i < |options| && options[i] == r.value && r.value.id == id &&
                                    forall j :: 0 <= j < i ==> options[j].id != id
  {
    if |options| == 0 then None
    else if options[0].id == id then Some(options[0])
    else
      var rest := FindOption(options[1..], id);
      if rest.Some? then
        assert exists i :: 0 <= i < |options| && options[i] == rest.value &&
                           forall j :: 0 <= j < i ==> options[j].id != id by {
          var k :| 0 <= k < |options[1..]| && options[1..][k] == rest.value && rest.value.id == id &&
                   forall j :: 0 <= j < k ==> options[1..][j].id != id;
          assert options[k + 1] == rest.value;
          forall j | 0 <= j < k + 1 ensures options[j].id != id {
            if j > 0 { assert options[j] == options[1..][j - 1]; }
          }
        }
        rest
      else
        assert !IsOfferedIn(options, id) by {
          forall i | 0 <= i < |options| ensures options[i].id != id {
            if i > 0 { assert options[i] == options[1..][i - 1]; }
          }
        }
        rest
  }

  /** The header: the selected option's title, or "Search Term Prediction". */
  function HeaderLabel(selected: string): (r: string)
    ensures selected == ProductSearchId ==> r == "Product Search"
    ensures selected != ProductSearchId ==> r == "Search Term Prediction"
  {
    assert selected == ProductSearchId ==> ExampleOptions[1].id == selected;
    assert selected == SearchTermPredictionId ==> ExampleOptions[0].id == selected;
    match FindOption(ExampleOptions, selected)
    case Some(option) => option.title
    case None => "Search Term Prediction"
  }

  /** The title of the example a run dispatches to. */
  function ExampleTitle(e: Example): string
  {
    match e
    case ProductSearchExample => "Product Search"
    case SearchTermPredictionExample => "Search Term Prediction"
  }

  /** The header always names the example that Run would execute, whatever
      the selection holds. */
  lemma HeaderNamesDispatchedExample(selected: string)
    ensures HeaderLabel(selected) == ExampleTitle(Dispatch(selected))
  {
  }

  /** The page component's state. */
  class App {
    var selectedExample: string
    var datasetId: string
    var apiKey: string
    var serverUrl: string
    var output: seq<string>
    var isRunning: bool
    const console: Console
    const backend: Backend

    /** The first render: the selection comes from the query parameters
        through the allow-list; the fields are empty. */
    constructor (example: Option<string>, file: Option<string>, console: Console, backend: Backend)
      ensures selectedExample == InitialExampleId(example, file)
      ensures datasetId == "" && apiKey == "" && serverUrl == ""
      ensures output == [] && !isRunning
      ensures this.console == console && this.backend == backend
    {
      selectedExample := InitialExampleId(example, file);
      datasetId, apiKey, serverUrl := "", "", "";
      output := [];
      isRunning := false;
      this.console := console;
      this.backend := backend;
    }

    /** The part of `handleRun` up to its `catch`: mark the run as in
        progress, install a capture wrapper around the current log
        function, and await the selected example. */
    method StartRun() returns (logs: LogBuffer, originalLog: LogFn, outcome: Outcome<Thrown>)
      requires console.Valid()
      modifies this`isRunning, backend, console, console.Captures()
      ensures fresh(logs) && originalLog == old(console.log)
      ensures console.log == CapturingLog(logs, originalLog) && console.Valid()
      ensures isRunning
      ensures var t := ExampleTrace(selectedExample, FormOptions(datasetId, apiKey, serverUrl), backend.answer);
        outcome == t.outcome &&
        logs.lines == FormatAll(console.render, t.logged) &&
        backend.searchers == old(backend.searchers) + t.searchers &&
        backend.calls == old(backend.calls) + t.calls &&
        console.printed == old(console.printed) + t.logged &&
        forall b :: b in Buffers(originalLog) ==>
          old(allocated(b)) && b.lines == old(b.lines) + FormatAll(console.render, t.logged)
    {
      isRunning := true;
      var options := FormOptions(datasetId, apiKey, serverUrl);
      BuffersAllocated(console.log);
      logs := new LogBuffer();
      originalLog := console.log;
      console.log := CapturingLog(logs, originalLog);
      if selectedExample == ProductSearchId {
        outcome := RunProductSearch(options, backend, console);
      } else {
        outcome := RunSearchTermPrediction(options, backend, console);
      }
    }

    /** `handleRun` as written: the `catch` turns a throw into one error
        line, then the log is restored and the buffer shown. The restore,
        `setOutput` and `setIsRunning(false)` are not in a `finally`, so
        when `String(error)` throws inside the `catch` the handler rejects
        with that error before any of them runs: the wrapper stays
        installed, the output keeps its old value and the run never ends. */
    method HandleRunAsWritten() returns (escaped: Option<Thrown>)
      requires console.Valid()
      modifies this`output, this`isRunning, backend, console, console.Captures()
      ensures console.Valid()
      ensures var t := ExampleTrace(selectedExample, FormOptions(datasetId, apiKey, serverUrl), backend.answer);
        escaped == CatchEscapes(console.render, t.outcome) &&
        backend.searchers == old(backend.searchers) + t.searchers &&
        backend.calls == old(backend.calls) + t.calls
      ensures var t := ExampleTrace(selectedExample, FormOptions(datasetId, apiKey, serverUrl), backend.answer);
        escaped.None? ==>
          console.log == old(console.log) && !isRunning &&
          output == RunOutput(console.render, t) && console.LoggedSince(t.logged)
      ensures var t := ExampleTrace(selectedExample, FormOptions(datasetId, apiKey, serverUrl), backend.answer);
        escaped.Some? ==>
          isRunning && output == old(output) &&
          console.log.CapturingLog? && console.log.original == old(console.log) &&
          fresh(console.log.buffer) && console.log.buffer.lines == FormatAll(console.render, t.logged) &&
          console.printed == old(console.printed) + t.logged &&
          forall b :: b in Buffers(old(console.log)) ==>
            old(allocated(b)) && b.lines == old(b.lines) + FormatAll(console.render, t.logged)
    {
      var logs, originalLog, outcome := StartRun();
      if outcome.Fail? {
        var line := ErrorLine(console.render, outcome.error);
        if line.Failure? {
          // The template literal's `String(error)` threw: nothing after the
          // `catch` block runs.
          return Some(line.error);
        }
        logs.Push(line.value);
      }
      console.log := originalLog;
      output := logs.lines;
      isRunning := false;
      escaped := None;
    }

    /** `handleRun` with the restore, `setOutput` and `setIsRunning(false)`
        moved into a `finally`: whatever the example and the `catch` do,
        the original log function is back, the run has ended and the
        output is the run's buffer; an error thrown by the `catch` is
        passed on afterwards. */
    method HandleRun() returns (escaped: Option<Thrown>)
      requires console.Valid()
      modifies this`output, this`isRunning, backend, console, console.Captures()
      ensures console.log == old(console.log)
      ensures !isRunning
      ensures var t := ExampleTrace(selectedExample, FormOptions(datasetId, apiKey, serverUrl), backend.answer);
        output == RunOutput(console.render, t) &&
        escaped == CatchEscapes(console.render, t.outcome) &&
        backend.searchers == old(backend.searchers) + t.searchers &&
        backend.calls == old(backend.calls) + t.calls &&
        console.LoggedSince(t.logged)
    {
      var logs, originalLog, outcome := StartRun();
      escaped := None;
      if outcome.Fail? {
        var line := ErrorLine(console.render, outcome.error);
        if line.Failure? {
          escaped := Some(line.error);
        } else {
          logs.Push(line.value);
        }
      }
      // finally
      console.log := originalLog;
      output := logs.lines;
      isRunning := false;
    }
  }

  /** A service that rejects every call with an object whose string
      conversion throws. */
  function RejectWithBareObject(call: Call): Reply
  {
    Rejected(OtherThrown(Composite(0)))
  }

  /** `String` of an object with neither `toString` nor `valueOf` throws a
      `TypeError`. */
  function CannotConvert(v: Value): Result<string, Thrown>
  {
    Failure(ErrorInstance("Cannot convert object to primitive value"))
  }

  function JsonOf(v: Value): string
  {
    "{}"
  }

  function NoText(v: Value): string
  {
    ""
  }

  /** Whichever example is selected, with the fields filled in the run
      sends one call, logs nothing and fails with the bare object. */
  lemma BareObjectRejectionTrace(selected: string)
    ensures var t := ExampleTrace(selected, FormOptions("dataset", "key", "https://example.test"), RejectWithBareObject);
      t.outcome == Fail(OtherThrown(Composite(0))) && t.logged == [] && |t.calls| == 1
  {
  }

  /** A run, as written, against a service that rejects with a bare
      object: the handler rejects, the capture wrapper is still installed
      around the runtime's own log function, and the run is still marked
      in progress. */
  method BareObjectRejectionAsWritten() returns (console: Console, app: App, dead: LogBuffer)
    ensures fresh(console) && fresh(dead) && console.Valid()
    ensures console.log == CapturingLog(dead, NativeLog) && dead.lines == []
    ensures app.isRunning
  {
    console := new Console(Renderer(JsonOf, NoText, CannotConvert));
    var backend := new Backend(RejectWithBareObject);
    app := new App(None, None, console, backend);
    app.datasetId, app.apiKey, app.serverUrl := "dataset", "key", "https://example.test";
    BareObjectRejectionTrace(app.selectedExample);
    var escaped := app.HandleRunAsWritten();
    dead := console.log.buffer;
  }

  /** After that run, no restore has happened, and a later `console.log`
      lands in the finished run's buffer, which nothing reads any more. */
  method BareObjectRejectionLeaksCapture() returns (restored: bool, running: bool, deadLines: seq<string>)
    ensures !restored && running && deadLines == ["later"]
  {
    var console, app, dead := BareObjectRejectionAsWritten();
    restored := console.log == NativeLog;
    running := app.isRunning;
    assert console.Captures() == {dead};
    console.Log([Str("later")]);
    FormatOne(console.render, Str("later"));
    deadLines := dead.lines;
  }

  /** The same run with the restore in a `finally`: the original log
      function is back, the run has ended with an empty output, and the
      conversion's error is passed on. */
  method BareObjectRejectionRestoresLog() returns (restored: bool, running: bool, output: seq<string>, escaped: Option<Thrown>)
    ensures restored && !running && output == []
    ensures escaped == Some(ErrorInstance("Cannot convert object to primitive value"))
  {
    var console := new Console(Renderer(JsonOf, NoText, CannotConvert));
    var backend := new Backend(RejectWithBareObject);
    var app := new App(None, None, console, backend);
    app.datasetId, app.apiKey, app.serverUrl := "dataset", "key", "https://example.test";
    escaped := app.HandleRun();
    restored := console.log == NativeLog;
    running := app.isRunning;
    output := app.output;
  }
}
