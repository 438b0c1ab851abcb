/** src/examples/search-term-prediction.ts: `runSearchTermPrediction`.
    The same shape as the product search: a guard, a searcher bound to
    the three values, one awaited call, one log of the response. */
module SearchTermPrediction {
  import opened Wrappers
  import opened JsValues
  import opened Queries
  import opened Client
  import opened Options
  import opened Capture

  /** The request the builder chain produces. */
  function PredictionQuery(): (r: PredictionRequest)
    ensures r.settings == Settings("da-DK", "eur", "Search Page", Anonymous)
    ensures r.term == Some("laptop")
    ensures r.take == Some(10)
  {
    var settings := Settings("da-DK", "eur", "Search Page", Anonymous);
    SearchTermPredictionBuilder.New(settings)
      .SetTerm("laptop")
      .Take(10)
      .Build()
  }

  /** What `runSearchTermPrediction(options)` does against a service answering `answer`. */
  function PredictionTrace(options: RunOptions, answer: Call -> Reply): (t: Trace)
    ensures !HasRequiredFields(options) ==> t == Trace([], [], [], Fail(ErrorInstance(MissingFieldsMessage)))
    ensures HasRequiredFields(options) ==>
      var binding := Credentials(options.datasetId.value, options.apiKey.value, options.serverUrl.value);
      var call := SearchTermPredictionCall(binding, PredictionQuery());
      t.searchers == [binding] && t.calls == [call] &&
      (answer(call).Response? ==> t.logged == [[answer(call).body]] && t.outcome == Pass) &&
      (answer(call).Rejected? ==> t.logged == [] && t.outcome == Fail(answer(call).error))
  {
    match ValidateOptions(options)
    case Failure(message) => Trace([], [], [], Fail(ErrorInstance(message)))
    case Success(binding) =>
      var call := SearchTermPredictionCall(binding, PredictionQuery());
      match answer(call)
      case Response(body) => Trace([binding], [call], [[body]], Pass)
      case Rejected(error) => Trace([binding], [call], [], Fail(error))
  }

  /** `await runSearchTermPrediction(options)`. */
  method RunSearchTermPrediction(options: RunOptions, backend: Backend, console: Console) returns (outcome: Outcome<Thrown>)
    requires console.Valid()
    modifies backend, console`printed, console.Captures()
    ensures var t := PredictionTrace(options, backend.answer);
      outcome == t.outcome &&
      backend.searchers == old(backend.searchers) + t.searchers &&
      backend.calls == old(backend.calls) + t.calls &&
      console.LoggedSince(t.logged)
  {
    BuffersAllocated(console.log);
    var validated := ValidateOptions(options);
    if validated.Failure? {
      return Fail(ErrorInstance(validated.error));
    }
    var binding := validated.value;
    var searcher := new Searcher(binding.datasetId, binding.apiKey, binding.serverUrl, backend);
    var request := PredictionQuery();
    var reply := searcher.SearchTermPrediction(request);
    if reply.Rejected? {
      return Fail(reply.error);
    }
    console.Log([reply.body]);
    outcome := Pass;
  }
}
