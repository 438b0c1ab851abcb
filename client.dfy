/** The client library's `Searcher` and the remote service behind it,
    treated as opaque. The service's behaviour is an arbitrary function
    from the call it receives to a reply; a `Backend` object records, as
    ghost history, every searcher constructed and every call sent. */
module Client {
  import opened Wrappers
  import opened JsValues
  import opened Queries

  /** What a `Searcher` is bound to: `new Searcher(datasetId, apiKey, { serverUrl })`. */
  datatype Credentials = Credentials(datasetId: string, apiKey: string, serverUrl: string)

  /** One request sent to the service, with the searcher binding that sent it. */
  datatype Call =
    | SearchProductsCall(binding: Credentials, productRequest: ProductSearchRequest)
    | SearchTermPredictionCall(binding: Credentials, predictionRequest: PredictionRequest)

  /** How the awaited call settles: a response, or a thrown error. */
  datatype Reply = Response(body: Value) | Rejected(error: Thrown)

  /** The observable effect of one example run: the searchers constructed,
      the calls sent, the arguments of each `console.log` call, and how the
      run settled. */
  datatype Trace = Trace(
    searchers: seq<Credentials>,
    calls: seq<Call>,
    logged: seq<seq<Value>>,
    outcome: Outcome<Thrown>)

  /** The remote service. */
  class Backend {
    const answer: Call -> Reply
    ghost var searchers: seq<Credentials>
    ghost var calls: seq<Call>

    constructor (answer: Call -> Reply)
      ensures this.answer == answer && searchers == [] && calls == []
    {
      this.answer := answer;
      searchers := [];
      calls := [];
    }
  }

  /** The client library's `Searcher`. */
  class Searcher {
    const binding: Credentials
    const backend: Backend

    constructor (datasetId: string, apiKey: string, serverUrl: string, backend: Backend)
      modifies backend
      ensures binding == Credentials(datasetId, apiKey, serverUrl) && this.backend == backend
      ensures backend.searchers == old(backend.searchers) + [binding]
      ensures backend.calls == old(backend.calls)
    {
      binding := Credentials(datasetId, apiKey, serverUrl);
      this.backend := backend;
      new;
      backend.searchers := backend.searchers + [binding];
    }

    /** `searcher.searchProducts(request)`, awaited. */
    method SearchProducts(request: ProductSearchRequest) returns (reply: Reply)
      modifies backend
      ensures backend.calls == old(backend.calls) + [SearchProductsCall(binding, request)]
      ensures backend.searchers == old(backend.searchers)
      ensures reply == backend.answer(SearchProductsCall(binding, request))
    {
      var call := SearchProductsCall(binding, request);
      backend.calls := backend.calls + [call];
      reply := backend.answer(call);
    }

    /** `searcher.searchTermPrediction(request)`, awaited. */
    method SearchTermPrediction(request: PredictionRequest) returns (reply: Reply)
      modifies backend
      ensures backend.calls == old(backend.calls) + [SearchTermPredictionCall(binding, request)]
      ensures backend.searchers == old(backend.searchers)
      ensures reply == backend.answer(SearchTermPredictionCall(binding, request))
    {
      var call := SearchTermPredictionCall(binding, request);
      backend.calls := backend.calls + [call];
      reply := backend.answer(call);
    }
  }
}
