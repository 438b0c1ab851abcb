/** src/examples/product-search.ts: `runProductSearch`. The guard and the
    request are pure; the run constructs a searcher, awaits one call and
    logs the response. */
module ProductSearch {
  import opened Wrappers
  import opened JsValues
  import opened Queries
  import opened Client
  import opened Options
  import opened Capture

  /** The callback given to `pagination(...)`: whatever the builder held,
      it now asks for page 1 of 30 results. */
  function ConfigurePagination(p: PaginationBuilder): (r: PaginationBuilder)
    ensures r == PaginationBuilder(Some(30), Some(1))
  {
    p.SetPageSize(30).SetPage(1)
  }

  /** The callback given to `facets(...)`: the facets already requested
      are kept, followed by brand, the product sales-price range and the
      `Size` variant specification, in that order. */
  function ConfigureFacets(f: FacetBuilder): (r: FacetBuilder)
    ensures r.facets == f.facets + [BrandFacet, SalesPriceRangeFacet("Product"), VariantSpecificationFacet("Size")]
  {
    f.AddBrandFacet().AddSalesPriceRangeFacet("Product").AddVariantSpecificationFacet("Size")
  }

  /** The request the builder chain produces. */
  function ProductSearchQuery(): (r: ProductSearchRequest)
    ensures r.settings == Settings("da-DK", "DKK", "Search Page", Anonymous)
    ensures r.productProperties == Some(SelectedProperties(true))
    ensures r.variantProperties == Some(SelectedProperties(true))
    ensures r.term == Some("laptop")
    ensures r.pagination == PaginationBuilder(Some(30), Some(1))
    ensures r.facets == [BrandFacet, SalesPriceRangeFacet("Product"), VariantSpecificationFacet("Size")]
  {
    var settings := Settings("da-DK", "DKK", "Search Page", Anonymous);
    ProductSearchBuilder.New(settings)
      .SetSelectedProductProperties(SelectedProperties(displayName := true))
      .SetSelectedVariantProperties(SelectedProperties(displayName := true))
      .SetTerm("laptop")
      .Pagination(ConfigurePagination)
      .Facets(ConfigureFacets)
      .Build()
  }

  /** What `runProductSearch(options)` does against a service answering `answer`. */
  function ProductSearchTrace(options: RunOptions, answer: Call -> Reply): (t: Trace)
    ensures !HasRequiredFields(options) ==> t == Trace([], [], [], Fail(ErrorInstance(MissingFieldsMessage)))
    ensures HasRequiredFields(options) ==>
      var binding := Credentials(options.datasetId.value, options.apiKey.value, options.serverUrl.value);
      var call := SearchProductsCall(binding, ProductSearchQuery());
      t.searchers == [binding] && t.calls == [call] &&
      (answer(call).Response? ==> t.logged == [[answer(call).body]] && t.outcome == Pass) &&
      (answer(call).Rejected? ==> t.logged == [] && t.outcome == Fail(answer(call).error))
  {
    match ValidateOptions(options)
    case Failure(message) => Trace([], [], [], Fail(ErrorInstance(message)))
    case Success(binding) =>
      var call := SearchProductsCall(binding, ProductSearchQuery());
      match answer(call)
      case Response(body) => Trace([binding], [call], [[body]], Pass)
      case Rejected(error) => Trace([binding], [call], [], Fail(error))
  }

  /** `await runProductSearch(options)`. */
  method RunProductSearch(options: RunOptions, backend: Backend, console: Console) returns (outcome: Outcome<Thrown>)
    requires console.Valid()
    modifies backend, console`printed, console.Captures()
    ensures var t := ProductSearchTrace(options, backend.answer);
      outcome == t.outcome &&
      backend.searchers == old(backend.searchers) + t.searchers &&
      backend.calls == old(backend.calls) + t.calls &&
      console.LoggedSince(t.logged)
  {
    BuffersAllocated(console.log);
    var validated := ValidateOptions(options);
    if validated.Failure? {
      return Fail(ErrorInstance(validated.error));
    }
    var binding := validated.value;
    var request := ProductSearchQuery();
    var searcher := new Searcher(binding.datasetId, binding.apiKey, binding.serverUrl, backend);
    var reply := searcher.SearchProducts(request);
    if reply.Rejected? {
      return Fail(reply.error);
    }
    console.Log([reply.body]);
    outcome := Pass;
  }
}
