/** The request shapes the two examples build with the client library's
    fluent builders (`ProductSearchBuilder`, `SearchTermPredictionBuilder`).
    Each builder is an immutable value; every builder call returns the
    value with one part set, and `Build` hands the collected parts over as
    the request. What the library does with a request is not part of this
    model. */
module Queries {
  import opened Wrappers

  /** `UserFactory.anonymous()`. */
  datatype User = Anonymous

  /** The settings object both builders are constructed from. */
  datatype Settings = Settings(language: string, currency: string, displayedAtLocation: string, user: User)

  /** Which entity properties the response should carry. */
  datatype SelectedProperties = SelectedProperties(displayName: bool)

  /** A facet request, in the order the builder receives them. */
  datatype Facet =
    | BrandFacet
    | SalesPriceRangeFacet(priceSelectionStrategy: string)
    | VariantSpecificationFacet(key: string)

  /** The pagination builder handed to `pagination(p => ...)`. */
  datatype PaginationBuilder = PaginationBuilder(pageSize: Option<nat>, page: Option<nat>)
  {
    function SetPageSize(size: nat): PaginationBuilder { this.(pageSize := Some(size)) }
    function SetPage(n: nat): PaginationBuilder { this.(page := Some(n)) }
  }

  /** The facet builder handed to `facets(f => ...)`: the facets added so far. */
  datatype FacetBuilder = FacetBuilder(facets: seq<Facet>)
  {
    function AddBrandFacet(): FacetBuilder { FacetBuilder(facets + [BrandFacet]) }
    function AddSalesPriceRangeFacet(strategy: string): FacetBuilder { FacetBuilder(facets + [SalesPriceRangeFacet(strategy)]) }
    function AddVariantSpecificationFacet(key: string): FacetBuilder { FacetBuilder(facets + [VariantSpecificationFacet(key)]) }
  }

  /** A built product search request. */
  datatype ProductSearchRequest = ProductSearchRequest(
    settings: Settings,
    productProperties: Option<SelectedProperties>,
    variantProperties: Option<SelectedProperties>,
    term: Option<string>,
    pagination: PaginationBuilder,
    facets: seq<Facet>)

  /** `new ProductSearchBuilder(settings)` and its fluent calls. */
  datatype ProductSearchBuilder = ProductSearchBuilder(request: ProductSearchRequest)
  {
    static function New(settings: Settings): ProductSearchBuilder
    {
      ProductSearchBuilder(ProductSearchRequest(settings, None, None, None, PaginationBuilder(None, None), []))
    }
    function SetSelectedProductProperties(p: SelectedProperties): ProductSearchBuilder
    {
      ProductSearchBuilder(request.(productProperties := Some(p)))
    }
    function SetSelectedVariantProperties(p: SelectedProperties): ProductSearchBuilder
    {
      ProductSearchBuilder(request.(variantProperties := Some(p)))
    }
    function SetTerm(term: string): ProductSearchBuilder
    {
      ProductSearchBuilder(request.(term := Some(term)))
    }
    function Pagination(configure: PaginationBuilder -> PaginationBuilder): ProductSearchBuilder
    {
      ProductSearchBuilder(request.(pagination := configure(request.pagination)))
    }
    function Facets(configure: FacetBuilder -> FacetBuilder): ProductSearchBuilder
    {
      ProductSearchBuilder(request.(facets := configure(FacetBuilder(request.facets)).facets))
    }
    function Build(): ProductSearchRequest
    {
      request
    }
  }

  /** A built search term prediction request. */
  datatype PredictionRequest = PredictionRequest(settings: Settings, term: Option<string>, take: Option<nat>)

  /** `new SearchTermPredictionBuilder(settings)` and its fluent calls. */
  datatype SearchTermPredictionBuilder = SearchTermPredictionBuilder(request: PredictionRequest)
  {
    static function New(settings: Settings): SearchTermPredictionBuilder
    {
      SearchTermPredictionBuilder(PredictionRequest(settings, None, None))
    }
    function SetTerm(term: string): SearchTermPredictionBuilder
    {
      SearchTermPredictionBuilder(request.(term := Some(term)))
    }
    function Take(count: nat): SearchTermPredictionBuilder
    {
      SearchTermPredictionBuilder(request.(take := Some(count)))
    }
    function Build(): PredictionRequest
    {
      request
    }
  }
}
