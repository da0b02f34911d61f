/** The product search request: a builder of optional search settings and the payload it builds. */
module ProductSearchRequests {
  import opened Wrappers
  import opened JavaTypes
  import opened ShopEnums
  import opened CollinsRequest

  datatype Prices = Prices(from: Option<int64>, to: Option<int64>)

  datatype Filter = Filter(
    categories: Option<seq<int64>>,
    sale: Option<bool>,
    priceRange: Prices,
    searchword: Option<string>,
    facets: Option<map<FacetType, seq<int64>>>)

  datatype Sort = Sort(sortby: Option<Sortby>, direction: Option<Direction>)

  datatype ResultOptions = ResultOptions(
    sort: Sort,
    showPriceInformation: Option<bool>,
    showSaleInformation: Option<bool>,
    limit: Option<int32>,
    offset: Option<int32>,
    showCategories: Option<bool>)

  datatype ProductSearch = ProductSearch(sessionId: string, filter: Filter, result: ResultOptions)

  class ProductSearchRequest {
    const productSearch: ProductSearch

    constructor (productSearch: ProductSearch)
      ensures this.productSearch == productSearch
    {
      this.productSearch := productSearch;
    }
  }

  /** The builder's fields, gathered into one value. */
  datatype BuilderFields = BuilderFields(
    sessionId: string,
    categories: Option<seq<int64>>,
    productFilter: Option<ProductFilter>,
    priceFrom: Option<int64>,
    priceTo: Option<int64>,
    searchString: Option<string>,
    facets: Option<map<FacetType, seq<int64>>>,
    listSaleDetails: Option<bool>,
    listPriceDetails: Option<bool>,
    listCategories: Option<bool>,
    limit: Option<int32>,
    offset: Option<int32>,
    sortby: Option<Sortby>,
    sortDirection: Option<Direction>)

  /** A builder holding only a session id: every other field is still null. */
  function Unset(sessionId: string): BuilderFields
  {
    BuilderFields(sessionId, None, None, None, None, None, None, None, None, None, None, None, None, None)
  }

  class Builder {
    var sessionId: string
    var categories: Option<seq<int64>>
    var productFilter: Option<ProductFilter>
    var priceFrom: Option<int64>
    var priceTo: Option<int64>
    var searchString: Option<string>
    var facets: Option<map<FacetType, seq<int64>>>
    var listSaleDetails: Option<bool>
    var listPriceDetails: Option<bool>
    var listCategories: Option<bool>
    var limit: Option<int32>
    var offset: Option<int32>
    var sortby: Option<Sortby>
    var sortDirection: Option<Direction>

    function Fields(): BuilderFields
      reads this
    {
      BuilderFields(sessionId, categories, productFilter, priceFrom, priceTo, searchString, facets,
                    listSaleDetails, listPriceDetails, listCategories, limit, offset, sortby, sortDirection)
    }

    /** The body of new Builder(sessionId) once validateNotEmpty has passed. */
    constructor Init(sessionId: string)
      requires sessionId != []
      ensures Fields() == Unset(sessionId)
    {
      this.sessionId := sessionId;
      categories, productFilter, priceFrom, priceTo, searchString, facets := None, None, None, None, None, None;
      listSaleDetails, listPriceDetails, listCategories := None, None, None;
      limit, offset, sortby, sortDirection := None, None, None, None;
    }

    /** new Builder(sessionId): rejects a null or empty session id, otherwise stores it. */
    static method Create(sessionId: Option<string>) returns (r: Result<Builder, ValidationError>)
      ensures r.Failure? <==> sessionId.None? || sessionId.value == []
      ensures r.Failure? ==> r.error == EmptyArgument("sessionId")
      ensures r.Success? ==> fresh(r.value) && r.value.Fields() == Unset(sessionId.value)
    {
      var checked := ValidateNotEmpty(sessionId, "sessionId");
      if checked.Failure? {
        return Failure(checked.error);
      }
      var builder := new Builder.Init(checked.value);
      r := Success(builder);
    }

    method FilterByCategories(categories: Option<seq<int64>>) returns (b: Builder)
      modifies this
      ensures b == this && Fields() == old(Fields()).(categories := categories)
    {
      this.categories := categories;
      b := this;
    }

    method FilterByStatus(productFilter: Option<ProductFilter>) returns (b: Builder)
      modifies this
      ensures b == this && Fields() == old(Fields()).(productFilter := productFilter)
    {
      this.productFilter := productFilter;
      b := this;
    }

    method FilterByMinPrice(priceInCents: int64) returns (b: Builder)
      modifies this
      ensures b == this && Fields() == old(Fields()).(priceFrom := Some(priceInCents))
    {
      priceFrom := Some(priceInCents);
      b := this;
    }

    method FilterByMaxPrice(priceInCents: int64) returns (b: Builder)
      modifies this
      ensures b == this && Fields() == old(Fields()).(priceTo := Some(priceInCents))
    {
      priceTo := Some(priceInCents);
      b := this;
    }

    method FilterBySearchString(searchString: Option<string>) returns (b: Builder)
      modifies this
      ensures b == this && Fields() == old(Fields()).(searchString := searchString)
    {
      this.searchString := searchString;
      b := this;
    }

    method FilterByFacets(facets: Option<map<FacetType, seq<int64>>>) returns (b: Builder)
      modifies this
      ensures b == this && Fields() == old(Fields()).(facets := facets)
    {
      this.facets := facets;
      b := this;
    }

    method ListSaleDetails(listSaleDetails: bool) returns (b: Builder)
      modifies this
      ensures b == this && Fields() == old(Fields()).(listSaleDetails := Some(listSaleDetails))
    {
      this.listSaleDetails := Some(listSaleDetails);
      b := this;
    }

    method ListPriceDetails(listPriceDetails: bool) returns (b: Builder)
      modifies this
      ensures b == this && Fields() == old(Fields()).(listPriceDetails := Some(listPriceDetails))
    {
      this.listPriceDetails := Some(listPriceDetails);
      b := this;
    }

    method ListCategoriesWithResults(listCategories: bool) returns (b: Builder)
      modifies this
      ensures b == this && Fields() == old(Fields()).(listCategories := Some(listCategories))
    {
      this.listCategories := Some(listCategories);
      b := this;
    }

    method Limit(limit: Option<int32>) returns (b: Builder)
      modifies this
      ensures b == this && Fields() == old(Fields()).(limit := limit)
    {
      this.limit := limit;
      b := this;
    }

    method Offset(offset: Option<int32>) returns (b: Builder)
      modifies this
      ensures b == this && Fields() == old(Fields()).(offset := offset)
    {
      this.offset := offset;
      b := this;
    }

    /** Sets the sort key and its direction together. */
    method SortBy(sortby: Option<Sortby>, direction: Option<Direction>) returns (b: Builder)
      modifies this
      ensures b == this && Fields() == old(Fields()).(sortby := sortby, sortDirection := direction)
    {
      this.sortby := sortby;
      sortDirection := direction;
      b := this;
    }

    /**
     * A new request on every call, leaving the builder as it was. The price
     * range and the sort are always present, even when nothing was set; the
     * sale flag is the filter's value, or null without a filter.
     */
    method Build() returns (r: ProductSearchRequest)
      ensures fresh(r) && unchanged(this)
      ensures r.productSearch.sessionId == sessionId
      ensures r.productSearch.filter ==
        Filter(categories, if productFilter.Some? then productFilter.value.value else None,
               Prices(priceFrom, priceTo), searchString, facets)
      ensures r.productSearch.result ==
        ResultOptions(Sort(sortby, sortDirection), listPriceDetails, listSaleDetails, limit, offset, listCategories)
    {
      var sale := if productFilter != None then productFilter.value.value else None;
      var filter := Filter(categories, sale, Prices(priceFrom, priceTo), searchString, facets);
      var result := ResultOptions(Sort(sortby, sortDirection), listPriceDetails, listSaleDetails,
                                  limit, offset, listCategories);
      r := new ProductSearchRequest(ProductSearch(sessionId, filter, result));
    }
  }

  /** Setters chain on one builder and a later write to a field replaces an earlier one. */
  method LastWriteWins(sessionId: string, first: int32, second: int32)
    requires sessionId != []
  {
    var created := Builder.Create(Some(sessionId));
    var builder := created.value;
    var same := builder.Limit(Some(first));
    same := same.FilterByMinPrice(100);
    same := same.Limit(Some(second));
    assert same == builder;
    var request := builder.Build();
    assert request.productSearch.result.limit == Some(second);
    assert request.productSearch.filter.priceRange == Prices(Some(100), None);
    assert request.productSearch.filter.sale == None;
  }
}
