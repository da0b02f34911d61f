/** The facet request: which facet groups to list, with optional paging. */
module FacetRequests {
  import opened Wrappers
  import opened JavaTypes
  import opened ShopEnums

  datatype Facet = Facet(facetGroups: Option<seq<FacetGroup>>, limit: Option<int32>, offset: Option<int32>)

  class FacetRequest {
    const facets: Facet

    constructor (facets: Facet)
      ensures this.facets == facets
    {
      this.facets := facets;
    }
  }

  class Builder {
    var facetGroups: Option<seq<FacetGroup>>
    var limit: Option<int32>
    var offset: Option<int32>

    /** Every field starts out null. */
    constructor ()
      ensures facetGroups == None && limit == None && offset == None
    {
      facetGroups, limit, offset := None, None, None;
    }

    method FilterByFacetGroup(facetGroups: Option<seq<FacetGroup>>) returns (b: Builder)
      modifies this
      ensures b == this && this.facetGroups == facetGroups
      ensures limit == old(limit) && offset == old(offset)
    {
      this.facetGroups := facetGroups;
      b := this;
    }

    method Limit(limit: Option<int32>) returns (b: Builder)
      modifies this
      ensures b == this && this.limit == limit
      ensures facetGroups == old(facetGroups) && offset == old(offset)
    {
      this.limit := limit;
      b := this;
    }

    method Offset(offset: Option<int32>) returns (b: Builder)
      modifies this
      ensures b == this && this.offset == offset
      ensures facetGroups == old(facetGroups) && limit == old(limit)
    {
      this.offset := offset;
      b := this;
    }

    /** A new request on every call, carrying the three fields unchanged. */
    method Build() returns (r: FacetRequest)
      ensures fresh(r) && unchanged(this)
      ensures r.facets == Facet(facetGroups, limit, offset)
    {
      r := new FacetRequest(Facet(facetGroups, limit, offset));
    }
  }

  /** Fields never set stay null in the payload. */
  method OnlyLimitSet(limit: int32)
  {
    var builder := new Builder();
    var same := builder.Limit(Some(limit));
    var request := same.Build();
    assert request.facets == Facet(None, Some(limit), None);
  }
}
