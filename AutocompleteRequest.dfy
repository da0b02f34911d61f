/** The autocompletion request: a search word, an optional limit and optional result types. */
module AutocompleteRequests {
  import opened Wrappers
  import opened JavaTypes
  import opened ShopEnums

  datatype Autocompletion = Autocompletion(
    limit: Option<int32>,
    searchword: Option<string>,
    types: Option<seq<AutocompleteType>>)

  class AutocompleteRequest {
    const autocompletion: Autocompletion

    constructor (autocompletion: Autocompletion)
      ensures this.autocompletion == autocompletion
    {
      this.autocompletion := autocompletion;
    }
  }

  class Builder {
    var limit: Option<int32>
    var searchword: Option<string>
    var types: Option<seq<AutocompleteType>>

    /** Stores the search word as given, null or empty included. */
    constructor (searchword: Option<string>)
      ensures this.searchword == searchword && limit == None && types == None
    {
      this.searchword := searchword;
      limit, types := None, None;
    }

    method Limit(limit: Option<int32>) returns (b: Builder)
      modifies this
      ensures b == this && this.limit == limit
      ensures searchword == old(searchword) && types == old(types)
    {
      this.limit := limit;
      b := this;
    }

    method FilterByTypes(types: Option<seq<AutocompleteType>>) returns (b: Builder)
      modifies this
      ensures b == this && this.types == types
      ensures searchword == old(searchword) && limit == old(limit)
    {
      this.types := types;
      b := this;
    }

    /** A new request on every call, carrying the three fields unchanged. */
    method Build() returns (r: AutocompleteRequest)
      ensures fresh(r) && unchanged(this)
      ensures r.autocompletion == Autocompletion(limit, searchword, types)
    {
      r := new AutocompleteRequest(Autocompletion(limit, searchword, types));
    }
  }

  /** No setter touches the search word, so the payload carries the constructor's. */
  method SearchwordSurvivesSetters(word: string, limit: int32, types: seq<AutocompleteType>)
  {
    var builder := new Builder(Some(word));
    var same := builder.Limit(Some(limit));
    same := same.FilterByTypes(Some(types));
    var request := same.Build();
    assert request.autocompletion.searchword == Some(word);
  }
}
