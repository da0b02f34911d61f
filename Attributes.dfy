/** Product attributes: facet ids mapped to the ids of the facet values a product carries. */
module Attributes {
  import opened Wrappers
  import opened JavaTypes
  import opened ShopEnums

  type AttributeMap = map<int32, seq<int64>>

  /** contains(facetGroup): the map has the group's id as a key. */
  predicate Contains(attributes: AttributeMap, facetGroup: FacetGroup): (present: bool)
    ensures present <==> facetGroup.id in attributes
  {
    facetGroup.id in attributes
  }

  /** get(facetGroup): the list stored under the group's id, or null (None) when there is none. */
  function Get(attributes: AttributeMap, facetGroup: FacetGroup): (r: Option<seq<int64>>)
    ensures r.None? <==> facetGroup.id !in attributes
    ensures r.Some? ==> facetGroup.id in attributes && r.value == attributes[facetGroup.id]
  {
    if Contains(attributes, facetGroup) then Some(attributes[facetGroup.id]) else None
  }

  /** get answers a value exactly when contains holds. */
  lemma GetAgreesWithContains(attributes: AttributeMap, facetGroup: FacetGroup)
    ensures Get(attributes, facetGroup).Some? <==> Contains(attributes, facetGroup)
  {
  }

  /** Two groups with the same id, even distinct ones, read the same entry: the lookup is keyed by getId() alone. */
  lemma GetDependsOnlyOnId(attributes: AttributeMap, a: FacetGroup, b: FacetGroup)
    requires a.id == b.id
    ensures Get(attributes, a) == Get(attributes, b)
  {
  }
}
