/**
 * Stand-ins for the shop enums whose sources are not part of this model.
 * Each is represented by the one thing the modelled code reads from it.
 */
module ShopEnums {
  import opened Wrappers
  import opened JavaTypes

  /** A facet group: its constant's name, and the id the modelled code reads through getId(). */
  datatype FacetGroup = FacetGroup(name: string, id: int32)

  /** A facet type, used only as a key of the facet filter map. */
  datatype FacetType = FacetType(name: string)

  /** A sort key and a sort direction, copied into the payload as they are. */
  datatype Sortby = Sortby(name: string)

  datatype Direction = Direction(name: string)

  /** A sale filter, known only through getValue(): true = sale only, false = non-sale only, None = all. */
  datatype ProductFilter = ProductFilter(value: Option<bool>)

  /** An autocompletion result type, copied into the payload as it is. */
  datatype AutocompleteType = AutocompleteType(name: string)
}
