/**
 * The object type the validator uses for an object it has no schema for:
 * a single shared instance that declares no property, allows every
 * property, and ignores every builder call.
 */
module UnknownObjectTypes {
  import opened Base
  import opened Json
  import opened Facets
  import opened ObjectTypes

  /** The one instance, `UnknownObjectType.INSTANCE`. */
  datatype UnknownObjectType = INSTANCE
  {
    /** `properties(properties...)`: ignored, even with null entries. */
    function Properties(entries: seq<Option<Property>>): (r: UnknownObjectType)
      ensures r == INSTANCE
    {
      this
    }

    /** `moreProperties()`: ignored. */
    function MoreProperties(): (r: UnknownObjectType)
      ensures r == INSTANCE
    {
      this
    }

    /** `facet(facet)`: ignored, even for a null facet. */
    function Facet(facet: Option<Facet>): (r: UnknownObjectType)
      ensures r == INSTANCE
    {
      this
    }

    /** `assertion(predicate, description)`: ignored, even for null arguments. */
    function Assertion(test: Option<JsonValue -> bool>, message: Option<string>): (r: UnknownObjectType)
      ensures r == INSTANCE
    {
      this
    }

    /** `getProperty(name)`: no name is declared. */
    function GetProperty(name: Option<string>): (r: Option<Property>)
      ensures r.None?
    {
      None
    }

    /** `allowsMoreProperties()`: every property is allowed. */
    function AllowsMoreProperties(): (r: bool)
      ensures r
    {
      true
    }
  }

  /**
   * The unknown-property check of the validator: a member name is unknown to
   * a type that neither declares it nor allows more properties.
   */
  predicate RejectsName(t: UnknownObjectType, name: string)
  {
    t.GetProperty(Some(name)).None? && !t.AllowsMoreProperties()
  }

  /**
   * The unknown object type rejects no name, whatever builder calls were
   * made on it: each of them yields an `UnknownObjectType` again.
   */
  lemma NeverRejects(t: UnknownObjectType, name: string)
    ensures !RejectsName(t, name)
  {
  }

  /** There is only the one instance. */
  lemma SingleInstance(a: UnknownObjectType, b: UnknownObjectType)
    ensures a == b && a == INSTANCE
  {
  }
}
