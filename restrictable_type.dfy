/**
 * A JSON type to which facets can be applied. The facet map is created on
 * the first facet added; before that, validation has nothing to do.
 */
module RestrictableTypes {
  import opened Base
  import opened Json
  import opened Problems
  import opened Facets

  class AbstractRestrictableType {
    /** The installed facets, keyed by facet class. */
    var facets: FacetMap
    /** Whether the facet map has been created (it is `null` until then). */
    var facetsCreated: bool

    ghost predicate Valid()
      reads this
    {
      OnePerKind(facets) && (!facetsCreated ==> facets == map[])
    }

    constructor ()
      ensures Valid() && !facetsCreated && facets == map[]
    {
      facets := map[];
      facetsCreated := false;
    }

    /**
     * `validateInstance(value, problems)`: applies every installed facet to
     * the value exactly once, in the (unspecified) order the map yields
     * them, and keeps every problem reported before.
     */
    method ValidateInstance(value: JsonValue, problems: ProblemList, apply: (Facet, JsonValue) -> seq<Problem>)
      returns (ghost order: seq<FacetKind>)
      requires Valid()
      modifies problems
      ensures Enumerates(order, facets.Keys)
      ensures problems.items == old(problems.items) + ApplyAll(facets, order, value, apply)
      ensures !facetsCreated ==> problems.items == old(problems.items)
    {
      order := [];
      if !facetsCreated {
        // Nothing to do.
        return;
      }
      var remaining := facets.Keys;
      while remaining != {}
        invariant NoDuplicates(order)
        invariant Elements(order) !! remaining
        invariant Elements(order) + remaining == facets.Keys
        invariant problems.items == old(problems.items) + ApplyAll(facets, order, value, apply)
        decreases remaining
      {
        var k :| k in remaining;
        problems.AddAll(apply(facets[k], value));
        assert (order + [k])[..|order|] == order;
        order := order + [k];
        remaining := remaining - {k};
      }
    }

    /**
     * `assertion(predicate, message)`: installs an assertion facet, replacing
     * any earlier one, and returns this type; a null predicate or message is
     * a schema error, reported for the predicate first.
     */
    method Assertion(test: Option<JsonValue -> bool>, message: Option<string>)
      returns (r: Result<AbstractRestrictableType>)
      requires Valid()
      modifies this
      ensures Valid()
      ensures test.None? ==>
        r == Failure(SchemaException(MethodParameterIsNull("assertion", "predicate"))) && unchanged(this)
      ensures test.Some? && message.None? ==>
        r == Failure(SchemaException(MethodParameterIsNull("assertion", "message"))) && unchanged(this)
      ensures test.Some? && message.Some? ==>
        && r == Success(this) && facetsCreated
        && facets == Install(old(facets), AssertionFacet(test.value, message.value))
    {
      if test.None? {
        return Failure(SchemaException(MethodParameterIsNull("assertion", "predicate")));
      }
      if message.None? {
        return Failure(SchemaException(MethodParameterIsNull("assertion", "message")));
      }
      var e := AddFacet(Some(AssertionFacet(test.value, message.value)));
      r := Success(this);
    }

    /**
     * `addFacet(facet)`: files the facet under its class, replacing a facet
     * of the same class and keeping those of the other classes; a null facet
     * is an illegal state and changes nothing.
     */
    method AddFacet(facet: Option<Facet>) returns (error: Option<Exception>)
      requires Valid()
      modifies this
      ensures Valid()
      ensures facet.None? ==> error == Some(IllegalStateException("facet is null.")) && unchanged(this)
      ensures facet.Some? ==> error == None && facetsCreated && facets == Install(old(facets), facet.value)
    {
      if facet.None? {
        return Some(IllegalStateException("facet is null."));
      }
      if !facetsCreated {
        facets := map[];
        facetsCreated := true;
      }
      facets := Install(facets, facet.value);
      error := None;
    }
  }

  /**
   * A type that was never given a facet reports nothing; once facets are
   * added, every facet's problems are reported, whatever the order.
   */
  method ValidateTwice(t: AbstractRestrictableType, value: JsonValue, apply: (Facet, JsonValue) -> seq<Problem>)
    returns (first: seq<Problem>, second: seq<Problem>)
    requires t.Valid()
    ensures multiset(first) == multiset(second)
    ensures t.facets == map[] ==> first == []
  {
    var p1 := new ProblemList();
    ghost var o1 := t.ValidateInstance(value, p1, apply);
    var p2 := new ProblemList();
    ghost var o2 := t.ValidateInstance(value, p2, apply);
    ApplyAllOrderIrrelevant(t.facets, o1, o2, value, apply);
    first, second := p1.items, p2.items;
  }
}
