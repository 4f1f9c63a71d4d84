/**
 * The array type: the types its elements may have, and optional bounds on
 * the number of elements, where -1 means the bound is not set.
 */
module ArrayTypes {
  import opened Base
  import opened Json
  import opened Problems

  /** The value of `minItems` and `maxItems` that means "no bound". */
  const Unset: Int32 := -1

  /**
   * The size problems an array of `size` elements gets: too short when a
   * minimum is set and not reached, then too long when a maximum is set and
   * exceeded. Both carry the size and the configured range.
   */
  function SizeProblems(size: int, minItems: int, maxItems: int): (r: seq<Problem>)
    ensures |r| <= 2
    ensures forall p :: p in r ==> (p.ArrayTooShortProblem? || p.ArrayTooLongProblem?)
                                   && p.actualSize == size && p.range == IntRange(minItems, maxItems)
  {
    (if minItems != Unset && size < minItems then [ArrayTooShortProblem(size, IntRange(minItems, maxItems))] else [])
    + (if maxItems != Unset && size > maxItems then [ArrayTooLongProblem(size, IntRange(minItems, maxItems))] else [])
  }

  class ArrayType {
    /** The types allowed for the elements. */
    var typeSet: set<JsonTypeRef>
    var minItems: Int32
    var maxItems: Int32

    constructor ()
      ensures typeSet == {} && minItems == Unset && maxItems == Unset
    {
      typeSet := {};
      minItems := Unset;
      maxItems := Unset;
    }

    /** `getTypeId()`. */
    function GetTypeId(): (r: TypeId)
      ensures r == ARRAY
    {
      ARRAY
    }

    /** `validateInstance(value, problems)`: appends the size problems of the array and keeps the earlier ones. */
    method ValidateInstance(value: JsonValue, problems: ProblemList)
      requires value.JArray?
      modifies problems
      ensures problems.items == old(problems.items) + SizeProblems(|value.elements|, minItems, maxItems)
    {
      var size := |value.elements|;
      if minItems != Unset && size < minItems {
        problems.Add(ArrayTooShortProblem(size, IntRange(minItems, maxItems)));
      }
      if maxItems != Unset && size > maxItems {
        problems.Add(ArrayTooLongProblem(size, IntRange(minItems, maxItems)));
      }
    }

    /** `items(types)`: the allowed element types become exactly the given ones. */
    method Items(types: seq<JsonTypeRef>) returns (r: ArrayType)
      modifies this
      ensures r == this && typeSet == (set t | t in types)
      ensures minItems == old(minItems) && maxItems == old(maxItems)
    {
      typeSet := set t | t in types;
      r := this;
    }

    /** `getItemTypes()`. */
    function GetItemTypes(): (r: set<JsonTypeRef>)
      reads this
      ensures r == typeSet
    {
      typeSet
    }

    /** `minItems(size)`. */
    method MinItems(size: Int32) returns (r: ArrayType)
      modifies this
      ensures r == this && minItems == size
      ensures maxItems == old(maxItems) && typeSet == old(typeSet)
    {
      minItems := size;
      r := this;
    }

    /** `maxItems(size)`. */
    method MaxItems(size: Int32) returns (r: ArrayType)
      modifies this
      ensures r == this && maxItems == size
      ensures minItems == old(minItems) && typeSet == old(typeSet)
    {
      maxItems := size;
      r := this;
    }
  }

  /** An unset bound never yields a problem. */
  lemma UnsetBoundsNeverComplain(size: nat, minItems: int, maxItems: int)
    ensures minItems == Unset ==> forall p :: p in SizeProblems(size, minItems, maxItems) ==> !p.ArrayTooShortProblem?
    ensures maxItems == Unset ==> forall p :: p in SizeProblems(size, minItems, maxItems) ==> !p.ArrayTooLongProblem?
    ensures minItems == Unset && maxItems == Unset ==> SizeProblems(size, minItems, maxItems) == []
  {
  }

  /** Too few elements with a set minimum, and no maximum exceeded: exactly one too-short problem. */
  lemma TooShortOneProblem(size: nat, minItems: int, maxItems: int)
    requires minItems != Unset && size < minItems
    requires maxItems == Unset || size <= maxItems
    ensures SizeProblems(size, minItems, maxItems) == [ArrayTooShortProblem(size, IntRange(minItems, maxItems))]
  {
  }

  /** Too many elements with a set maximum, and the minimum reached: exactly one too-long problem. */
  lemma TooLongOneProblem(size: nat, minItems: int, maxItems: int)
    requires maxItems != Unset && size > maxItems
    requires minItems == Unset || size >= minItems
    ensures SizeProblems(size, minItems, maxItems) == [ArrayTooLongProblem(size, IntRange(minItems, maxItems))]
  {
  }

  /** A size within the bounds that are set gets no problem, and only such a size. */
  lemma NoProblemIffWithinBounds(size: nat, minItems: int, maxItems: int)
    ensures SizeProblems(size, minItems, maxItems) == []
        <==> (minItems == Unset || minItems <= size) && (maxItems == Unset || size <= maxItems)
  {
  }

  /**
   * Validation only appends: every earlier problem keeps its place, and at
   * most two are added.
   */
  method ValidateKeepsEarlier(t: ArrayType, value: JsonValue, earlier: seq<Problem>) returns (after: seq<Problem>)
    requires value.JArray?
    ensures |earlier| <= |after| <= |earlier| + 2
    ensures after[..|earlier|] == earlier
    ensures (t.minItems == Unset || t.minItems <= |value.elements|) && (t.maxItems == Unset || |value.elements| <= t.maxItems)
            ==> after == earlier
  {
    var problems := new ProblemList();
    problems.AddAll(earlier);
    t.ValidateInstance(value, problems);
    after := problems.items;
    assert after == earlier + SizeProblems(|value.elements|, t.minItems, t.maxItems);
  }
}
