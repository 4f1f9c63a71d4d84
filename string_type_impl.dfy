/**
 * The string type of the schema builder: each builder call checks its
 * arguments, throws a schema error on a bad one, and otherwise installs one
 * facet of its own class and returns the type.
 */
module StringTypeImpls {
  import opened Base
  import opened Json
  import opened Facets

  /** `verifyLength(length)`: a negative length is a schema error. */
  function VerifyLength(length: int): (r: Option<Exception>)
    ensures r == None <==> length >= 0
    ensures r != None ==> r == Some(SchemaException(StringLengthIsNegative(length)))
  {
    if length < 0 then Some(SchemaException(StringLengthIsNegative(length))) else None
  }

  /** `getLength(value)`: the length the length facets measure, the character count. */
  function GetLength(value: JsonValue): (r: nat)
    requires value.JString?
    ensures r == |value.s|
  {
    |value.s|
  }

  /**
   * The loop of `enumeration(values)`: collects the values into a set, or
   * fails on the first null value, naming its zero-based index.
   */
  method CollectEnumerators(values: seq<Option<string>>) returns (r: Result<set<string>>)
    ensures r.Success? <==> NoNulls(values)
    ensures r.Success? ==> r.value == NonNull(values)
    ensures r.Failure? ==> exists i :: FirstNull(values, i) && r.error == SchemaException(OneOfValuesIsNull(i))
  {
    var enumerators: set<string> := {};
    var i := 0;
    while i < |values|
      invariant 0 <= i <= |values|
      invariant NoNulls(values[..i])
      invariant enumerators == NonNull(values[..i])
    {
      if values[i].None? {
        return Failure(SchemaException(OneOfValuesIsNull(i)));
      }
      assert values[..i + 1] == values[..i] + [values[i]];
      enumerators := enumerators + {values[i].value};
      i := i + 1;
    }
    assert values[..i] == values;
    r := Success(enumerators);
  }

  /**
   * The loop of `format(format, moreFormats)`: collects the formats into a
   * set, or fails on the first null one; a null first format is index 0 and
   * a null `moreFormats[k]` is index k + 1.
   */
  method CollectFormats(format: Option<StringFormat>, moreFormats: seq<Option<StringFormat>>)
    returns (r: Result<set<StringFormat>>)
    ensures format.None? ==> r == Failure(SchemaException(OneOfFormatIsNull(0)))
    ensures r.Success? <==> format.Some? && NoNulls(moreFormats)
    ensures r.Success? ==> r.value == {format.value} + NonNull(moreFormats)
    ensures format.Some? && r.Failure? ==>
      exists k :: FirstNull(moreFormats, k) && r.error == SchemaException(OneOfFormatIsNull(k + 1))
  {
    if format.None? {
      return Failure(SchemaException(OneOfFormatIsNull(0)));
    }
    var formats := {format.value};
    var index := 1;
    while index <= |moreFormats|
      invariant 1 <= index <= |moreFormats| + 1
      invariant NoNulls(moreFormats[..index - 1])
      invariant formats == {format.value} + NonNull(moreFormats[..index - 1])
    {
      var other := moreFormats[index - 1];
      if other.None? {
        assert FirstNull(moreFormats, index - 1);
        return Failure(SchemaException(OneOfFormatIsNull(index)));
      }
      assert moreFormats[..index] == moreFormats[..index - 1] + [other];
      formats := formats + {other.value};
      index := index + 1;
    }
    assert moreFormats[..index - 1] == moreFormats;
    r := Success(formats);
  }

  class StringTypeImpl {
    /** The installed facets, keyed by facet class. */
    var facets: FacetMap

    ghost predicate Valid()
      reads this
    {
      OnePerKind(facets)
    }

    constructor ()
      ensures Valid() && facets == map[]
    {
      facets := map[];
    }

    /** `facet(f)`: files the facet under its class and returns this type. */
    method AddFacet(f: Facet) returns (r: Result<StringTypeImpl>)
      requires Valid()
      modifies this
      ensures Valid() && r == Success(this) && facets == Install(old(facets), f)
    {
      facets := Install(facets, f);
      r := Success(this);
    }

    /** `length(length)`. */
    method Length(length: Int32) returns (r: Result<StringTypeImpl>)
      requires Valid()
      modifies this
      ensures Valid()
      ensures length < 0 ==> r == Failure(SchemaException(StringLengthIsNegative(length))) && unchanged(this)
      ensures length >= 0 ==> r == Success(this) && facets == Install(old(facets), LengthFacet(length))
    {
      var e := VerifyLength(length);
      if e.Some? {
        return Failure(e.value);
      }
      r := AddFacet(LengthFacet(length));
    }

    /** `minLength(length)`. */
    method MinLength(length: Int32) returns (r: Result<StringTypeImpl>)
      requires Valid()
      modifies this
      ensures Valid()
      ensures length < 0 ==> r == Failure(SchemaException(StringLengthIsNegative(length))) && unchanged(this)
      ensures length >= 0 ==> r == Success(this) && facets == Install(old(facets), MinLengthFacet(length))
    {
      var e := VerifyLength(length);
      if e.Some? {
        return Failure(e.value);
      }
      r := AddFacet(MinLengthFacet(length));
    }

    /** `maxLength(length)`. */
    method MaxLength(length: Int32) returns (r: Result<StringTypeImpl>)
      requires Valid()
      modifies this
      ensures Valid()
      ensures length < 0 ==> r == Failure(SchemaException(StringLengthIsNegative(length))) && unchanged(this)
      ensures length >= 0 ==> r == Success(this) && facets == Install(old(facets), MaxLengthFacet(length))
    {
      var e := VerifyLength(length);
      if e.Some? {
        return Failure(e.value);
      }
      r := AddFacet(MaxLengthFacet(length));
    }

    /** `enumeration(values)`: installs the set of the given strings, duplicates collapsed. */
    method Enumeration(values: seq<Option<string>>) returns (r: Result<StringTypeImpl>)
      requires Valid()
      modifies this
      ensures Valid()
      ensures !NoNulls(values) ==>
        && unchanged(this)
        && exists i :: FirstNull(values, i) && r == Failure(SchemaException(OneOfValuesIsNull(i)))
      ensures NoNulls(values) ==>
        r == Success(this) && facets == Install(old(facets), EnumerationFacet(NonNull(values)))
    {
      var enumerators := CollectEnumerators(values);
      if enumerators.Failure? {
        return Failure(enumerators.error);
      }
      r := AddFacet(EnumerationFacet(enumerators.value));
    }

    /** `pattern(expression)`: a null expression is a schema error. */
    method Pattern(expression: Option<string>) returns (r: Result<StringTypeImpl>)
      requires Valid()
      modifies this
      ensures Valid()
      ensures expression.None? ==>
        r == Failure(SchemaException(MethodParameterIsNull("pattern", "expression"))) && unchanged(this)
      ensures expression.Some? ==>
        r == Success(this) && facets == Install(old(facets), PatternFacet(expression.value))
    {
      if expression.None? {
        return Failure(SchemaException(MethodParameterIsNull("pattern", "expression")));
      }
      r := AddFacet(PatternFacet(expression.value));
    }

    /** `format(format, moreFormats)`: installs the set of all the given formats. */
    method Format(format: Option<StringFormat>, moreFormats: seq<Option<StringFormat>>)
      returns (r: Result<StringTypeImpl>)
      requires Valid()
      modifies this
      ensures Valid()
      ensures format.None? ==> r == Failure(SchemaException(OneOfFormatIsNull(0))) && unchanged(this)
      ensures format.Some? && !NoNulls(moreFormats) ==>
        && unchanged(this)
        && exists k :: FirstNull(moreFormats, k) && r == Failure(SchemaException(OneOfFormatIsNull(k + 1)))
      ensures format.Some? && NoNulls(moreFormats) ==>
        && r == Success(this)
        && facets == Install(old(facets), FormatFacet({format.value} + NonNull(moreFormats)))
    {
      var formats := CollectFormats(format, moreFormats);
      if formats.Failure? {
        return Failure(formats.error);
      }
      r := AddFacet(FormatFacet(formats.value));
    }
  }

  /** Listing a string twice gives the same enumerator set as listing it once. */
  lemma EnumeratorsCollapseDuplicates(values: seq<Option<string>>, v: string)
    requires Some(v) in values
    ensures NonNull(values + [Some(v)]) == NonNull(values)
  {
  }
}
