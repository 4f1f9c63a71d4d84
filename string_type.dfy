/**
 * The string type of the older schema model (package `schema.types`): a
 * minimum and a maximum length checked directly by `validateInstance`, and a
 * shared default instance that is never changed: its setters return a new,
 * ordinary string type instead.
 */
module StringTypes {
  import opened Base
  import opened Json
  import opened Problems

  /**
   * The length problems a string of `length` characters gets: one for being
   * shorter than `minLength`, then one for being longer than `maxLength`.
   */
  function LengthProblems(minLength: int, maxLength: int, length: int): (r: seq<Problem>)
    ensures |r| <= 2
    ensures forall p :: p in r ==> p.StringLengthProblem? && p.instanceLength == length
  {
    (if length < minLength then [StringLengthProblem(minLength, length)] else [])
    + (if length > maxLength then [StringLengthProblem(maxLength, length)] else [])
  }

  class StringType {
    /** Whether this is the shared default instance (`DefaultStringType`). */
    const isDefault: bool
    var minLength: Int32
    var maxLength: Int32
    /** The allowed values (the value set kept by the super class). */
    var valueSet: set<JsonValue>

    /** The default instance keeps the initial settings forever. */
    ghost predicate Valid()
      reads this
    {
      isDefault ==> minLength == 0 && maxLength == IntMaxValue && valueSet == {}
    }

    /** A fresh string type: no minimum beyond 0, maximum `Integer.MAX_VALUE`. */
    constructor ()
      ensures Valid() && !isDefault
      ensures minLength == 0 && maxLength == IntMaxValue && valueSet == {}
    {
      isDefault := false;
      minLength := 0;
      maxLength := IntMaxValue;
      valueSet := {};
    }

    /** The shared default instance. */
    constructor Default()
      ensures Valid() && isDefault
    {
      isDefault := true;
      minLength := 0;
      maxLength := IntMaxValue;
      valueSet := {};
    }

    /** `getTypeId()`. */
    function GetTypeId(): (r: TypeId)
      ensures r == STRING
    {
      STRING
    }

    /**
     * `validateInstance(value, problems)`: the default instance checks
     * nothing; any other string type appends the problems of `LengthProblems`.
     */
    method ValidateInstance(value: JsonValue, problems: ProblemList)
      requires Valid() && (!isDefault ==> value.JString?)
      modifies problems
      ensures isDefault ==> problems.items == old(problems.items)
      ensures !isDefault ==>
        problems.items == old(problems.items) + LengthProblems(minLength, maxLength, |value.s|)
    {
      if isDefault {
        // The default string type is not validated.
        return;
      }
      var length := |value.s|;
      if length < minLength {
        problems.Add(StringLengthProblem(minLength, length));
      }
      if length > maxLength {
        problems.Add(StringLengthProblem(maxLength, length));
      }
    }

    /** `minLength(length)`: sets the minimum, or on the default instance returns a new type with it set. */
    method MinLength(length: Int32) returns (r: StringType)
      requires Valid()
      modifies this
      decreases if isDefault then 1 else 0
      ensures Valid() && r.Valid()
      ensures isDefault ==>
        && unchanged(this) && fresh(r) && !r.isDefault
        && r.minLength == length && r.maxLength == IntMaxValue && r.valueSet == {}
      ensures !isDefault ==>
        r == this && minLength == length && maxLength == old(maxLength) && valueSet == old(valueSet)
    {
      if isDefault {
        var t := new StringType();
        r := t.MinLength(length);
      } else {
        minLength := length;
        r := this;
      }
    }

    /** `maxLength(length)`: sets the maximum, or on the default instance returns a new type with it set. */
    method MaxLength(length: Int32) returns (r: StringType)
      requires Valid()
      modifies this
      decreases if isDefault then 1 else 0
      ensures Valid() && r.Valid()
      ensures isDefault ==>
        && unchanged(this) && fresh(r) && !r.isDefault
        && r.minLength == 0 && r.maxLength == length && r.valueSet == {}
      ensures !isDefault ==>
        r == this && maxLength == length && minLength == old(minLength) && valueSet == old(valueSet)
    {
      if isDefault {
        var t := new StringType();
        r := t.MaxLength(length);
      } else {
        maxLength := length;
        r := this;
      }
    }

    /** `values(values)`: the allowed values become exactly the given strings. */
    method Values(values: seq<string>) returns (r: StringType)
      requires Valid()
      modifies this
      decreases if isDefault then 1 else 0
      ensures Valid() && r.Valid()
      ensures isDefault ==>
        && unchanged(this) && fresh(r) && !r.isDefault
        && r.minLength == 0 && r.maxLength == IntMaxValue && r.valueSet == StringValues(values)
      ensures !isDefault ==>
        && r == this && valueSet == StringValues(values)
        && minLength == old(minLength) && maxLength == old(maxLength)
    {
      if isDefault {
        var t := new StringType();
        r := t.Values(values);
      } else {
        var allowed: set<JsonValue> := {};
        var i := 0;
        while i < |values|
          invariant 0 <= i <= |values|
          invariant allowed == StringValues(values[..i])
        {
          assert values[..i + 1] == values[..i] + [values[i]];
          allowed := allowed + {JString(values[i])};
          i := i + 1;
        }
        assert values[..i] == values;
        valueSet := allowed;
        r := this;
      }
    }
  }

  /** The JSON strings made from the given strings. */
  function StringValues(values: seq<string>): set<JsonValue>
  {
    set v | v in values :: JString(v)
  }

  /** The holder of the static `DEFAULT` instance. */
  class StringTypeStatics {
    const DEFAULT: StringType

    ghost predicate Valid()
      reads DEFAULT
    {
      DEFAULT.isDefault && DEFAULT.Valid()
    }

    constructor ()
      ensures Valid() && fresh(DEFAULT)
    {
      DEFAULT := new StringType.Default();
    }

    /** `getDefault()`: always the one shared default instance. */
    function GetDefault(): (r: StringType)
      requires Valid()
      reads DEFAULT
      ensures r == DEFAULT && r.isDefault
    {
      DEFAULT
    }
  }

  /** A string shorter than the minimum and within the maximum gets exactly one problem, for the minimum. */
  lemma TooShortOneProblem(minLength: int, maxLength: int, length: int)
    requires length < minLength && length <= maxLength
    ensures LengthProblems(minLength, maxLength, length) == [StringLengthProblem(minLength, length)]
  {
  }

  /** A string longer than the maximum and not below the minimum gets exactly one problem, for the maximum. */
  lemma TooLongOneProblem(minLength: int, maxLength: int, length: int)
    requires length > maxLength && length >= minLength
    ensures LengthProblems(minLength, maxLength, length) == [StringLengthProblem(maxLength, length)]
  {
  }

  /** No problem is reported exactly when the length lies within both bounds. */
  lemma NoProblemIffWithinBounds(minLength: int, maxLength: int, length: int)
    ensures LengthProblems(minLength, maxLength, length) == [] <==> minLength <= length <= maxLength
  {
  }

  /** The two checks are independent: with crossed bounds a string can fail both. */
  lemma CrossedBoundsTwoProblems(minLength: int, maxLength: int, length: int)
    requires maxLength < length < minLength
    ensures LengthProblems(minLength, maxLength, length)
         == [StringLengthProblem(minLength, length), StringLengthProblem(maxLength, length)]
  {
  }

  /** With the initial bounds, no string a Java `String` can hold gets a length problem. */
  lemma InitialBoundsAcceptAll(length: nat)
    requires length <= IntMaxValue
    ensures LengthProblems(0, IntMaxValue, length) == []
  {
  }

  /**
   * Each reported problem reads as it should: "too short" for the minimum
   * check and "too long" for the maximum check.
   */
  lemma {:induction false} ProblemMessagesMatchDirection(minLength: int, maxLength: int, length: int, locale: Locale)
    ensures forall p :: p in LengthProblems(minLength, maxLength, length) && p.threshold == minLength && length < minLength
              ==> TooShortHead <= p.GetMessage(locale)
    ensures forall p :: p in LengthProblems(minLength, maxLength, length) && p.threshold == maxLength && length > maxLength
              ==> TooLongHead <= p.GetMessage(locale)
  {
    forall p | p in LengthProblems(minLength, maxLength, length) {
      MessageDirection(p, locale);
    }
  }
}
