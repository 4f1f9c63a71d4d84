/**
 * Shared vocabulary of the model: Java's nullable references, the two
 * exceptions the schema builders throw, and the keys of the message catalog
 * those exceptions carry (the localized text itself is not modelled).
 */
module Base {

  /** A Java reference that may be `null` (`None`). */
  datatype Option<+T> = None | Some(value: T)

  /** A Java `int`. */
  type Int32 = x: int | -0x8000_0000 <= x < 0x8000_0000

  /** `Integer.MAX_VALUE`. */
  const IntMaxValue: Int32 := 0x7fff_ffff

  /** The catalog keys used by the schema builders, with their arguments. */
  datatype Message =
    | MethodParameterIsNull(methodName: string, parameterName: string)
    | PropertyIsNull(index: int)
    | OneOfValuesIsNull(index: int)
    | OneOfFormatIsNull(index: int)
    | StringLengthIsNegative(length: int)

  /** The exceptions thrown while a schema is being built. */
  datatype Exception =
    | SchemaException(message: Message)
    | IllegalStateException(text: string)

  /** A call that either returns a value or throws. */
  datatype Result<+T> = Success(value: T) | Failure(error: Exception)

  /** Whether every entry of a list is non-null. */
  predicate NoNulls<T>(values: seq<Option<T>>)
  {
    forall i :: 0 <= i < |values| ==> values[i].Some?
  }

  /** The non-null entries of a list, as a set. */
  function NonNull<T(==)>(values: seq<Option<T>>): set<T>
  {
    set x | x in values && x.Some? :: x.value
  }

  /** The entries of a list that holds no null, in order. */
  function Unwrap<T>(values: seq<Option<T>>): (r: seq<T>)
    requires NoNulls(values)
    ensures |r| == |values|
  {
    if values == [] then [] else Unwrap(values[..|values| - 1]) + [values[|values| - 1].value]
  }

  lemma NonNullBefore<T>(values: seq<Option<T>>, n: nat, k: nat)
    requires k < n <= |values| && NoNulls(values[..n])
    ensures values[k].Some?
  {
    assert values[..n][k] == values[k];
  }

  /** `i` is the index of the first null of `values`. */
  predicate FirstNull<T>(values: seq<Option<T>>, i: int)
  {
    0 <= i < |values| && values[i].None? && NoNulls(values[..i])
  }

  /** The index of the first null of a list that holds one. */
  function FirstNullIndex<T>(values: seq<Option<T>>): (i: nat)
    requires !NoNulls(values)
    ensures FirstNull(values, i)
  {
    if values[0].None? then 0
    else
      var j := FirstNullIndex(values[1..]);
      assert values[..j + 1] == [values[0]] + values[1..][..j];
      j + 1
  }

  /** A list holding a null has exactly one first null. */
  lemma FirstNullIsUnique<T>(values: seq<Option<T>>, i: int, j: int)
    requires FirstNull(values, i) && FirstNull(values, j)
    ensures i == j
  {
    if i < j {
      NonNullBefore(values, j, i);
      assert false;
    } else if j < i {
      NonNullBefore(values, i, j);
      assert false;
    }
  }

  /** The elements of a sequence, as a set. */
  function Elements<T>(s: seq<T>): set<T>
  {
    set x | x in s
  }

  predicate NoDuplicates<T(==)>(s: seq<T>)
  {
    forall i, j :: 0 <= i < j < |s| ==> s[i] != s[j]
  }

  /** `s` lists every element of `keys` exactly once. */
  predicate Enumerates<T(==)>(s: seq<T>, keys: set<T>)
  {
    NoDuplicates(s) && Elements(s) == keys
  }
}
