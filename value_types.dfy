/**
 * The value types of the early root-package schema model: each names its
 * own type identifier and says which identifiers of actual values it accepts.
 */
module ValueTypes {
  import opened Json

  datatype ValueType = NumberType | IntegerType | BooleanType
  {
    /** `getType()`: the identifier this type stands for. */
    function GetType(): (r: TypeId)
      ensures r in {NUMBER, INTEGER, BOOLEAN}
      ensures NumberType? <==> r == NUMBER
      ensures IntegerType? <==> r == INTEGER
    {
      match this
      case NumberType => NUMBER
      case IntegerType => INTEGER
      case BooleanType => BOOLEAN
    }

    /** `isTypeOf(type)`: whether a value of type `t` is accepted. */
    predicate IsTypeOf(t: TypeId)
    {
      match this
      case NumberType => t == NUMBER || t == INTEGER
      case IntegerType => t == INTEGER
      case BooleanType => t == BOOLEAN
    }
  }

  /** Every value type accepts values of its own type. */
  lemma AcceptsOwnType(v: ValueType)
    ensures v.IsTypeOf(v.GetType())
  {
  }

  /** Integer and boolean types accept exactly their own identifier. */
  lemma ExactTypes(v: ValueType, t: TypeId)
    requires v != NumberType
    ensures v.IsTypeOf(t) <==> t == v.GetType()
  {
  }

  /** A number type accepts NUMBER and INTEGER and nothing else. */
  lemma NumberAccepts(t: TypeId)
    ensures NumberType.IsTypeOf(t) <==> t == NUMBER || t == INTEGER
  {
  }

  /**
   * An integer is accepted wherever a number is expected, but a number is not
   * accepted where an integer is expected: the accepted sets are strictly nested.
   */
  lemma IntegerRefinesNumber()
    ensures forall t :: IntegerType.IsTypeOf(t) ==> NumberType.IsTypeOf(t)
    ensures NumberType.IsTypeOf(NUMBER) && !IntegerType.IsTypeOf(NUMBER)
  {
  }
}
