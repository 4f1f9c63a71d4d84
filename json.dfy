/**
 * JSON values as the validator sees them, and the identifiers of the
 * JSON types a schema can name.
 */
module Json {

  /** The type identifiers shared by every snapshot of the schema model. */
  datatype TypeId = ARRAY | BOOLEAN | INTEGER | NUMBER | NULL | OBJECT | STRING

  /**
   * A JSON value. A number is kept as an exact decimal
   * `unscaled * 10^-scale`; no arithmetic on numbers is modelled.
   */
  datatype JsonValue =
    | JNull
    | JBool(b: bool)
    | JNumber(unscaled: int, scale: int)
    | JString(s: string)
    | JArray(elements: seq<JsonValue>)
    | JObject(members: map<string, JsonValue>)

  /**
   * A reference to a type of the schema graph. Types that are objects in
   * this model (object, string and array types) are referred to by object
   * identity, so a type can refer to itself and schemas may be cyclic; the
   * other built-in types are referred to by their identifier.
   */
  datatype JsonTypeRef = NodeRef(node: object) | BuiltinRef(typeId: TypeId)
}
