# Hibiscus schema types in Dafny

Hibiscus is a JSON validator for Java. A schema is a graph of JSON types, and
validation appends problems to a list. This project models the schema-type
layer of that validator:

- **Object types.** An object type keeps its named properties in a map keyed by
  name, the set of required names, and a list of pattern properties. Another
  flag says whether undeclared properties are allowed.
  - `properties(...)` replaces the named properties and the required names,
    but keeps and extends the pattern properties.
  - `getProperty` looks up a declared name first, then tries the pattern
    properties in the order they were added.
  - Validation reports each required name the object lacks.
  - The unknown object type is a shared instance for objects without a
    schema: it declares nothing, allows everything and ignores every builder
    call.
- **Restrictable types.** Facets are filed in a map keyed by facet class, so a
  second facet of a class replaces the first. Validation applies each
  installed facet once, in the map's own order.
- **String types.**
  - The builder-style string type rejects negative lengths, null enumerators,
    null formats and a null pattern. For a null entry it reports the index.
    Every other call installs one facet.
  - The older string type checks a minimum and a maximum length directly.
    Its shared default instance never changes: its setters return a new
    string type.
- **Array types.** An array type has optional minimum and maximum sizes, where
  -1 means the bound is not set, and a set of allowed element types.
- **Small pieces.**
  - The message of a string-length problem, which reads "too short" or "too
    long" depending on which bound was crossed.
  - The validation result.
  - The type-acceptance rule of the number, integer and boolean value types:
    a number type also accepts integers.

How the Java constructs are modelled:

- A `null` argument is an `Option` that is `None`.
- A thrown exception is a `Failure` result, or an `Option<Exception>` for a
  method that returns nothing else. It carries the message key and the
  arguments of the message.
- The problem list that validation appends to is the class
  `Problems.ProblemList`.
- Types whose fields change are classes, with `modifies` clauses on their
  builders.
- Types are referred to through `Json.JsonTypeRef`. For class-modelled types
  this is the object itself, so a schema can refer to itself. The pedigree
  example, in which a horse's sire and dam are horses, is built by
  `ObjectTypes.PedigreeSchema`.
- Iteration over a `HashMap` or `HashSet` is a loop that takes the remaining
  keys in an unspecified order. The contract is stated for every order the
  loop may take: a ghost `order` lists each key exactly once.

Source paths below are relative to the repository root.

## Model

| member | source | states |
|---|---|---|
| Problems.Problem.GetThreshold | hibiscus/src/main/java/com/github/i49/hibiscus/schema/problems/StringLengthProblem.java:18-29 | the threshold read back is the one the problem was made with |
| Problems.Problem.GetInstanceLength | hibiscus/src/main/java/com/github/i49/hibiscus/schema/problems/StringLengthProblem.java:18-37 | the instance length read back is the one the problem was made with |
| Problems.MessageDirection | hibiscus/src/main/java/com/github/i49/hibiscus/schema/problems/StringLengthProblem.java:42-46 | the message opens with "String is too short..." exactly when the instance is shorter than the threshold, and with "String is too long..." otherwise, equality included |
| Problems.MessageReadsBack | hibiscus/src/main/java/com/github/i49/hibiscus/schema/problems/StringLengthProblem.java:40-50 | reading a message back (the number after the opening sentence, then the number between " characters but instance has " and the closing ".") gives exactly the threshold and the instance length it was written from |
| Problems.MessageIgnoresLocale | hibiscus/src/main/java/com/github/i49/hibiscus/schema/problems/StringLengthProblem.java:40-50 | the locale does not change the message |
| Problems.MessageDeterminesProblem | hibiscus/src/main/java/com/github/i49/hibiscus/schema/problems/StringLengthProblem.java:39-50 | two length problems with the same message have the same threshold and instance length |
| Decimal.IntToStringRoundTrip | hibiscus/src/main/java/com/github/i49/hibiscus/schema/problems/StringLengthProblem.java:47-48 | the decimal text of a number written into the message reads back as that number |
| Decimal.IntToStringInjective | hibiscus/src/main/java/com/github/i49/hibiscus/schema/problems/StringLengthProblem.java:47-48 | different numbers are written as different texts |
| ValueTypes.ValueType.GetType | hibiscus/src/main/java/com/github/i49/hibiscus/NumberType.java:6-8 | the number, integer and boolean types stand for NUMBER, INTEGER and BOOLEAN respectively |
| ValueTypes.NumberAccepts | hibiscus/src/main/java/com/github/i49/hibiscus/NumberType.java:11-13 | a number type accepts NUMBER and INTEGER and no other identifier |
| ValueTypes.ExactTypes | hibiscus/src/main/java/com/github/i49/hibiscus/IntegerType.java:11-13 | integer and boolean types accept an identifier exactly when it is their own |
| ValueTypes.AcceptsOwnType | hibiscus/src/main/java/com/github/i49/hibiscus/BooleanType.java:6-13 | every value type accepts its own identifier |
| ValueTypes.IntegerRefinesNumber | hibiscus/src/main/java/com/github/i49/hibiscus/IntegerType.java:11-13 | whatever an integer type accepts a number type accepts, but not conversely (NUMBER) |
| ValidationResults.ValidationResult.GetValue | hibiscus/src/main/java/com/github/i49/hibiscus/validation/ValidationResultImpl.java:22-30 | the value read back is the one the result was made with |
| ValidationResults.ValidationResult.GetProblems | hibiscus/src/main/java/com/github/i49/hibiscus/validation/ValidationResultImpl.java:37-40 | the problems read back are the ones the result was made with |
| ValidationResults.HasProblemsIffSomeProblem | hibiscus/src/main/java/com/github/i49/hibiscus/validation/ValidationResultImpl.java:32-35 | a result has problems exactly when some problem is listed, and has none exactly when the list is empty |
| ValidationResults.ResultKeepsItsParts | hibiscus/src/main/java/com/github/i49/hibiscus/validation/ValidationResultImpl.java:22-40 | a result made from a value and a problem list answers with that value, that list, and "has problems" iff the list is non-empty |
| Facets.Install | hibiscus/src/main/java/com/github/i49/hibiscus/schema/AbstractRestrictableType.java:64-67 | installing a facet files it under its class, replaces a facet of that class, keeps the facets of every other class and keeps one facet per class |
| Facets.InstalledFacetsAreLastOfKind | hibiscus/src/main/java/com/github/i49/hibiscus/schema/AbstractRestrictableType.java:64-67 | adding a sequence of facets to a type without facets files a facet under exactly the classes that occur in the sequence, and under each class the last facet of that class |
| Facets.ApplyAllOrderIrrelevant | hibiscus/src/main/java/com/github/i49/hibiscus/schema/AbstractRestrictableType.java:32-34 | applying the installed facets in any two orders reports the same problems the same number of times |
| RestrictableTypes.AbstractRestrictableType.constructor | hibiscus/src/main/java/com/github/i49/hibiscus/schema/AbstractRestrictableType.java:22 | a new type has no facet map |
| RestrictableTypes.AbstractRestrictableType.ValidateInstance | hibiscus/src/main/java/com/github/i49/hibiscus/schema/AbstractRestrictableType.java:24-35 | without a facet map nothing is appended; otherwise each installed facet is applied exactly once and its problems are appended after the earlier ones |
| RestrictableTypes.AbstractRestrictableType.Assertion | hibiscus/src/main/java/com/github/i49/hibiscus/schema/AbstractRestrictableType.java:43-54 | a null predicate, then a null message, is a schema error that changes nothing; otherwise an assertion facet replaces any earlier one and the type itself is returned |
| RestrictableTypes.AbstractRestrictableType.AddFacet | hibiscus/src/main/java/com/github/i49/hibiscus/schema/AbstractRestrictableType.java:60-68 | a null facet is an illegal state that changes nothing; otherwise the map is created if needed and the facet installed |
| RestrictableTypes.ValidateTwice | hibiscus/src/main/java/com/github/i49/hibiscus/schema/AbstractRestrictableType.java:24-35 | validating twice reports the same problems whatever order the map yields, and nothing when no facet is installed |
| StringTypeImpls.VerifyLength | hibiscus/src/main/java/com/github/i49/hibiscus/schema/internal/StringTypeImpl.java:104-108 | a length is rejected exactly when it is negative, with a schema error naming it |
| StringTypeImpls.CollectEnumerators | hibiscus/src/main/java/com/github/i49/hibiscus/schema/internal/StringTypeImpl.java:52-61 | succeeds exactly when no value is null, with the set of the values; otherwise fails naming the index of the first null |
| StringTypeImpls.CollectFormats | hibiscus/src/main/java/com/github/i49/hibiscus/schema/internal/StringTypeImpl.java:74-87 | a null first format fails with index 0 and a first null `moreFormats[k]` with index k+1; otherwise the set of all the formats |
| StringTypeImpls.StringTypeImpl.constructor | hibiscus/src/main/java/com/github/i49/hibiscus/schema/internal/StringTypeImpl.java:30-31 | a new string type has no facet |
| StringTypeImpls.StringTypeImpl.Length | hibiscus/src/main/java/com/github/i49/hibiscus/schema/internal/StringTypeImpl.java:33-37 | a negative length is a schema error that changes nothing; otherwise a length facet is installed and the type returned |
| StringTypeImpls.StringTypeImpl.MinLength | hibiscus/src/main/java/com/github/i49/hibiscus/schema/internal/StringTypeImpl.java:39-43 | a negative length is a schema error that changes nothing; otherwise a minimum-length facet is installed |
| StringTypeImpls.StringTypeImpl.MaxLength | hibiscus/src/main/java/com/github/i49/hibiscus/schema/internal/StringTypeImpl.java:45-49 | a negative length is a schema error that changes nothing; otherwise a maximum-length facet is installed |
| StringTypeImpls.StringTypeImpl.Enumeration | hibiscus/src/main/java/com/github/i49/hibiscus/schema/internal/StringTypeImpl.java:51-63 | a null value is a schema error naming the first null's index and changes nothing; otherwise an enumeration facet holding exactly the given strings is installed |
| StringTypeImpls.StringTypeImpl.Pattern | hibiscus/src/main/java/com/github/i49/hibiscus/schema/internal/StringTypeImpl.java:65-71 | a null expression is a schema error that changes nothing; otherwise a pattern facet with the expression is installed |
| StringTypeImpls.StringTypeImpl.Format | hibiscus/src/main/java/com/github/i49/hibiscus/schema/internal/StringTypeImpl.java:73-89 | null formats fail as `CollectFormats` says and change nothing; otherwise a format facet holding all the formats is installed |
| StringTypeImpls.EnumeratorsCollapseDuplicates | hibiscus/src/main/java/com/github/i49/hibiscus/schema/internal/StringTypeImpl.java:53-62 | listing a string again does not change the enumerator set |
| StringTypes.LengthProblems | hibiscus/src/main/java/com/github/i49/hibiscus/schema/types/StringType.java:42-48 | at most two problems, each a string-length problem carrying the actual length |
| StringTypes.StringType.constructor | hibiscus/src/main/java/com/github/i49/hibiscus/schema/types/StringType.java:22-23 | a new string type has minimum 0, maximum `Integer.MAX_VALUE` and no allowed values |
| StringTypes.StringType.Default | hibiscus/src/main/java/com/github/i49/hibiscus/schema/types/StringType.java:88-93 | the default instance starts with the same settings and is marked as the default |
| StringTypes.StringType.GetTypeId | hibiscus/src/main/java/com/github/i49/hibiscus/schema/types/StringType.java:33-36 | the type identifier is STRING |
| StringTypes.StringType.ValidateInstance | hibiscus/src/main/java/com/github/i49/hibiscus/schema/types/StringType.java:38-49 | the default instance (its override at lines 90-93) accepts any value and appends nothing; any other appends the length problems of the string after the earlier problems |
| StringTypes.StringType.MinLength | hibiscus/src/main/java/com/github/i49/hibiscus/schema/types/StringType.java:56-59 | sets the minimum and returns the type; on the default instance (its override at lines 95-98) leaves it unchanged and returns a new type with that minimum |
| StringTypes.StringType.MaxLength | hibiscus/src/main/java/com/github/i49/hibiscus/schema/types/StringType.java:66-69 | sets the maximum and returns the type; on the default instance (its override at lines 100-103) leaves it unchanged and returns a new type with that maximum |
| StringTypes.StringType.Values | hibiscus/src/main/java/com/github/i49/hibiscus/schema/types/StringType.java:76-83 | the allowed values become exactly the given strings; on the default instance (its override at lines 105-108) a new type gets them instead |
| StringTypes.StringTypeStatics.GetDefault | hibiscus/src/main/java/com/github/i49/hibiscus/schema/types/StringType.java:29-31 | always the one shared default instance |
| StringTypes.TooShortOneProblem | hibiscus/src/main/java/com/github/i49/hibiscus/schema/types/StringType.java:43-45 | a string shorter than the minimum, within the maximum, gets exactly the problem (minimum, length) |
| StringTypes.TooLongOneProblem | hibiscus/src/main/java/com/github/i49/hibiscus/schema/types/StringType.java:46-48 | a string longer than the maximum, not below the minimum, gets exactly the problem (maximum, length) |
| StringTypes.NoProblemIffWithinBounds | hibiscus/src/main/java/com/github/i49/hibiscus/schema/types/StringType.java:42-48 | no problem exactly when minimum <= length <= maximum |
| StringTypes.CrossedBoundsTwoProblems | hibiscus/src/main/java/com/github/i49/hibiscus/schema/types/StringType.java:43-48 | with the maximum below the minimum, a length between them gets both problems, minimum first |
| StringTypes.InitialBoundsAcceptAll | hibiscus/src/main/java/com/github/i49/hibiscus/schema/types/StringType.java:22-23 | with the initial bounds no string a Java string can hold gets a problem |
| StringTypes.ProblemMessagesMatchDirection | hibiscus/src/main/java/com/github/i49/hibiscus/schema/types/StringType.java:43-48 | the minimum's problem reads "too short" and the maximum's problem reads "too long" |
| ArrayTypes.SizeProblems | hibiscus/src/main/java/com/github/i49/hibiscus/schema/ArrayType.java:38-44 | at most two problems, each a too-short or too-long problem carrying the size and the (minimum, maximum) range |
| ArrayTypes.ArrayType.constructor | hibiscus/src/main/java/com/github/i49/hibiscus/schema/ArrayType.java:19-28 | a new array type allows no element type and has both bounds unset (-1) |
| ArrayTypes.ArrayType.GetTypeId | hibiscus/src/main/java/com/github/i49/hibiscus/schema/ArrayType.java:30-33 | the type identifier is ARRAY |
| ArrayTypes.ArrayType.ValidateInstance | hibiscus/src/main/java/com/github/i49/hibiscus/schema/ArrayType.java:35-45 | appends the size problems of the array after the earlier problems |
| ArrayTypes.ArrayType.Items | hibiscus/src/main/java/com/github/i49/hibiscus/schema/ArrayType.java:52-55 | the allowed element types become exactly the given ones; the bounds are kept |
| ArrayTypes.ArrayType.GetItemTypes | hibiscus/src/main/java/com/github/i49/hibiscus/schema/ArrayType.java:61-63 | the allowed element types |
| ArrayTypes.ArrayType.MinItems | hibiscus/src/main/java/com/github/i49/hibiscus/schema/ArrayType.java:70-73 | stores the minimum, keeps the rest, returns the type |
| ArrayTypes.ArrayType.MaxItems | hibiscus/src/main/java/com/github/i49/hibiscus/schema/ArrayType.java:80-83 | stores the maximum, keeps the rest, returns the type |
| ArrayTypes.UnsetBoundsNeverComplain | hibiscus/src/main/java/com/github/i49/hibiscus/schema/ArrayType.java:39-44 | an unset minimum never gives a too-short problem, an unset maximum never a too-long one |
| ArrayTypes.TooShortOneProblem | hibiscus/src/main/java/com/github/i49/hibiscus/schema/ArrayType.java:39-41 | too few elements with a set minimum, maximum not exceeded: exactly one too-short problem |
| ArrayTypes.TooLongOneProblem | hibiscus/src/main/java/com/github/i49/hibiscus/schema/ArrayType.java:42-44 | too many elements with a set maximum, minimum reached: exactly one too-long problem |
| ArrayTypes.NoProblemIffWithinBounds | hibiscus/src/main/java/com/github/i49/hibiscus/schema/ArrayType.java:39-44 | no problem exactly when the size is within every bound that is set |
| ArrayTypes.ValidateKeepsEarlier | hibiscus/src/main/java/com/github/i49/hibiscus/schema/ArrayType.java:36-45 | validation keeps every earlier problem in place, adds at most two, and none within the bounds |
| ObjectTypes.ObjectTypeImpl.constructor | hibiscus/src/main/java/com/github/i49/hibiscus/schema/internal/ObjectTypeImpl.java:27-36 | a new object type has no property, no required name, no pattern property, and does not allow more properties |
| ObjectTypes.ObjectTypeImpl.Properties | hibiscus/src/main/java/com/github/i49/hibiscus/schema/internal/ObjectTypeImpl.java:38-44 | the named properties and required names become those the entries declare (earlier ones cleared), pattern entries are appended to the earlier pattern properties; a null entry is a schema error naming its index, with the entries before it added |
| ObjectTypes.ObjectTypeImpl.AddProperties | hibiscus/src/main/java/com/github/i49/hibiscus/schema/internal/ObjectTypeImpl.java:85-98 | adds the entries in order onto the current state, stopping with an error at the first null |
| ObjectTypes.ObjectTypeImpl.AddNamedProperty | hibiscus/src/main/java/com/github/i49/hibiscus/schema/internal/ObjectTypeImpl.java:100-105 | files the property under its name and adds its name to the required set when it is required |
| ObjectTypes.ObjectTypeImpl.AddProperty | hibiscus/src/main/java/com/github/i49/hibiscus/schema/internal/ObjectTypeImpl.java:107-112 | creates the pattern list if needed and appends the property |
| ObjectTypes.ObjectTypeImpl.ValidateInstance | hibiscus/src/main/java/com/github/i49/hibiscus/schema/internal/ObjectTypeImpl.java:46-55 | visits every required name once and appends a missing-property problem for each one the object lacks, after the earlier problems |
| ObjectTypes.ObjectTypeImpl.MoreProperties | hibiscus/src/main/java/com/github/i49/hibiscus/schema/internal/ObjectTypeImpl.java:57-61 | afterwards more properties are allowed; the properties are kept and the type returned |
| ObjectTypes.ObjectTypeImpl.AllowsMoreProperties | hibiscus/src/main/java/com/github/i49/hibiscus/schema/internal/ObjectTypeImpl.java:80-83 | answers the flag that a new type has cleared (see the constructor) and `moreProperties()` sets (see `MoreProperties`) |
| ObjectTypes.ObjectTypeImpl.GetProperty | hibiscus/src/main/java/com/github/i49/hibiscus/schema/internal/ObjectTypeImpl.java:68-78 | a null name finds nothing; a declared name finds its named property; any other name finds the first matching pattern property, or nothing |
| ObjectTypes.ObjectTypeImpl.FindPatternProperty | hibiscus/src/main/java/com/github/i49/hibiscus/schema/internal/ObjectTypeImpl.java:114-124 | the first pattern property in insertion order that matches the name, and nothing exactly when none matches |
| ObjectTypes.DeclaredIffSomeDeclaration | hibiscus/src/main/java/com/github/i49/hibiscus/schema/internal/ObjectTypeImpl.java:100-101 | a name has a named property exactly when some entry declares it |
| ObjectTypes.LastDeclarationWins | hibiscus/src/main/java/com/github/i49/hibiscus/schema/internal/ObjectTypeImpl.java:100-101 | a name declared several times is filed with its last declaration |
| ObjectTypes.RequiredIffSomeRequiredDeclaration | hibiscus/src/main/java/com/github/i49/hibiscus/schema/internal/ObjectTypeImpl.java:102-104 | a name is required exactly when some entry declares it required |
| ObjectTypes.RequiredAreDeclared | hibiscus/src/main/java/com/github/i49/hibiscus/schema/internal/ObjectTypeImpl.java:100-105 | every required name has a named property |
| ObjectTypes.RequiredOutlivesOptionalRedeclaration | hibiscus/src/main/java/com/github/i49/hibiscus/schema/internal/ObjectTypeImpl.java:100-105 | a name declared required and later redeclared optional stays required although its property is the optional one |
| ObjectTypes.MissingProblemsExact | hibiscus/src/main/java/com/github/i49/hibiscus/schema/internal/ObjectTypeImpl.java:50-54 | the problems are missing-property problems, one for each visited name the object lacks and for no other name |
| ObjectTypes.MissingProblemsNoDuplicates | hibiscus/src/main/java/com/github/i49/hibiscus/schema/internal/ObjectTypeImpl.java:50-54 | visiting each name once reports each missing name once |
| ObjectTypes.ReportMissing | hibiscus/src/main/java/com/github/i49/hibiscus/schema/internal/ObjectTypeImpl.java:47-55 | whatever the set order, validation reports exactly the required names the object lacks, each once, and nothing else |
| ObjectTypes.PedigreeSchema | hibiscus-examples/src/main/java/com/github/i49/hibiscus/examples/PedigreeValidator.java:12-22 | the horse schema requires name and birth year, and its sire and dam properties refer to the horse type itself |
| UnknownObjectTypes.UnknownObjectType.Properties | hibiscus/src/main/java/com/github/i49/hibiscus/validation/UnknownObjectType.java:22-25 | ignores the entries, null ones included, and returns the instance |
| UnknownObjectTypes.UnknownObjectType.MoreProperties | hibiscus/src/main/java/com/github/i49/hibiscus/validation/UnknownObjectType.java:27-30 | returns the instance |
| UnknownObjectTypes.UnknownObjectType.Facet | hibiscus/src/main/java/com/github/i49/hibiscus/validation/UnknownObjectType.java:32-35 | ignores the facet, a null one included, and returns the instance |
| UnknownObjectTypes.UnknownObjectType.Assertion | hibiscus/src/main/java/com/github/i49/hibiscus/validation/UnknownObjectType.java:37-40 | ignores its arguments, null ones included, and returns the instance |
| UnknownObjectTypes.UnknownObjectType.GetProperty | hibiscus/src/main/java/com/github/i49/hibiscus/validation/UnknownObjectType.java:42-45 | no name, null included, finds a property |
| UnknownObjectTypes.UnknownObjectType.AllowsMoreProperties | hibiscus/src/main/java/com/github/i49/hibiscus/validation/UnknownObjectType.java:47-50 | more properties are always allowed |
| UnknownObjectTypes.NeverRejects | hibiscus/src/main/java/com/github/i49/hibiscus/validation/UnknownObjectType.java:22-50 | for every value of the type, and so after any builder calls, including `assertion`, no member name is both undeclared and disallowed |
| UnknownObjectTypes.SingleInstance | hibiscus/src/main/java/com/github/i49/hibiscus/validation/UnknownObjectType.java:17-20 | there is exactly one instance |

## Left out

- `AbstractJsonType` is not part of this model. Three things therefore do not
  appear:
  - `ObjectTypes.ObjectTypeImpl.ValidateInstance`: the `super.validateInstance`
    call at its start is left out. The contract covers only the
    missing-property check.
  - `ObjectTypeImpl.assertion`: it only delegates to that class, so it is not
    modelled.
  - `StringTypeImpls.StringTypeImpl.AddFacet`: it stands in for the inherited
    `facet(...)`. It installs the facet in the same map discipline as
    `Facets.Install`, and the map is created eagerly.
- `StringTypes.StringType.ValidateInstance`: the `super.validateInstance` call
  at its start is left out, because the superclass is not part of this model.
- What a facet checks is left out. Applying a facet is the abstract
  `apply: (Facet, JsonValue) -> seq<Problem>`, so only "which facets are
  applied, how often, and where their problems go" is modelled. The
  length-facet problem classes chosen in `StringTypeImpl` are therefore not
  modelled either.
- The facet classes are limited to the seven the modelled builders install
  (`Facets.FacetKind`). The other facet classes of the program, such as those
  of the number types, are not installed by any modelled type.
- Regular expressions are left out: the syntax of a pattern,
  `PatternSyntaxException`, and matching. A pattern facet keeps its expression
  as text. A pattern property matches names through an arbitrary
  `string -> bool` predicate.
- `StringTypeImpls.GetLength`: no modelled facet uses this measure, because
  facet application is abstract, so nothing ties the length facets to it.
  Java's `String.length()` counts UTF-16 code units. The model counts the characters of a `seq<char>`, so a string outside
  the Basic Multilingual Plane measures shorter here. The same holds for
  `StringTypes.StringType.ValidateInstance`.
- `RestrictableTypes.AbstractRestrictableType.ValidateInstance`: the order of
  `HashMap.values()` is not modelled. The loop may take the facets in any
  order, and the contract and `Facets.ApplyAllOrderIrrelevant` hold for all of
  them. `ObjectTypes.ObjectTypeImpl.ValidateInstance` is treated the same way
  for the `HashSet` of required names.
- `StringTypes.StringType.Values`: the values are non-null strings. A null
  entry, which Java would hand to `JsonValues.createString`, is not modelled,
  because that helper is not part of this model.
- `ArrayTypes.ArrayType.Items`: `TypeSet.of` is not part of this model. The
  allowed types are the set of the given references, and its own checks (null
  or duplicate types) are left out.
- `ValidationResults.ValidationResult.GetProblems`: Java returns the very list
  object given to the constructor, so a caller could change it later. The
  model holds the problems as a value, so that aliasing is not captured.
- Exception messages are left out. The message catalogs are not part of this
  model, so an exception carries the message key and its arguments, not the
  localized text.
- The string formats (`Inet4AddressFormat`, `Inet6AddressFormat`) delegate to
  a foreign library. A format is only a name here.
- The validating reader, `BasicJsonValidator` and `JsonValidator` are I/O
  plumbing over a JSON parser and are not modelled. So is the unknown-property
  check that consults `getProperty` and `allowsMoreProperties`.
  `UnknownObjectTypes.RejectsName` states that check only for the unknown
  object type.
- The static `StringType.DEFAULT` is the constant of a holder object,
  `StringTypes.StringTypeStatics`. Dafny has no static mutable state to
  initialise at class-load time.
- Java `int` parameters of the setters are `Int32`. Lengths and sizes
  measured from values are unbounded `nat`s. `StringTypes.InitialBoundsAcceptAll`
  therefore assumes a length that a Java string can have.
