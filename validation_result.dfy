/**
 * The outcome of one validation: the JSON value read from the document and
 * the problems found in it. Both parts are fixed when the result is made.
 */
module ValidationResults {
  import opened Json
  import opened Problems

  datatype ValidationResult = ValidationResult(value: JsonValue, problems: seq<Problem>)
  {
    /** `getValue()`. */
    function GetValue(): (r: JsonValue)
      ensures this == ValidationResult(r, problems)
    {
      value
    }

    /** `getProblems()`. */
    function GetProblems(): (r: seq<Problem>)
      ensures this == ValidationResult(value, r)
    {
      problems
    }

    /** `hasProblems()`: whether at least one problem was found. */
    predicate HasProblems()
    {
      GetProblems() != []
    }
  }

  /** A result has problems exactly when some problem is listed in it. */
  lemma HasProblemsIffSomeProblem(r: ValidationResult)
    ensures r.HasProblems() <==> exists p :: p in r.GetProblems()
    ensures !r.HasProblems() <==> |r.problems| == 0
  {
    if r.HasProblems() {
      assert r.problems[0] in r.GetProblems();
    }
  }

  /** Building a result from a list of problems and asking again gives the same answers. */
  lemma ResultKeepsItsParts(value: JsonValue, problems: seq<Problem>)
    ensures ValidationResult(value, problems).GetValue() == value
    ensures ValidationResult(value, problems).GetProblems() == problems
    ensures ValidationResult(value, problems).HasProblems() <==> problems != []
  {
  }
}
