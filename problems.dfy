/**
 * The problems validation reports, the list they are appended to, and the
 * message of `StringLengthProblem`, the one problem in this model whose text
 * is built in code rather than taken from a message catalog.
 */
module Problems {
  import opened Base
  import opened Json
  import opened Decimal

  /** The `(minimum, maximum)` pair an array-size problem carries; -1 means unset. */
  datatype IntRange = IntRange(minimum: int, maximum: int)

  /** A locale tag; no message in this model depends on it. */
  type Locale = string

  datatype Problem =
    | StringLengthProblem(threshold: int, instanceLength: int)
    | MissingPropertyProblem(propertyName: string)
    | ArrayTooShortProblem(actualSize: int, range: IntRange)
    | ArrayTooLongProblem(actualSize: int, range: IntRange)
      // Data carriers whose text comes from message catalogs:
    | ArrayLengthProblem(actualLength: int, expectedLength: int)
    | NoSuchEnumeratorProblem(enumerators: set<JsonValue>)
    | UnknownValueProblem(value: JsonValue, expected: set<JsonValue>)
    | ExclusiveLowerBoundProblem(number: JsonValue, bound: JsonValue)
    | NotMoreThanMinimumProblem(number: JsonValue, bound: JsonValue)
    | UnknownPropertyProblem(unknownName: string)
  {
    /** `StringLengthProblem.getThreshold()`. */
    function GetThreshold(): (r: int)
      requires StringLengthProblem?
      ensures this == StringLengthProblem(r, instanceLength)
    {
      threshold
    }

    /** `StringLengthProblem.getInstanceLength()`. */
    function GetInstanceLength(): (r: int)
      requires StringLengthProblem?
      ensures this == StringLengthProblem(threshold, r)
    {
      instanceLength
    }

    /** `StringLengthProblem.getMessage(locale)`. */
    function GetMessage(locale: Locale): string
      requires StringLengthProblem?
    {
      var head := if GetInstanceLength() < GetThreshold() then TooShortHead else TooLongHead;
      head + IntToString(GetThreshold()) + " characters " + "but instance has "
        + IntToString(GetInstanceLength()) + "."
    }
  }

  const TooShortHead := "String is too short. It must have at least "
  const TooLongHead := "String is too long. It must have at most "
  const Middle := " characters but instance has "

  /** The message opens with the "too short" sentence exactly when the string is shorter than the threshold. */
  lemma MessageDirection(p: Problem, locale: Locale)
    requires p.StringLengthProblem?
    ensures TooShortHead <= p.GetMessage(locale) <==> p.instanceLength < p.threshold
    ensures TooLongHead <= p.GetMessage(locale) <==> p.instanceLength >= p.threshold
  {
    var m := p.GetMessage(locale);
    assert TooShortHead[14] != TooLongHead[14];
    if p.instanceLength < p.threshold {
      assert m[..|TooShortHead|] == TooShortHead;
      assert m[14] == TooShortHead[14];
    } else {
      assert m[..|TooLongHead|] == TooLongHead;
      assert m[14] == TooLongHead[14];
    }
  }

  /** After its opening sentence the message states the threshold and then the actual length. */
  lemma MessageLayout(p: Problem, locale: Locale)
    requires p.StringLengthProblem?
    ensures p.GetMessage(locale) == Head(p) + (IntToString(p.threshold) + (Middle + (IntToString(p.instanceLength) + ".")))
  {
    var t, l := IntToString(p.threshold), IntToString(p.instanceLength);
    var c, b := " characters ", "but instance has ";
    assert c + b == Middle;
    var h := Head(p);
    assert p.GetMessage(locale) == h + t + c + b + l + ".";
    assert h + t + c + b + l + "." == h + (t + ((c + b) + (l + ".")));
  }

  /** The opening sentence the message of `p` starts with. */
  function Head(p: Problem): string
    requires p.StringLengthProblem?
  {
    if p.instanceLength < p.threshold then TooShortHead else TooLongHead
  }

  /** The locale does not change the message. */
  lemma MessageIgnoresLocale(p: Problem, l1: Locale, l2: Locale)
    requires p.StringLengthProblem?
    ensures p.GetMessage(l1) == p.GetMessage(l2)
  {
  }

  /** The index of the first space of `s`, or `|s|` when there is none. */
  function FirstSpace(s: string): (i: nat)
    ensures i <= |s|
    ensures forall j :: 0 <= j < i ==> s[j] != ' '
    ensures i < |s| ==> s[i] == ' '
  {
    if s == [] || s[0] == ' ' then 0 else 1 + FirstSpace(s[1..])
  }

  /**
   * Reads a string-length message back: after the opening sentence, the
   * rest is read by `ReadNumbers`. `None` for any other text.
   */
  function ReadMessage(m: string): Option<(int, int)>
  {
    if TooShortHead <= m then ReadNumbers(m[|TooShortHead|..])
    else if TooLongHead <= m then ReadNumbers(m[|TooLongHead|..])
    else None
  }

  /**
   * The threshold is the number up to the first space, and the instance
   * length the number between `Middle` and the closing ".".
   */
  function ReadNumbers(rest: string): Option<(int, int)>
  {
    var i := FirstSpace(rest);
    var after := rest[i..];
    if !(Middle <= after) || |after| == |Middle| || after[|after| - 1] != '.' then None
    else
      var t, l := ParseInt(rest[..i]), ParseInt(after[|Middle|..|after| - 1]);
      if t.None? || l.None? then None else Some((t.value, l.value))
  }

  lemma IntToStringHasNoSpace(n: int)
    ensures forall i :: 0 <= i < |IntToString(n)| ==> IntToString(n)[i] != ' '
  {
  }

  /** The two numbers written after the opening sentence read back as themselves. */
  lemma {:induction false} ReadNumbersRoundTrip(a: int, b: int)
    ensures ReadNumbers(IntToString(a) + (Middle + (IntToString(b) + "."))) == Some((a, b))
  {
    var t, l := IntToString(a), IntToString(b);
    var rest := t + (Middle + (l + "."));
    IntToStringHasNoSpace(a);
    assert rest[|t|] == ' ';
    var i := FirstSpace(rest);
    assert i == |t|;
    assert rest[..i] == t;
    var after := rest[i..];
    assert after == Middle + (l + ".");
    assert after[|Middle|..|after| - 1] == l;
    IntToStringRoundTrip(a);
    IntToStringRoundTrip(b);
  }

  /** Reading the message back gives the threshold and the instance length it was written from. */
  lemma {:induction false} MessageReadsBack(p: Problem, locale: Locale)
    requires p.StringLengthProblem?
    ensures ReadMessage(p.GetMessage(locale)) == Some((p.threshold, p.instanceLength))
  {
    var m := p.GetMessage(locale);
    var rest := IntToString(p.threshold) + (Middle + (IntToString(p.instanceLength) + "."));
    MessageDirection(p, locale);
    MessageLayout(p, locale);
    if p.instanceLength < p.threshold {
      assert m[|TooShortHead|..] == rest;
    } else {
      assert m[|TooLongHead|..] == rest;
    }
    ReadNumbersRoundTrip(p.threshold, p.instanceLength);
  }

  /**
   * The message identifies the problem: two length problems with the same
   * message have the same threshold and the same actual length.
   */
  lemma MessageDeterminesProblem(p: Problem, q: Problem, locale: Locale)
    requires p.StringLengthProblem? && q.StringLengthProblem?
    requires p.GetMessage(locale) == q.GetMessage(locale)
    ensures p == q
  {
    MessageReadsBack(p, locale);
    MessageReadsBack(q, locale);
  }

  /**
   * The `List<Problem>` that validation appends to. It is shared by every
   * type that validates a value, so it is an object of its own.
   */
  class ProblemList {
    var items: seq<Problem>

    constructor ()
      ensures items == []
    {
      items := [];
    }

    method Add(p: Problem)
      modifies this
      ensures items == old(items) + [p]
    {
      items := items + [p];
    }

    method AddAll(ps: seq<Problem>)
      modifies this
      ensures items == old(items) + ps
    {
      items := items + ps;
    }
  }
}
