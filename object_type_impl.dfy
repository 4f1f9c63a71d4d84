/**
 * The object type of the schema builder. Named properties are kept in a map
 * keyed by name, together with the set of names that must be present; other
 * properties match names by pattern and are kept in a list that is created
 * on the first one added. A lookup tries the named properties first and then
 * the pattern properties, in the order they were added.
 */
module ObjectTypes {
  import opened Base
  import opened Json
  import opened Problems
  import StringTypeImpls

  /**
   * A property of an object type: declared under an exact name, required or
   * optional, or matching every name a matcher accepts.
   */
  datatype Property =
    | NamedProperty(name: string, valueType: JsonTypeRef, required: bool)
    | PatternProperty(matcher: string -> bool, valueType: JsonTypeRef)
  {
    /** `matches(name)`, as the lookup of pattern properties asks it. */
    predicate Matches(n: string)
    {
      PatternProperty? && matcher(n)
    }
  }

  /** `p` declares the property `name`. */
  predicate Declares(p: Property, name: string)
  {
    p.NamedProperty? && p.name == name
  }

  /** `p` declares the property `name` as required. */
  predicate DeclaresRequired(p: Property, name: string)
  {
    Declares(p, name) && p.required
  }

  /** Every named property is filed under its own name. */
  ghost predicate KeyedByName(m: map<string, Property>)
  {
    forall n :: n in m ==> Declares(m[n], n)
  }

  /** Every entry of the list is a pattern property. */
  ghost predicate AllPatterns(ps: seq<Property>)
  {
    forall i :: 0 <= i < |ps| ==> ps[i].PatternProperty?
  }

  /** The named-property map after filing the named entries of `ps`, in order, into `m`. */
  function PutNamed(m: map<string, Property>, ps: seq<Property>): (r: map<string, Property>)
    ensures KeyedByName(m) ==> KeyedByName(r)
    ensures m.Keys <= r.Keys
  {
    if ps == [] then m
    else
      var p := ps[|ps| - 1];
      var r' := PutNamed(m, ps[..|ps| - 1]);
      if p.NamedProperty? then r'[p.name := p] else r'
  }

  /** The required names after adding those of the required named entries of `ps` to `s`. */
  function AddRequired(s: set<string>, ps: seq<Property>): (r: set<string>)
    ensures s <= r
  {
    if ps == [] then s
    else
      var p := ps[|ps| - 1];
      var r' := AddRequired(s, ps[..|ps| - 1]);
      if p.NamedProperty? && p.required then r' + {p.name} else r'
  }

  /** The entries of `ps` that are not named properties, in order. */
  function PatternsOf(ps: seq<Property>): (r: seq<Property>)
    ensures AllPatterns(r) && |r| <= |ps|
  {
    if ps == [] then []
    else
      var p := ps[|ps| - 1];
      PatternsOf(ps[..|ps| - 1]) + (if p.NamedProperty? then [] else [p])
  }

  /**
   * `r` is what the pattern lookup over `ps` answers for `name`: the first
   * property that matches, or none when no property matches.
   */
  ghost predicate IsFirstMatch(ps: seq<Property>, name: string, r: Option<Property>)
  {
    && (r.None? <==> forall j :: 0 <= j < |ps| ==> !ps[j].Matches(name))
    && (r.Some? ==>
          exists i :: 0 <= i < |ps| && ps[i] == r.value && ps[i].Matches(name)
                      && forall j :: 0 <= j < i ==> !ps[j].Matches(name))
  }

  /** The problems reported, in the order of `order`, for the names of `order` that are not among `keys`. */
  function MissingProblems(order: seq<string>, keys: set<string>): seq<Problem>
  {
    if order == [] then []
    else
      var n := order[|order| - 1];
      MissingProblems(order[..|order| - 1], keys)
        + (if n in keys then [] else [MissingPropertyProblem(n)])
  }

  class ObjectTypeImpl {
    /** The named properties, keyed by name. */
    var properties: map<string, Property>
    /** The names of the required properties. */
    var required: set<string>
    /** Whether properties not declared are allowed. */
    var moreProperties: bool
    /** The pattern properties, in the order added. */
    var patternProperties: seq<Property>
    /** Whether the pattern list has been created (it is `null` until the first pattern property). */
    var patternsCreated: bool

    /** Every required name is a declared property; the pattern list holds only pattern properties. */
    ghost predicate Valid()
      reads this
    {
      && KeyedByName(properties)
      && required <= properties.Keys
      && AllPatterns(patternProperties)
      && (!patternsCreated ==> patternProperties == [])
    }

    /** `allowsMoreProperties()`: the flag `moreProperties()` sets. */
    function AllowsMoreProperties(): (r: bool)
      reads this
      ensures r == moreProperties
    {
      moreProperties
    }

    /** A new object type: no property, and no property beyond the declared ones allowed. */
    constructor ()
      ensures Valid()
      ensures properties == map[] && required == {} && patternProperties == []
      ensures !AllowsMoreProperties()
    {
      properties := map[];
      required := {};
      moreProperties := false;
      patternProperties := [];
      patternsCreated := false;
    }

    /**
     * `properties(properties...)`: replaces the named properties and the
     * required names by those the entries declare, a later declaration of a
     * name replacing an earlier one, and appends the pattern entries to the
     * pattern properties already present. A null entry is a schema error
     * naming its index; the entries before it have been added by then.
     */
    method Properties(entries: seq<Option<Property>>) returns (r: Result<ObjectTypeImpl>)
      requires Valid()
      modifies this
      ensures Valid()
      ensures moreProperties == old(moreProperties)
      ensures NoNulls(entries) ==>
        && r == Success(this)
        && properties == PutNamed(map[], Unwrap(entries))
        && required == AddRequired({}, Unwrap(entries))
        && patternProperties == old(patternProperties) + PatternsOf(Unwrap(entries))
      ensures !NoNulls(entries) ==>
        var i := FirstNullIndex(entries);
        && r == Failure(SchemaException(PropertyIsNull(i)))
        && properties == PutNamed(map[], Unwrap(entries[..i]))
        && required == AddRequired({}, Unwrap(entries[..i]))
        && patternProperties == old(patternProperties) + PatternsOf(Unwrap(entries[..i]))
    {
      properties := map[];
      required := {};
      var e := AddProperties(entries);
      if e.Some? {
        return Failure(e.value);
      }
      r := Success(this);
    }

    /** `addProperties(properties)`: adds the entries in order, stopping at the first null. */
    method AddProperties(entries: seq<Option<Property>>) returns (error: Option<Exception>)
      requires Valid()
      modifies this
      ensures Valid()
      ensures moreProperties == old(moreProperties)
      ensures NoNulls(entries) ==>
        && error == None
        && properties == PutNamed(old(properties), Unwrap(entries))
        && required == AddRequired(old(required), Unwrap(entries))
        && patternProperties == old(patternProperties) + PatternsOf(Unwrap(entries))
      ensures !NoNulls(entries) ==>
        var i := FirstNullIndex(entries);
        && error == Some(SchemaException(PropertyIsNull(i)))
        && properties == PutNamed(old(properties), Unwrap(entries[..i]))
        && required == AddRequired(old(required), Unwrap(entries[..i]))
        && patternProperties == old(patternProperties) + PatternsOf(Unwrap(entries[..i]))
    {
      ghost var named, names, patterns := properties, required, patternProperties;
      var index := 0;
      while index < |entries|
        invariant 0 <= index <= |entries|
        invariant NoNulls(entries[..index])
        invariant moreProperties == old(moreProperties)
        invariant properties == PutNamed(named, Unwrap(entries[..index]))
        invariant required == AddRequired(names, Unwrap(entries[..index]))
        invariant patternProperties == patterns + PatternsOf(Unwrap(entries[..index]))
        invariant old(patternsCreated) ==> patternsCreated
        invariant !patternsCreated ==> patternProperties == []
      {
        var p := entries[index];
        if p.None? {
          FirstNullIsUnique(entries, index, FirstNullIndex(entries));
          RequiredAreDeclared(named, names, Unwrap(entries[..index]));
          return Some(SchemaException(PropertyIsNull(index)));
        }
        UnwrapStep(entries, index);
        if p.value.NamedProperty? {
          AddNamedStep(named, names, Unwrap(entries[..index]), p.value);
          AddNamedProperty(p.value);
        } else {
          AddPatternStep(named, names, Unwrap(entries[..index]), p.value);
          AddProperty(p.value);
        }
        index := index + 1;
      }
      assert entries[..index] == entries;
      RequiredAreDeclared(named, names, Unwrap(entries));
      error := None;
    }

    /** `addNamedProperty(property)`: files the property under its name and records a required name. */
    method AddNamedProperty(property: Property)
      requires property.NamedProperty?
      modifies this
      ensures properties == old(properties)[property.name := property]
      ensures required == if property.required then old(required) + {property.name} else old(required)
      ensures moreProperties == old(moreProperties)
      ensures patternProperties == old(patternProperties) && patternsCreated == old(patternsCreated)
    {
      properties := properties[property.name := property];
      if property.required {
        required := required + {property.name};
      }
    }

    /** `addProperty(property)`: appends a pattern property, creating the list on the first one. */
    method AddProperty(property: Property)
      requires property.PatternProperty? && (patternsCreated || patternProperties == [])
      modifies this
      ensures patternsCreated && patternProperties == old(patternProperties) + [property]
      ensures properties == old(properties) && required == old(required) && moreProperties == old(moreProperties)
    {
      if !patternsCreated {
        patternProperties := [];
        patternsCreated := true;
      }
      patternProperties := patternProperties + [property];
    }

    /**
     * `validateInstance(value, problems)`: appends one missing-property
     * problem for each required name the object lacks, visiting the
     * required names in the (unspecified) order of the set.
     */
    method ValidateInstance(value: JsonValue, problems: ProblemList) returns (ghost order: seq<string>)
      requires Valid() && value.JObject?
      modifies problems
      ensures Enumerates(order, required)
      ensures problems.items == old(problems.items) + MissingProblems(order, value.members.Keys)
    {
      order := [];
      var remaining := required;
      while remaining != {}
        invariant NoDuplicates(order)
        invariant Elements(order) !! remaining
        invariant Elements(order) + remaining == required
        invariant problems.items == old(problems.items) + MissingProblems(order, value.members.Keys)
        decreases remaining
      {
        var name :| name in remaining;
        if name !in value.members {
          problems.Add(MissingPropertyProblem(name));
        }
        assert (order + [name])[..|order|] == order;
        order := order + [name];
        remaining := remaining - {name};
      }
    }

    /** `moreProperties()`: allows properties beyond the declared ones. */
    method MoreProperties() returns (r: ObjectTypeImpl)
      requires Valid()
      modifies this
      ensures Valid() && r == this && AllowsMoreProperties()
      ensures properties == old(properties) && required == old(required)
      ensures patternProperties == old(patternProperties) && patternsCreated == old(patternsCreated)
    {
      moreProperties := true;
      r := this;
    }

    /**
     * `getProperty(name)`: a null name finds nothing; a declared name finds
     * its named property; any other name finds the first pattern property
     * that matches it, if any.
     */
    method GetProperty(name: Option<string>) returns (r: Option<Property>)
      requires Valid()
      ensures name.None? ==> r.None?
      ensures name.Some? && name.value in properties ==> r == Some(properties[name.value])
      ensures name.Some? && name.value !in properties ==> IsFirstMatch(patternProperties, name.value, r)
    {
      if name.None? {
        return None;
      }
      if name.value in properties {
        return Some(properties[name.value]);
      }
      r := FindPatternProperty(name.value);
    }

    /** `findPatternProperty(name)`: the first pattern property, in the order added, matching the name. */
    method FindPatternProperty(name: string) returns (r: Option<Property>)
      requires Valid()
      ensures IsFirstMatch(patternProperties, name, r)
    {
      if !patternsCreated {
        return None;
      }
      var ps := patternProperties;
      var i := 0;
      while i < |ps|
        invariant 0 <= i <= |ps|
        invariant forall j :: 0 <= j < i ==> !ps[j].Matches(name)
      {
        if ps[i].Matches(name) {
          return Some(ps[i]);
        }
        i := i + 1;
      }
      r := None;
    }
  }

  /** Unwrapping one more non-null entry appends its value. */
  lemma UnwrapStep<T>(entries: seq<Option<T>>, index: nat)
    requires index < |entries| && NoNulls(entries[..index]) && entries[index].Some?
    ensures NoNulls(entries[..index + 1])
    ensures Unwrap(entries[..index + 1]) == Unwrap(entries[..index]) + [entries[index].value]
  {
    assert entries[..index + 1][..index] == entries[..index];
    assert entries[..index + 1][index] == entries[index];
  }

  /** Adding a named entry files it after all the earlier ones. */
  lemma AddNamedStep(m: map<string, Property>, s: set<string>, ps: seq<Property>, p: Property)
    requires p.NamedProperty?
    ensures PutNamed(m, ps + [p]) == PutNamed(m, ps)[p.name := p]
    ensures AddRequired(s, ps + [p]) == if p.required then AddRequired(s, ps) + {p.name} else AddRequired(s, ps)
    ensures PatternsOf(ps + [p]) == PatternsOf(ps)
  {
    assert (ps + [p])[..|ps|] == ps;
  }

  /** Adding a pattern entry appends it to the pattern entries and leaves the named ones alone. */
  lemma AddPatternStep(m: map<string, Property>, s: set<string>, ps: seq<Property>, p: Property)
    requires p.PatternProperty?
    ensures PutNamed(m, ps + [p]) == PutNamed(m, ps)
    ensures AddRequired(s, ps + [p]) == AddRequired(s, ps)
    ensures PatternsOf(ps + [p]) == PatternsOf(ps) + [p]
  {
    assert (ps + [p])[..|ps|] == ps;
  }

  /** Names required before stay declared, and each newly required name is declared too. */
  lemma {:induction false} RequiredAreDeclared(m: map<string, Property>, s: set<string>, ps: seq<Property>)
    requires s <= m.Keys
    ensures AddRequired(s, ps) <= PutNamed(m, ps).Keys
  {
    if ps != [] {
      RequiredAreDeclared(m, s, ps[..|ps| - 1]);
    }
  }

  /** A name is a declared property exactly when it was in the map before or some entry declares it. */
  lemma {:induction false} DeclaredIffSomeDeclaration(m: map<string, Property>, ps: seq<Property>, name: string)
    ensures name in PutNamed(m, ps) <==> name in m || exists i :: 0 <= i < |ps| && Declares(ps[i], name)
  {
    if ps != [] {
      var ps' := ps[..|ps| - 1];
      DeclaredIffSomeDeclaration(m, ps', name);
      if exists i :: 0 <= i < |ps'| && Declares(ps'[i], name) {
        var i :| 0 <= i < |ps'| && Declares(ps'[i], name);
        assert ps[i] == ps'[i];
      }
      if exists i :: 0 <= i < |ps| && Declares(ps[i], name) {
        var i :| 0 <= i < |ps| && Declares(ps[i], name);
        if i < |ps'| {
          assert ps'[i] == ps[i];
        }
      }
    }
  }

  /** A name declared several times is filed with its last declaration. */
  lemma {:induction false} LastDeclarationWins(m: map<string, Property>, ps: seq<Property>, name: string, i: int)
    requires 0 <= i < |ps| && Declares(ps[i], name)
    requires forall j :: i < j < |ps| ==> !Declares(ps[j], name)
    ensures name in PutNamed(m, ps) && PutNamed(m, ps)[name] == ps[i]
  {
    var ps' := ps[..|ps| - 1];
    if i < |ps| - 1 {
      forall j | i < j < |ps'| ensures !Declares(ps'[j], name) {
        assert ps'[j] == ps[j];
      }
      LastDeclarationWins(m, ps', name, i);
    }
  }

  /** A name is required exactly when it was required before or some entry declares it required. */
  lemma {:induction false} RequiredIffSomeRequiredDeclaration(s: set<string>, ps: seq<Property>, name: string)
    ensures name in AddRequired(s, ps) <==> name in s || exists i :: 0 <= i < |ps| && DeclaresRequired(ps[i], name)
  {
    if ps != [] {
      var ps' := ps[..|ps| - 1];
      RequiredIffSomeRequiredDeclaration(s, ps', name);
      if exists i :: 0 <= i < |ps'| && DeclaresRequired(ps'[i], name) {
        var i :| 0 <= i < |ps'| && DeclaresRequired(ps'[i], name);
        assert ps[i] == ps'[i];
      }
      if exists i :: 0 <= i < |ps| && DeclaresRequired(ps[i], name) {
        var i :| 0 <= i < |ps| && DeclaresRequired(ps[i], name);
        if i < |ps'| {
          assert ps'[i] == ps[i];
        }
      }
    }
  }

  /**
   * Declaring a name required and later declaring it optional leaves the
   * name required although the property filed under it is the optional one:
   * the required set only ever grows within one `properties` call.
   */
  lemma RequiredOutlivesOptionalRedeclaration(ps: seq<Property>, name: string, i: int, k: int)
    requires 0 <= k < i < |ps| && DeclaresRequired(ps[k], name)
    requires Declares(ps[i], name) && !ps[i].required
    requires forall j :: i < j < |ps| ==> !Declares(ps[j], name)
    ensures name in AddRequired({}, ps)
    ensures name in PutNamed(map[], ps) && !PutNamed(map[], ps)[name].required
  {
    RequiredIffSomeRequiredDeclaration({}, ps, name);
    LastDeclarationWins(map[], ps, name, i);
  }

  /** The problems reported are exactly one missing-property problem per absent name of `order`. */
  lemma {:induction false} MissingProblemsExact(order: seq<string>, keys: set<string>)
    ensures forall p :: p in MissingProblems(order, keys) ==>
              p.MissingPropertyProblem? && p.propertyName in order && p.propertyName !in keys
    ensures forall n :: n in order && n !in keys ==> MissingPropertyProblem(n) in MissingProblems(order, keys)
  {
    if order != [] {
      var order' := order[..|order| - 1];
      MissingProblemsExact(order', keys);
      assert forall n :: n in order' ==> n in order;
      assert forall n :: n in order ==> n in order' || n == order[|order| - 1];
    }
  }

  /** Visiting each name once reports each missing name once. */
  lemma {:induction false} MissingProblemsNoDuplicates(order: seq<string>, keys: set<string>)
    requires NoDuplicates(order)
    ensures NoDuplicates(MissingProblems(order, keys))
  {
    if order != [] {
      var order' := order[..|order| - 1];
      var n := order[|order| - 1];
      MissingProblemsNoDuplicates(order', keys);
      MissingProblemsExact(order', keys);
    }
  }

  /**
   * Validating an object against an object type reports, whatever the order
   * of the required set, exactly the required names the object lacks, each
   * once, and nothing else.
   */
  method ReportMissing(t: ObjectTypeImpl, value: JsonValue) returns (missing: seq<Problem>)
    requires t.Valid() && value.JObject?
    ensures forall n :: MissingPropertyProblem(n) in missing <==> n in t.required && n !in value.members
    ensures forall p :: p in missing ==> p.MissingPropertyProblem?
    ensures NoDuplicates(missing)
  {
    var problems := new ProblemList();
    ghost var order := t.ValidateInstance(value, problems);
    MissingProblemsExact(order, value.members.Keys);
    MissingProblemsNoDuplicates(order, value.members.Keys);
    missing := problems.items;
  }

  /**
   * The pedigree schema: a horse has a required name and birth year, and an
   * optional sire and dam that are horses again, so the schema refers to
   * itself.
   */
  method PedigreeSchema() returns (horse: ObjectTypeImpl)
    ensures horse.Valid()
    ensures horse.properties.Keys == {"name", "birthYear", "sire", "dam"}
    ensures horse.required == {"name", "birthYear"}
    ensures horse.properties["sire"].valueType == NodeRef(horse)
    ensures horse.properties["dam"].valueType == NodeRef(horse)
    ensures horse.properties["birthYear"].valueType == BuiltinRef(INTEGER)
    ensures !horse.AllowsMoreProperties()
  {
    horse := new ObjectTypeImpl();
    var name := new StringTypeImpls.StringTypeImpl();
    var entries := [
      Some(NamedProperty("name", NodeRef(name), true)),
      Some(NamedProperty("birthYear", BuiltinRef(INTEGER), true)),
      Some(NamedProperty("sire", NodeRef(horse), false)),
      Some(NamedProperty("dam", NodeRef(horse), false))
    ];
    ghost var ps := [entries[0].value, entries[1].value, entries[2].value, entries[3].value];
    assert Unwrap(entries) == ps by {
      assert entries[..0] == [];
      UnwrapStep(entries, 0);
      UnwrapStep(entries, 1);
      UnwrapStep(entries, 2);
      UnwrapStep(entries, 3);
      assert entries[..4] == entries;
    }
    assert ps == [] + [ps[0]] + [ps[1]] + [ps[2]] + [ps[3]];
    AddNamedStep(map[], {}, [], ps[0]);
    AddNamedStep(map[], {}, [] + [ps[0]], ps[1]);
    AddNamedStep(map[], {}, [] + [ps[0]] + [ps[1]], ps[2]);
    AddNamedStep(map[], {}, [] + [ps[0]] + [ps[1]] + [ps[2]], ps[3]);
    var r := horse.Properties(entries);
  }
}
