/**
 * Facets: restrictions installed on a type, one per facet class. A type keeps
 * its facets in a map keyed by the facet's class, so installing a facet of a
 * class already present replaces the old one. What a facet checks is not
 * modelled here: applying it is an abstract step that appends problems.
 */
module Facets {
  import opened Base
  import opened Json
  import opened Problems

  /** A named string format; formats are told apart by name. */
  datatype StringFormat = StringFormat(name: string)

  /** The facets the modelled builders install, with what each carries. */
  datatype Facet =
    | LengthFacet(length: int)
    | MinLengthFacet(minLength: int)
    | MaxLengthFacet(maxLength: int)
    | EnumerationFacet(enumerators: set<string>)
    | PatternFacet(expression: string)
    | FormatFacet(formats: set<StringFormat>)
    | AssertionFacet(test: JsonValue -> bool, message: string)

  /** The class of a facet, the key of the facet map. */
  datatype FacetKind = LengthKind | MinLengthKind | MaxLengthKind | EnumerationKind
                     | PatternKind | FormatKind | AssertionKind

  /** `facet.getClass()`. */
  function KindOf(f: Facet): FacetKind
  {
    match f
    case LengthFacet(_) => LengthKind
    case MinLengthFacet(_) => MinLengthKind
    case MaxLengthFacet(_) => MaxLengthKind
    case EnumerationFacet(_) => EnumerationKind
    case PatternFacet(_) => PatternKind
    case FormatFacet(_) => FormatKind
    case AssertionFacet(_, _) => AssertionKind
  }

  type FacetMap = map<FacetKind, Facet>

  /** Every facet is filed under its own class. */
  ghost predicate OnePerKind(m: FacetMap)
  {
    forall k :: k in m ==> KindOf(m[k]) == k
  }

  /** `facets.put(facet.getClass(), facet)`. */
  function Install(m: FacetMap, f: Facet): (r: FacetMap)
    ensures r.Keys == m.Keys + {KindOf(f)}
    ensures KindOf(f) in r && r[KindOf(f)] == f
    ensures forall k :: k in m && k != KindOf(f) ==> r[k] == m[k]
    ensures OnePerKind(m) ==> OnePerKind(r)
  {
    m[KindOf(f) := f]
  }

  /** The facet map after installing the facets of `fs` into `m`, in order. */
  function InstallAll(m: FacetMap, fs: seq<Facet>): FacetMap
  {
    if fs == [] then m else Install(InstallAll(m, fs[..|fs| - 1]), fs[|fs| - 1])
  }

  /** `f` is the last facet of class `k` in `fs`. */
  ghost predicate IsLastOfKind(fs: seq<Facet>, k: FacetKind, f: Facet)
  {
    exists i :: 0 <= i < |fs| && fs[i] == f && KindOf(f) == k
                && forall j :: i < j < |fs| ==> KindOf(fs[j]) != k
  }

  /** Installing a sequence of facets into an empty map files facets under exactly the classes that occur in it. */
  lemma {:induction false} InstalledKinds(fs: seq<Facet>)
    ensures InstallAll(map[], fs).Keys == set f | f in fs :: KindOf(f)
  {
    if fs != [] {
      var fs', f := fs[..|fs| - 1], fs[|fs| - 1];
      assert fs == fs' + [f];
      InstalledKinds(fs');
      assert (set g | g in fs :: KindOf(g)) == (set g | g in fs' :: KindOf(g)) + {KindOf(f)};
    }
  }

  /**
   * Installing a sequence of facets into an empty map files a facet under
   * exactly the classes that occur in the sequence, and under each class the
   * last facet of that class.
   */
  lemma InstalledFacetsAreLastOfKind(fs: seq<Facet>)
    ensures InstallAll(map[], fs).Keys == set f | f in fs :: KindOf(f)
    ensures forall k :: k in InstallAll(map[], fs) ==> IsLastOfKind(fs, k, InstallAll(map[], fs)[k])
  {
    InstalledKinds(fs);
    forall k | k in InstallAll(map[], fs)
      ensures IsLastOfKind(fs, k, InstallAll(map[], fs)[k])
    {
      InstalledIsLastOfKind(fs, k);
    }
  }

  /** The facet filed under class `k` is the last facet of that class. */
  lemma {:induction false} InstalledIsLastOfKind(fs: seq<Facet>, k: FacetKind)
    requires k in InstallAll(map[], fs)
    ensures IsLastOfKind(fs, k, InstallAll(map[], fs)[k])
  {
    var fs', f := fs[..|fs| - 1], fs[|fs| - 1];
    var r' := InstallAll(map[], fs');
    assert InstallAll(map[], fs) == Install(r', f);
    if k == KindOf(f) {
      LastIsLastOfKind(fs);
    } else {
      InstalledIsLastOfKind(fs', k);
      LastOfKindExtends(fs', f, k, r'[k]);
      assert fs' + [f] == fs;
    }
  }

  lemma LastIsLastOfKind(fs: seq<Facet>)
    requires fs != []
    ensures IsLastOfKind(fs, KindOf(fs[|fs| - 1]), fs[|fs| - 1])
  {
    var i := |fs| - 1;
    assert 0 <= i < |fs| && fs[i] == fs[|fs| - 1];
  }

  lemma LastOfKindExtends(fs: seq<Facet>, f: Facet, k: FacetKind, g: Facet)
    requires IsLastOfKind(fs, k, g) && KindOf(f) != k
    ensures IsLastOfKind(fs + [f], k, g)
  {
    var i :| 0 <= i < |fs| && fs[i] == g && KindOf(g) == k
             && forall j :: i < j < |fs| ==> KindOf(fs[j]) != k;
    assert (fs + [f])[i] == g;
  }

  /**
   * The problems appended by applying, in the given order, the facets of `m`
   * filed under the classes of `order`; `apply` is what one facet appends.
   */
  function ApplyAll(m: FacetMap, order: seq<FacetKind>, v: JsonValue, apply: (Facet, JsonValue) -> seq<Problem>): seq<Problem>
    requires Elements(order) <= m.Keys
  {
    if order == [] then []
    else ApplyAll(m, order[..|order| - 1], v, apply) + apply(m[order[|order| - 1]], v)
  }

  lemma {:induction false} ApplyAllConcat(m: FacetMap, a: seq<FacetKind>, b: seq<FacetKind>, v: JsonValue, apply: (Facet, JsonValue) -> seq<Problem>)
    requires Elements(a + b) <= m.Keys
    ensures Elements(a) <= m.Keys && Elements(b) <= m.Keys
    ensures ApplyAll(m, a + b, v, apply) == ApplyAll(m, a, v, apply) + ApplyAll(m, b, v, apply)
  {
    assert forall k :: k in a ==> k in a + b;
    assert forall k :: k in b ==> k in a + b;
    if b != [] {
      var b' := b[..|b| - 1];
      assert (a + b)[..|a + b| - 1] == a + b';
      assert Elements(a + b') <= m.Keys by {
        assert forall k :: k in a + b' ==> k in a + b;
      }
      ApplyAllConcat(m, a, b', v, apply);
    } else {
      assert a + b == a;
    }
  }

  lemma NoElementsMeansEmpty(s: seq<FacetKind>)
    ensures Elements(s) == {} ==> s == []
  {
    if s != [] {
      assert s[0] in Elements(s);
    }
  }

  /** Dropping the element at `j` of a duplicate-free sequence drops exactly that element. */
  lemma RemoveAt(o: seq<FacetKind>, j: nat)
    requires NoDuplicates(o) && j < |o|
    ensures NoDuplicates(o[..j] + o[j + 1..])
    ensures Elements(o[..j] + o[j + 1..]) == Elements(o) - {o[j]}
  {
    var o' := o[..j] + o[j + 1..];
    forall p, q | 0 <= p < q < |o'| ensures o'[p] != o'[q] {
      var p2 := if p < j then p else p + 1;
      var q2 := if q < j then q else q + 1;
      assert o'[p] == o[p2] && o'[q] == o[q2];
    }
    forall x | x in o ensures x in o' || x == o[j] {
      var i :| 0 <= i < |o| && o[i] == x;
      if i < j { assert o'[i] == x; } else if i > j { assert o'[i - 1] == x; }
    }
    forall x | x in o' ensures x in o && x != o[j] {
      var i :| 0 <= i < |o'| && o'[i] == x;
      if i < j { assert o[i] == x; } else { assert o[i + 1] == x; }
    }
  }

  /** The problems of the facets before `j`, then those of the facet at `j`, then the rest. */
  lemma ApplyAllSplit(m: FacetMap, o: seq<FacetKind>, j: nat, v: JsonValue, apply: (Facet, JsonValue) -> seq<Problem>)
    requires Elements(o) <= m.Keys && j < |o|
    ensures Elements(o[..j]) <= m.Keys && Elements(o[j + 1..]) <= m.Keys
    ensures ApplyAll(m, o, v, apply)
         == ApplyAll(m, o[..j], v, apply) + apply(m[o[j]], v) + ApplyAll(m, o[j + 1..], v, apply)
  {
    assert o == o[..j] + [o[j]] + o[j + 1..];
    ApplyAllConcat(m, o[..j] + [o[j]], o[j + 1..], v, apply);
    ApplyAllConcat(m, o[..j], [o[j]], v, apply);
    assert [o[j]][..0] == [];
  }

  /**
   * The order in which the facets are applied changes only the order of the
   * problems reported, never which problems are reported nor how often.
   */
  lemma {:induction false} ApplyAllOrderIrrelevant(m: FacetMap, o1: seq<FacetKind>, o2: seq<FacetKind>, v: JsonValue, apply: (Facet, JsonValue) -> seq<Problem>)
    requires NoDuplicates(o1) && NoDuplicates(o2) && Elements(o1) == Elements(o2) <= m.Keys
    ensures multiset(ApplyAll(m, o1, v, apply)) == multiset(ApplyAll(m, o2, v, apply))
    decreases |o1|
  {
    if o1 == [] {
      NoElementsMeansEmpty(o2);
    } else {
      var n := |o1| - 1;
      var k := o1[n];
      assert k in Elements(o2);
      var j :| 0 <= j < |o2| && o2[j] == k;
      RemoveAt(o1, n);
      assert o1[..n] + o1[n + 1..] == o1[..n];
      RemoveAt(o2, j);
      var o2' := o2[..j] + o2[j + 1..];
      ApplyAllOrderIrrelevant(m, o1[..n], o2', v, apply);
      ApplyAllSplit(m, o2, j, v, apply);
      ApplyAllConcat(m, o2[..j], o2[j + 1..], v, apply);
    }
  }
}
