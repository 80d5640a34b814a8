/**
 * The model documentation routes: `orderByName`, the models listing sorted by
 * name, and a model's page, whose attributes array is sorted in place.
 */
module Docs {
  import opened Results
  import opened Errors

  // ---------------------------------------------------------------------------
  // String order

  /** JavaScript's `a < b` on strings: character by character, a proper prefix first. */
  function Below(a: string, b: string): (r: bool)
    decreases |a|
    ensures r ==> a != b
    ensures |a| < |b| && a == b[..|a|] ==> r
  {
    if a == [] then b != []
    else b != [] && (a[0] < b[0] || (a[0] == b[0] && Below(a[1..], b[1..])))
  }

  lemma BelowIrreflexive(a: string)
    ensures !Below(a, a)
  {
  }

  lemma {:induction false} BelowAsymmetric(a: string, b: string)
    requires Below(a, b)
    ensures !Below(b, a)
  {
    if a != [] && b != [] && a[0] == b[0] {
      BelowAsymmetric(a[1..], b[1..]);
    }
  }

  lemma {:induction false} BelowTransitive(a: string, b: string, c: string)
    requires Below(a, b) && Below(b, c)
    ensures Below(a, c)
  {
    if a != [] && a[0] == b[0] && b[0] == c[0] {
      BelowTransitive(a[1..], b[1..], c[1..]);
    }
  }

  lemma {:induction false} BelowTotal(a: string, b: string)
    ensures a == b || Below(a, b) || Below(b, a)
  {
    if a != [] && b != [] && a[0] == b[0] {
      BelowTotal(a[1..], b[1..]);
      if a[1..] == b[1..] {
        assert a == [a[0]] + a[1..] && b == [b[0]] + b[1..];
      }
    }
  }

  /** "Not after": neither string is greater, so the order is transitive over equal names too. */
  lemma NotBelowTransitive(a: string, b: string, c: string)
    requires !Below(b, a) && !Below(c, b)
    ensures !Below(c, a)
  {
  }

  // ---------------------------------------------------------------------------
  // The comparator

  /** `orderByName(a, b)`: 1 when a's name is greater, -1 when it is smaller, 0 otherwise. */
  function OrderByName<T>(name: T -> string, a: T, b: T): (r: int)
    ensures -1 <= r <= 1
    ensures r == 1 <==> Below(name(b), name(a))
    ensures r == -1 <==> Below(name(a), name(b))
    ensures r == 0 <==> name(a) == name(b)
  {
    BelowTotal(name(a), name(b));
    BelowIrreflexive(name(a));
    if Below(name(b), name(a)) then
      BelowAsymmetric(name(b), name(a));
      1
    else if Below(name(a), name(b)) then
      -1
    else
      0
  }

  /** Swapping the arguments negates the comparison. */
  lemma OrderByNameAntisymmetric<T>(name: T -> string, a: T, b: T)
    ensures OrderByName(name, a, b) == -OrderByName(name, b, a)
  {
  }

  /** Ascending by name: no element is greater than one after it. */
  predicate SortedByName<T>(s: seq<T>, name: T -> string) {
    forall i, j :: 0 <= i < j < |s| ==> OrderByName(name, s[i], s[j]) <= 0
  }

  /** A sequence whose neighbours are in order is sorted. */
  lemma {:induction false} NeighboursInOrderSort<T>(s: seq<T>, name: T -> string)
    requires forall k :: 0 < k < |s| ==> OrderByName(name, s[k - 1], s[k]) <= 0
    ensures SortedByName(s, name)
  {
    if |s| > 1 {
      var n := |s|;
      var init := s[..n - 1];
      assert forall k :: 0 < k < |init| ==> OrderByName(name, init[k - 1], init[k]) <= 0 by {
        forall k | 0 < k < |init| ensures OrderByName(name, init[k - 1], init[k]) <= 0 {
          assert init[k - 1] == s[k - 1] && init[k] == s[k];
        }
      }
      NeighboursInOrderSort(init, name);
      forall i | 0 <= i < n - 1
        ensures OrderByName(name, s[i], s[n - 1]) <= 0
      {
        if i < n - 2 {
          assert OrderByName(name, init[i], init[n - 2]) <= 0;
        } else {
          BelowIrreflexive(name(s[i]));
        }
        assert OrderByName(name, s[n - 2], s[n - 1]) <= 0;
        NotBelowTransitive(name(s[i]), name(s[n - 2]), name(s[n - 1]));
      }
      forall i, j | 0 <= i < j < n
        ensures OrderByName(name, s[i], s[j]) <= 0
      {
        if j < n - 1 {
          assert OrderByName(name, init[i], init[j]) <= 0;
        }
      }
    }
  }

  /** Exchanges the neighbours at `j - 1` and `j`. */
  method SwapDown<T>(a: array<T>, j: int)
    requires 0 < j < a.Length
    modifies a
    ensures a[j - 1] == old(a[j]) && a[j] == old(a[j - 1])
    ensures forall k :: 0 <= k < a.Length && k != j - 1 && k != j ==> a[k] == old(a[k])
    ensures multiset(a[..]) == multiset(old(a[..]))
  {
    a[j - 1], a[j] := a[j], a[j - 1];
  }

  /** Moves `a[i]` down past every greater neighbour, so that `a[..i + 1]` is in order. */
  method Insert<T>(a: array<T>, i: int, name: T -> string)
    requires 0 <= i < a.Length
    requires forall k :: 0 < k < i ==> OrderByName(name, a[k - 1], a[k]) <= 0
    modifies a
    ensures forall k :: 0 < k <= i ==> OrderByName(name, a[k - 1], a[k]) <= 0
    ensures multiset(a[..]) == multiset(old(a[..]))
  {
    var j := i;
    while 0 < j && OrderByName(name, a[j - 1], a[j]) > 0
      invariant 0 <= j <= i
      invariant forall k :: 0 < k <= i && k != j && k != j + 1 ==> OrderByName(name, a[k - 1], a[k]) <= 0
      invariant 0 < j < i ==> OrderByName(name, a[j - 1], a[j + 1]) <= 0
      invariant j < i ==> OrderByName(name, a[j], a[j + 1]) < 0
      invariant multiset(a[..]) == multiset(old(a[..]))
    {
      SwapDown(a, j);
      j := j - 1;
    }
  }

  /**
   * `array.sort(orderByName)`: sorts `a` in place, ascending by name, keeping
   * its elements. Written as an insertion sort by adjacent swaps.
   */
  method SortByName<T>(a: array<T>, name: T -> string)
    modifies a
    ensures SortedByName(a[..], name)
    ensures multiset(a[..]) == multiset(old(a[..]))
  {
    var i := 0;
    while i < a.Length
      invariant 0 <= i <= a.Length
      invariant forall k :: 0 < k < i ==> OrderByName(name, a[k - 1], a[k]) <= 0
      invariant multiset(a[..]) == multiset(old(a[..]))
    {
      Insert(a, i, name);
      i := i + 1;
    }
    NeighboursInOrderSort(a[..], name);
  }

  // ---------------------------------------------------------------------------
  // GET /models

  datatype ModelDefinition = ModelDefinition(name: string, inherits: Option<string>, implements: Option<string>)

  /** An entry of the models listing: only the name, the parent and the implemented model. */
  datatype ModelSummary = ModelSummary(name: string, inherits: Option<string>, implements: Option<string>)

  function SummaryName(m: ModelSummary): string {
    m.name
  }

  /** The `map` step of the listing: one entry per model name, read from its definition. */
  function Summaries(names: seq<string>, definitions: map<string, ModelDefinition>): (r: seq<ModelSummary>)
    requires forall n :: n in names ==> n in definitions
    ensures |r| == |names|
    ensures forall i :: 0 <= i < |names| ==>
      var d := definitions[names[i]];
      r[i] == ModelSummary(d.name, d.inherits, d.implements)
  {
    if names == [] then []
    else
      var d := definitions[names[0]];
      [ModelSummary(d.name, d.inherits, d.implements)] + Summaries(names[1..], definitions)
  }

  /**
   * GET /models: the definitions of the schema loader's model names, as
   * summaries, sorted by name. `definitions` is `getModelDefinition`.
   */
  method ListModels(names: seq<string>, definitions: map<string, ModelDefinition>) returns (models: seq<ModelSummary>)
    requires forall n :: n in names ==> n in definitions
    ensures |models| == |names|
    ensures multiset(models) == multiset(Summaries(names, definitions))
    ensures SortedByName(models, SummaryName)
  {
    var entries := Summaries(names, definitions);
    var a := new ModelSummary[|entries|](i requires 0 <= i < |entries| => entries[i]);
    assert a[..] == entries;
    SortByName(a, SummaryName);
    models := a[..];
    assert |models| == |multiset(models)| == |multiset(entries)| == |entries|;
  }

  // ---------------------------------------------------------------------------
  // GET /models/:model

  datatype Attribute = Attribute(name: string, dataType: string, nullable: bool)

  function AttributeName(f: Attribute): string {
    f.name
  }

  /** A data model as the context resolves it; its attributes are an array the page sorts. */
  class DataModel {
    const name: string
    const implements: Option<string>
    const inherits: Option<string>
    const attributes: array<Attribute>

    constructor (name: string, implements: Option<string>, inherits: Option<string>, attributes: array<Attribute>)
      ensures this.name == name && this.implements == implements
      ensures this.inherits == inherits && this.attributes == attributes
    {
      this.name := name;
      this.implements := implements;
      this.inherits := inherits;
      this.attributes := attributes;
    }
  }

  /** What the model page renders. */
  datatype ModelView = ModelView(name: string, implements: Option<string>, inherits: Option<string>, attributes: seq<Attribute>)

  /**
   * GET /models/:model. `catalog` is the context's model resolution; an unknown
   * name is a 404. Otherwise the model's own attributes array is sorted in place
   * and rendered.
   */
  method ShowModel(catalog: map<string, DataModel>, modelName: string) returns (r: Result<ModelView, Error>)
    modifies if modelName in catalog then {catalog[modelName].attributes} else {}
    ensures modelName !in catalog ==> r == Failure(NotFound)
    ensures modelName in catalog ==>
      var model := catalog[modelName];
      && r == Success(ModelView(model.name, model.implements, model.inherits, model.attributes[..]))
      && SortedByName(model.attributes[..], AttributeName)
      && multiset(model.attributes[..]) == multiset(old(model.attributes[..]))
  {
    if modelName !in catalog {
      return Failure(NotFound);
    }
    var model := catalog[modelName];
    SortByName(model.attributes, AttributeName);
    return Success(ModelView(model.name, model.implements, model.inherits, model.attributes[..]));
  }
}
