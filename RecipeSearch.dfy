/** Assembly of the query parameters of a Spoonacular recipe search
    (`RecipeAssistant.search_recipes`, recipe_assist.py:41-55): fixed defaults,
    then every truthy keyword argument, lists joined with commas. */
module RecipeSearch {
  import opened PyStr

  /** The keyword-argument values the tool-call JSON can carry. */
  datatype Value =
    | Null
    | Bool(b: bool)
    | Int(i: int)
    | Str(s: string)
    | List(items: seq<string>)

  /** Python truthiness: `None`, `False`, `0`, `""` and `[]` are falsy. */
  predicate Truthy(v: Value)
    ensures !Truthy(v) <==> v in {Null, Bool(false), Int(0), Str(""), List([])}
  {
    match v
    case Null => false
    case Bool(b) => b
    case Int(i) => i != 0
    case Str(s) => s != ""
    case List(items) => items != []
  }

  /** What a value looks like once stored in the parameters: a list becomes
      its comma-joined string, anything else is kept. */
  function Serialize(v: Value): (r: Value)
    ensures !r.List?
    ensures v.List? ==> r == Str(Join(',', v.items))
    ensures !v.List? ==> r == v
  {
    if v.List? then Str(Join(',', v.items)) else v
  }

  const DefaultKeys: set<string> := {"apiKey", "addRecipeInformation", "fillIngredients", "number"}

  /** The parameters every search starts from. */
  function Defaults(apiKey: string): (d: map<string, Value>)
    ensures d.Keys == DefaultKeys
    ensures d["apiKey"] == Str(apiKey)
  {
    map["apiKey" := Str(apiKey), "addRecipeInformation" := Bool(true),
        "fillIngredients" := Bool(true), "number" := Int(5)]
  }

  ghost function TruthyKeys(kwargs: map<string, Value>): set<string> {
    set k | k in kwargs && Truthy(kwargs[k])
  }

  /** The parameters a search sends for the keyword-argument dictionary
      `kwargs`: the four defaults, overridden or extended by every truthy
      argument, lists joined with commas, falsy arguments ignored. */
  function SearchParams(apiKey: string, kwargs: map<string, Value>): (p: map<string, Value>)
    ensures p.Keys == DefaultKeys + TruthyKeys(kwargs)
    ensures forall k :: k in kwargs && Truthy(kwargs[k]) && kwargs[k].List? ==>
              p[k] == Str(Join(',', kwargs[k].items))
    ensures forall k :: k in kwargs && Truthy(kwargs[k]) && !kwargs[k].List? ==>
              p[k] == kwargs[k]
    ensures forall k :: k in DefaultKeys && (k !in kwargs || !Truthy(kwargs[k])) ==>
              p[k] == Defaults(apiKey)[k]
  {
    Defaults(apiKey) + Overrides(kwargs)
  }

  /** The truthy arguments, serialised. */
  function Overrides(kwargs: map<string, Value>): (o: map<string, Value>)
    ensures o.Keys == TruthyKeys(kwargs)
    ensures forall k :: k in o ==> o[k] == Serialize(kwargs[k])
  {
    map k | k in kwargs && Truthy(kwargs[k]) :: Serialize(kwargs[k])
  }

  lemma OverridesUpdate(m: map<string, Value>, key: string, value: Value)
    requires key !in m
    ensures Overrides(m[key := value]) ==
            if Truthy(value) then Overrides(m)[key := Serialize(value)] else Overrides(m)
  {
    var lhs := Overrides(m[key := value]);
    var rhs := if Truthy(value) then Overrides(m)[key := Serialize(value)] else Overrides(m);
    assert lhs.Keys == rhs.Keys by {
      assert TruthyKeys(m[key := value]) ==
             if Truthy(value) then TruthyKeys(m) + {key} else TruthyKeys(m);
    }
    forall k | k in lhs ensures lhs[k] == rhs[k] {
      if k != key {
        assert m[key := value][k] == m[k];
      }
    }
  }

  lemma UnionUpdate(a: map<string, Value>, b: map<string, Value>, k: string, v: Value)
    ensures a + b[k := v] == (a + b)[k := v]
  {
    var lhs, rhs := a + b[k := v], (a + b)[k := v];
    assert lhs.Keys == rhs.Keys;
    forall x | x in lhs ensures lhs[x] == rhs[x] {
    }
  }

  /** The keys of `kwargs.items()` are pairwise different. */
  ghost predicate DistinctKeys(items: seq<(string, Value)>) {
    forall i, j :: 0 <= i < j < |items| ==> items[i].0 != items[j].0
  }

  /** The dictionary whose `items()` are `items`. */
  ghost function MapOf(items: seq<(string, Value)>): (m: map<string, Value>)
    ensures m.Keys == set i | 0 <= i < |items| :: items[i].0
  {
    if items == [] then map[]
    else MapOf(items[..|items| - 1])[items[|items| - 1].0 := items[|items| - 1].1]
  }

  lemma {:induction false} MapOfAt(items: seq<(string, Value)>, i: nat)
    requires DistinctKeys(items)
    requires i < |items|
    ensures items[i].0 in MapOf(items) && MapOf(items)[items[i].0] == items[i].1
  {
    if i < |items| - 1 {
      var init := items[..|items| - 1];
      assert init[i] == items[i];
      MapOfAt(init, i);
    }
  }

  /** Extending the dictionary by one new key changes the parameters exactly
      as one round of the loop in `search_recipes` does. */
  lemma SearchParamsStep(apiKey: string, m: map<string, Value>, key: string, value: Value)
    requires key !in m
    ensures SearchParams(apiKey, m[key := value]) ==
            if Truthy(value) then SearchParams(apiKey, m)[key := Serialize(value)]
            else SearchParams(apiKey, m)
  {
    OverridesUpdate(m, key, value);
    if Truthy(value) {
      UnionUpdate(Defaults(apiKey), Overrides(m), key, Serialize(value));
    }
  }

  /** The loop of `search_recipes` over `kwargs.items()`. */
  method BuildParams(apiKey: string, kwargs: seq<(string, Value)>) returns (params: map<string, Value>)
    requires DistinctKeys(kwargs)
    ensures params == SearchParams(apiKey, MapOf(kwargs))
  {
    params := map["apiKey" := Str(apiKey), "addRecipeInformation" := Bool(true),
                  "fillIngredients" := Bool(true), "number" := Int(5)];
    for n := 0 to |kwargs|
      invariant params == SearchParams(apiKey, MapOf(kwargs[..n]))
    {
      var (key, value) := kwargs[n];
      if Truthy(value) {
        if value.List? {
          params := params[key := Str(Join(',', value.items))];
        } else {
          params := params[key := value];
        }
      }
      assert kwargs[..n + 1][..n] == kwargs[..n];
      assert key !in MapOf(kwargs[..n]) by {
        forall j | 0 <= j < n ensures kwargs[..n][j].0 != key {
          assert kwargs[..n][j] == kwargs[j];
        }
      }
      SearchParamsStep(apiKey, MapOf(kwargs[..n]), key, value);
    }
    assert kwargs[..|kwargs|] == kwargs;
  }

  /** Every pair of `items` is found in its dictionary, and nothing else is. */
  lemma MapOfExact(items: seq<(string, Value)>)
    requires DistinctKeys(items)
    ensures forall i :: 0 <= i < |items| ==> items[i].0 in MapOf(items) && MapOf(items)[items[i].0] == items[i].1
    ensures forall k :: k in MapOf(items) ==> (k, MapOf(items)[k]) in items
  {
    forall i | 0 <= i < |items|
      ensures items[i].0 in MapOf(items) && MapOf(items)[items[i].0] == items[i].1
    {
      MapOfAt(items, i);
    }
  }

  /** Two listings of the same distinct-keyed pairs, in whatever order, give
      the same dictionary, so `search_recipes` does not depend on the order
      of its keyword arguments. */
  lemma OrderIndependent(apiKey: string, a: seq<(string, Value)>, b: seq<(string, Value)>)
    requires DistinctKeys(a) && DistinctKeys(b)
    requires forall p :: p in a <==> p in b
    ensures SearchParams(apiKey, MapOf(a)) == SearchParams(apiKey, MapOf(b))
  {
    SameDictionary(a, b);
  }

  lemma SameDictionary(a: seq<(string, Value)>, b: seq<(string, Value)>)
    requires DistinctKeys(a) && DistinctKeys(b)
    requires forall p :: p in a <==> p in b
    ensures MapOf(a) == MapOf(b)
  {
    MapOfExact(a);
    MapOfExact(b);
    IncludedDictionary(a, b);
    IncludedDictionary(b, a);
  }

  /** Every entry of the dictionary of `a` is an entry of that of `b` when
      every pair of `a` is a pair of `b`. */
  lemma IncludedDictionary(a: seq<(string, Value)>, b: seq<(string, Value)>)
    requires DistinctKeys(a) && DistinctKeys(b)
    requires forall p :: p in a ==> p in b
    ensures forall k :: k in MapOf(a) ==> k in MapOf(b) && MapOf(a)[k] == MapOf(b)[k]
  {
    MapOfExact(a);
    forall k | k in MapOf(a) ensures k in MapOf(b) && MapOf(a)[k] == MapOf(b)[k] {
      var p := (k, MapOf(a)[k]);
      assert p in b;
      var i :| 0 <= i < |b| && b[i] == p;
      MapOfAt(b, i);
    }
  }

  /** With no argument named like a default, the four defaults are sent as
      they are: the key, `True`, `True` and `5`. */
  lemma DefaultsKept(apiKey: string, kwargs: map<string, Value>)
    requires kwargs.Keys !! DefaultKeys
    ensures var p := SearchParams(apiKey, kwargs);
      && p["apiKey"] == Str(apiKey)
      && p["addRecipeInformation"] == Bool(true)
      && p["fillIngredients"] == Bool(true)
      && p["number"] == Int(5)
  {
  }

  /** A falsy argument has the same effect as no argument at all. */
  lemma FalsyIgnored(apiKey: string, kwargs: map<string, Value>, key: string, value: Value)
    requires !Truthy(value)
    ensures SearchParams(apiKey, kwargs[key := value]) == SearchParams(apiKey, kwargs - {key})
  {
    var m := kwargs - {key};
    assert kwargs[key := value] == m[key := value];
    OverridesUpdate(m, key, value);
  }

  /** A truthy value that is not a list is sent unchanged, replacing a
      default of the same name. */
  lemma TruthyOverrides(apiKey: string, kwargs: map<string, Value>, key: string, value: Value)
    requires Truthy(value) && !value.List?
    ensures SearchParams(apiKey, kwargs[key := value])[key] == value
  {
  }

  /** `number=0` keeps the page size at 5 and `intolerances=[]` is not sent. */
  lemma FalsyExamples(apiKey: string)
    ensures SearchParams(apiKey, map["number" := Int(0)])["number"] == Int(5)
    ensures "intolerances" !in SearchParams(apiKey, map["intolerances" := List([])])
  {
  }

  /** `["chicken", "rice"]` is sent as `"chicken,rice"`. */
  lemma JoinedListExample(apiKey: string)
    ensures SearchParams(apiKey, map["includeIngredients" := List(["chicken", "rice"])])["includeIngredients"]
            == Str("chicken,rice")
  {
    var kw := map["includeIngredients" := List(["chicken", "rice"])];
    assert Truthy(kw["includeIngredients"]);
    JoinPair(',', "chicken", "rice");
    assert "chicken" + [','] + "rice" == "chicken,rice";
  }

  /** A one-element list is sent as its element. */
  lemma SingleListExample(apiKey: string, key: string, x: string)
    ensures SearchParams(apiKey, map[key := List([x])])[key] == Str(x)
  {
    var kw := map[key := List([x])];
    assert Truthy(kw[key]);
  }
}
