/**
 * The recipe query layer: the recipe collection, its loader with a
 * per-scope memo, the six-stage filter pipeline behind the home page and
 * the sitemap, and lookup by identifier.
 */
module RecipeApi {
  import opened Wrappers
  import opened Text

  // ---------------------------------------------------------------------
  // Data model
  // ---------------------------------------------------------------------

  datatype Tag = Tag(id: string, name: string)

  datatype Ingredient = Ingredient(name: string, quantity: real, unit: string)

  datatype Macros = Macros(proteinGrams: real, carbsGrams: real, fatGrams: real)

  datatype Recipe = Recipe(
    id: string,
    title: string,
    description: string,
    sourceUrl: Option<string>,
    imageUrl: Option<string>,
    prepTimeMinutes: nat,
    cookTimeMinutes: nat,
    totalTimeMinutes: nat,
    servingsYield: nat,
    instructions: seq<string>,
    tags: seq<string>,
    macros: Macros,
    ingredients: seq<Ingredient>)

  /** The optional query fields; `None` is an absent (undefined) field. */
  datatype Filters = Filters(
    maxTime: Option<real>,
    maxIngredients: Option<real>,
    minProtein: Option<real>,
    maxCarbs: Option<real>,
    tags: Option<seq<string>>,
    search: Option<string>)

  /** The empty query `{}`. */
  const NoFilters := Filters(None, None, None, None, None, None)

  // ---------------------------------------------------------------------
  // The filter stages
  // ---------------------------------------------------------------------

  /** The stages of the pipeline, in the order they run. */
  datatype Stage = MaxTime | MaxIngredients | MinProtein | MaxCarbs | RequiredTags | Search

  /** JavaScript truthiness of an optional number: `undefined` and `0` are falsy. */
  predicate NumberSet(v: Option<real>) {
    v.Some? && v.value != 0.0
  }

  /** Whether the guard in front of a stage lets that stage run. */
  predicate Active(st: Stage, f: Filters) {
    match st
    case MaxTime => NumberSet(f.maxTime)
    case MaxIngredients => NumberSet(f.maxIngredients)
    case MinProtein => NumberSet(f.minProtein)
    case MaxCarbs => NumberSet(f.maxCarbs)
    case RequiredTags => f.tags.Some? && |f.tags.value| > 0
    case Search => f.search.Some? && f.search.value != ""
  }

  /** `required.every(tag => tags.includes(tag))`. */
  predicate HasEveryTag(tags: seq<string>, required: seq<string>)
    decreases |required|
  {
    required == [] || (required[0] in tags && HasEveryTag(tags, required[1..]))
  }

  /** The tag stage is set containment, with exact string equality. */
  lemma {:induction false} HasEveryTagIsContainment(tags: seq<string>, required: seq<string>)
    ensures HasEveryTag(tags, required) <==> forall t :: t in required ==> t in tags
    decreases |required|
  {
    if required != [] {
      HasEveryTagIsContainment(tags, required[1..]);
      assert forall t :: t in required <==> t == required[0] || t in required[1..];
    }
  }

  /** Some ingredient's lower-cased name contains `term`. */
  predicate SomeIngredientMatches(ingredients: seq<Ingredient>, term: string) {
    exists i :: 0 <= i < |ingredients| && Includes(Lower(ingredients[i].name), term)
  }

  /** The search stage's test, for an already lower-cased `term`. */
  predicate MatchesSearch(r: Recipe, term: string) {
    || Includes(Lower(r.title), term)
    || Includes(Lower(r.description), term)
    || SomeIngredientMatches(r.ingredients, term)
  }

  /** The callback a running stage hands to `filter`. */
  predicate Passes(st: Stage, f: Filters, r: Recipe)
    requires Active(st, f)
  {
    match st
    case MaxTime => r.totalTimeMinutes as real <= f.maxTime.value
    case MaxIngredients => |r.ingredients| as real <= f.maxIngredients.value
    case MinProtein => r.macros.proteinGrams >= f.minProtein.value
    case MaxCarbs => r.macros.carbsGrams <= f.maxCarbs.value
    case RequiredTags => HasEveryTag(r.tags, f.tags.value)
    case Search => MatchesSearch(r, Lower(f.search.value))
  }

  /** A stage keeps `r`: either it does not run, or its test holds. */
  predicate Admits(st: Stage, f: Filters, r: Recipe) {
    Active(st, f) ==> Passes(st, f, r)
  }

  /** `r` satisfies every active filter of `f`. */
  predicate Satisfies(r: Recipe, f: Filters) {
    && Admits(MaxTime, f, r)
    && Admits(MaxIngredients, f, r)
    && Admits(MinProtein, f, r)
    && Admits(MaxCarbs, f, r)
    && Admits(RequiredTags, f, r)
    && Admits(Search, f, r)
  }

  /** One stage: `recipes.filter(callback)` for a stage that runs. */
  function Keep(rs: seq<Recipe>, st: Stage, f: Filters): seq<Recipe>
    requires Active(st, f)
    decreases |rs|
  {
    if rs == [] then []
    else Keep(rs[..|rs| - 1], st, f) + (if Passes(st, f, rs[|rs| - 1]) then [rs[|rs| - 1]] else [])
  }

  /** What the query returns: the recipes satisfying every active filter, in order. */
  function Select(rs: seq<Recipe>, f: Filters): seq<Recipe>
    decreases |rs|
  {
    if rs == [] then []
    else Select(rs[..|rs| - 1], f) + (if Satisfies(rs[|rs| - 1], f) then [rs[|rs| - 1]] else [])
  }

  // ---------------------------------------------------------------------
  // getPublicRecipes
  // ---------------------------------------------------------------------

  /** `g` with the field that stage `st` reads copied from `f`. */
  function With(g: Filters, st: Stage, f: Filters): Filters {
    match st
    case MaxTime => g.(maxTime := f.maxTime)
    case MaxIngredients => g.(maxIngredients := f.maxIngredients)
    case MinProtein => g.(minProtein := f.minProtein)
    case MaxCarbs => g.(maxCarbs := f.maxCarbs)
    case RequiredTags => g.(tags := f.tags)
    case Search => g.(search := f.search)
  }

  /** Two filter sets that accept the same recipes select the same list. */
  lemma {:induction false} SelectSameTest(rs: seq<Recipe>, f: Filters, g: Filters)
    requires forall r :: Satisfies(r, f) == Satisfies(r, g)
    ensures Select(rs, f) == Select(rs, g)
    decreases |rs|
  {
    if rs != [] {
      SelectSameTest(rs[..|rs| - 1], f, g);
    }
  }

  /** Running one more stage on a selection selects by the larger filter set. */
  lemma {:induction false} KeepSelect(rs: seq<Recipe>, g: Filters, st: Stage, f: Filters, h: Filters)
    requires Active(st, f)
    requires forall r :: Satisfies(r, h) == (Satisfies(r, g) && Passes(st, f, r))
    ensures Keep(Select(rs, g), st, f) == Select(rs, h)
    decreases |rs|
  {
    if rs != [] {
      var n := |rs| - 1;
      KeepSelect(rs[..n], g, st, f, h);
      var pre := Select(rs[..n], g);
      if Satisfies(rs[n], g) {
        var s := pre + [rs[n]];
        assert s[..|s| - 1] == pre;
      } else {
        assert Select(rs, g) == pre;
      }
    }
  }

  /** Adding stage `st` of `f` to a filter set `g` in which it is off. */
  lemma StageStep(rs: seq<Recipe>, g: Filters, st: Stage, f: Filters)
    requires !Active(st, g)
    ensures Active(st, f) ==> Keep(Select(rs, g), st, f) == Select(rs, With(g, st, f))
    ensures !Active(st, f) ==> Select(rs, g) == Select(rs, With(g, st, f))
  {
    var h := With(g, st, f);
    assert forall r :: Satisfies(r, h) == (Satisfies(r, g) && Admits(st, f, r));
    if Active(st, f) {
      KeepSelect(rs, g, st, f, h);
    } else {
      SelectSameTest(rs, g, h);
    }
  }

  /** With no active filter every recipe is kept, in order. */
  lemma {:induction false} SelectUnfiltered(rs: seq<Recipe>, f: Filters)
    requires forall st :: !Active(st, f)
    ensures Select(rs, f) == rs
    decreases |rs|
  {
    if rs != [] {
      SelectUnfiltered(rs[..|rs| - 1], f);
      assert Satisfies(rs[|rs| - 1], f);
    }
  }

  /**
   * `getPublicRecipes` after the load: each stage whose filter value is
   * truthy narrows the list, in the order time, ingredients, protein,
   * carbs, tags, search.
   */
  method FilterRecipes(recipes: seq<Recipe>, f: Filters) returns (result: seq<Recipe>)
    ensures result == Select(recipes, f)
  {
    result := recipes;
    // the filters applied so far; the remaining fields are still absent
    ghost var g := NoFilters;
    SelectUnfiltered(recipes, g);

    StageStep(recipes, g, MaxTime, f);
    if Active(MaxTime, f) {
      result := Keep(result, MaxTime, f);
    }
    g := With(g, MaxTime, f);
    assert result == Select(recipes, g);

    StageStep(recipes, g, MaxIngredients, f);
    if Active(MaxIngredients, f) {
      result := Keep(result, MaxIngredients, f);
    }
    g := With(g, MaxIngredients, f);
    assert result == Select(recipes, g);

    StageStep(recipes, g, MinProtein, f);
    if Active(MinProtein, f) {
      result := Keep(result, MinProtein, f);
    }
    g := With(g, MinProtein, f);
    assert result == Select(recipes, g);

    StageStep(recipes, g, MaxCarbs, f);
    if Active(MaxCarbs, f) {
      result := Keep(result, MaxCarbs, f);
    }
    g := With(g, MaxCarbs, f);
    assert result == Select(recipes, g);

    StageStep(recipes, g, RequiredTags, f);
    if Active(RequiredTags, f) {
      result := Keep(result, RequiredTags, f);
    }
    g := With(g, RequiredTags, f);
    assert result == Select(recipes, g);

    StageStep(recipes, g, Search, f);
    if Active(Search, f) {
      result := Keep(result, Search, f);
    }
    g := With(g, Search, f);
    assert g == f;
  }

  // ---------------------------------------------------------------------
  // What the query promises
  // ---------------------------------------------------------------------

  /**
   * The result is a subsequence of the input: it lists, in increasing order
   * of position, exactly the positions whose recipe satisfies the filters.
   * Nothing is added, duplicated or reordered.
   */
  lemma {:induction false} SelectPositions(rs: seq<Recipe>, f: Filters) returns (idx: seq<nat>)
    ensures |idx| == |Select(rs, f)|
    ensures forall j :: 0 <= j < |idx| ==> idx[j] < |rs| && Select(rs, f)[j] == rs[idx[j]]
    ensures forall j, k :: 0 <= j < k < |idx| ==> idx[j] < idx[k]
    ensures forall i :: 0 <= i < |rs| ==> (i in idx <==> Satisfies(rs[i], f))
    decreases |rs|
  {
    if rs == [] {
      idx := [];
    } else {
      var n := |rs| - 1;
      var pre := SelectPositions(rs[..n], f);
      if Satisfies(rs[n], f) {
        idx := pre + [n];
      } else {
        idx := pre;
      }
    }
  }

  /** A recipe is in the result exactly when it is loaded and satisfies the filters. */
  lemma {:induction false} SelectMembership(rs: seq<Recipe>, f: Filters, r: Recipe)
    ensures r in Select(rs, f) <==> r in rs && Satisfies(r, f)
    decreases |rs|
  {
    if rs != [] {
      var n := |rs| - 1;
      SelectMembership(rs[..n], f, r);
      assert rs == rs[..n] + [rs[n]];
    }
  }

  /** Spelled out per filter: each active bound is inclusive, tags are containment, search is case-blind. */
  lemma SatisfiesMeaning(r: Recipe, f: Filters)
    ensures Satisfies(r, f) <==>
      && (NumberSet(f.maxTime) ==> r.totalTimeMinutes as real <= f.maxTime.value)
      && (NumberSet(f.maxIngredients) ==> |r.ingredients| as real <= f.maxIngredients.value)
      && (NumberSet(f.minProtein) ==> r.macros.proteinGrams >= f.minProtein.value)
      && (NumberSet(f.maxCarbs) ==> r.macros.carbsGrams <= f.maxCarbs.value)
      && (f.tags.Some? && |f.tags.value| > 0 ==> forall t :: t in f.tags.value ==> t in r.tags)
      && (f.search.Some? && f.search.value != "" ==>
            var term := Lower(f.search.value);
            || (exists i: nat :: OccursAt(Lower(r.title), term, i))
            || (exists i: nat :: OccursAt(Lower(r.description), term, i))
            || (exists k :: 0 <= k < |r.ingredients| && exists i: nat :: OccursAt(Lower(r.ingredients[k].name), term, i)))
  {
    if f.tags.Some? {
      HasEveryTagIsContainment(r.tags, f.tags.value);
    }
    if f.search.Some? {
      var term := Lower(f.search.value);
      IncludesIffOccurs(Lower(r.title), term);
      IncludesIffOccurs(Lower(r.description), term);
      forall k | 0 <= k < |r.ingredients|
        ensures Includes(Lower(r.ingredients[k].name), term) <==> exists i: nat :: OccursAt(Lower(r.ingredients[k].name), term, i)
      {
        IncludesIffOccurs(Lower(r.ingredients[k].name), term);
      }
    }
  }

  /** An absent or falsy field (`0`, `""`, `[]`) imposes nothing: such a query returns the whole list. */
  lemma {:induction false} NoActiveFilterKeepsAll(rs: seq<Recipe>, f: Filters)
    requires !NumberSet(f.maxTime) && !NumberSet(f.maxIngredients)
    requires !NumberSet(f.minProtein) && !NumberSet(f.maxCarbs)
    requires f.tags.None? || f.tags.value == []
    requires f.search.None? || f.search.value == ""
    ensures Select(rs, f) == rs
  {
    SelectUnfiltered(rs, f);
  }

  /** Search terms that lower-case alike select the same recipes. */
  lemma {:induction false} SearchIgnoresCase(rs: seq<Recipe>, f: Filters, s1: string, s2: string)
    requires Lower(s1) == Lower(s2)
    ensures Select(rs, f.(search := Some(s1))) == Select(rs, f.(search := Some(s2)))
  {
    assert |s1| == |s2|;
    SelectSameTest(rs, f.(search := Some(s1)), f.(search := Some(s2)));
  }

  /** Field by field: a field of `a` when that filter is active in `a`, else the field of `b`. */
  function Combine(a: Filters, b: Filters): Filters {
    Filters(
      if NumberSet(a.maxTime) then a.maxTime else b.maxTime,
      if NumberSet(a.maxIngredients) then a.maxIngredients else b.maxIngredients,
      if NumberSet(a.minProtein) then a.minProtein else b.minProtein,
      if NumberSet(a.maxCarbs) then a.maxCarbs else b.maxCarbs,
      if Active(RequiredTags, a) then a.tags else b.tags,
      if Active(Search, a) then a.search else b.search)
  }

  /** Selecting twice selects by the conjunction of the two tests. */
  lemma {:induction false} SelectTwice(rs: seq<Recipe>, a: Filters, b: Filters, c: Filters)
    requires forall r :: Satisfies(r, c) == (Satisfies(r, a) && Satisfies(r, b))
    ensures Select(Select(rs, a), b) == Select(rs, c)
    decreases |rs|
  {
    if rs != [] {
      var n := |rs| - 1;
      SelectTwice(rs[..n], a, b, c);
      var pre := Select(rs[..n], a);
      if Satisfies(rs[n], a) {
        var s := pre + [rs[n]];
        assert Select(rs, a) == s;
        assert s[..|s| - 1] == pre;
        assert Select(s, b) == Select(pre, b) + (if Satisfies(rs[n], b) then [rs[n]] else []);
      } else {
        assert Select(rs, a) == pre;
        assert !Satisfies(rs[n], c);
      }
    }
  }

  /**
   * Filters are conjunctive: querying with two filter sets that set
   * different fields is querying with the first and then the second,
   * order preserved from the loaded list.
   */
  lemma CombineIsIntersection(rs: seq<Recipe>, a: Filters, b: Filters)
    requires forall st :: !(Active(st, a) && Active(st, b))
    ensures Select(rs, Combine(a, b)) == Select(Select(rs, a), b)
  {
    var c := Combine(a, b);
    assert !(Active(MaxTime, a) && Active(MaxTime, b));
    assert !(Active(MaxIngredients, a) && Active(MaxIngredients, b));
    assert !(Active(MinProtein, a) && Active(MinProtein, b));
    assert !(Active(MaxCarbs, a) && Active(MaxCarbs, b));
    assert !(Active(RequiredTags, a) && Active(RequiredTags, b));
    assert !(Active(Search, a) && Active(Search, b));
    SelectTwice(rs, a, b, c);
  }

  // ---------------------------------------------------------------------
  // getRecipeById
  // ---------------------------------------------------------------------

  /** `i` is the first position holding a recipe with identifier `id`. */
  predicate FirstWithId(rs: seq<Recipe>, id: string, i: int) {
    0 <= i < |rs| && rs[i].id == id && forall j :: 0 <= j < i ==> rs[j].id != id
  }

  /** `recipes.find(recipe => recipe.id === id)`. */
  function FindById(rs: seq<Recipe>, id: string): (r: Option<Recipe>)
    ensures r.None? <==> forall i :: 0 <= i < |rs| ==> rs[i].id != id
    ensures r.Some? ==> exists i :: FirstWithId(rs, id, i) && rs[i] == r.value
    decreases |rs|
  {
    if rs == [] then None
    else if rs[0].id == id then
      assert FirstWithId(rs, id, 0);
      Some(rs[0])
    else
      var r := FindById(rs[1..], id);
      assert r.Some? ==> exists i :: FirstWithId(rs[1..], id, i) && rs[1..][i] == r.value;
      assert forall i :: FirstWithId(rs[1..], id, i) ==> FirstWithId(rs, id, i + 1);
      r
  }

  /** An identifier held by exactly one recipe finds that recipe. */
  lemma FindUniqueId(rs: seq<Recipe>, id: string, i: int)
    requires 0 <= i < |rs| && rs[i].id == id
    requires forall j :: 0 <= j < |rs| && j != i ==> rs[j].id != id
    ensures FindById(rs, id) == Some(rs[i])
  {
  }

  // ---------------------------------------------------------------------
  // Loading and the per-scope memo
  // ---------------------------------------------------------------------

  /** What reading and parsing a JSON data file produced. */
  datatype ParseOutcome<T> = ReadFailed | JsonNull | Json(value: T)

  /** A JavaScript value that may be `null`. */
  datatype Nullable<T> = Null | NonNull(value: T)

  /** A thrown `TypeError`, or the value returned. */
  datatype Thrown<T> = Returned(value: T) | TypeError

  /**
   * The try/catch around reading and parsing: a failure is logged and
   * becomes the empty list; a document holding `null` parses, so `null`
   * is what the caller receives.
   */
  function Degrade<T>(o: ParseOutcome<seq<T>>): Nullable<seq<T>> {
    match o
    case ReadFailed => NonNull([])
    case JsonNull => Null
    case Json(v) => NonNull(v)
  }

  /** `getAvailableTags()`: the tag file, or the empty list when it cannot be read or parsed. */
  function GetAvailableTags(source: ParseOutcome<seq<Tag>>): (r: Nullable<seq<Tag>>)
    ensures source.ReadFailed? ==> r == NonNull([])
    ensures source.Json? ==> r == NonNull(source.value)
    ensures r.Null? <==> source.JsonNull?
  {
    Degrade(source)
  }

  /** `getPublicRecipes` given what the loader returned: `null` gives []. */
  function QueryLoaded(c: Nullable<seq<Recipe>>, f: Filters): seq<Recipe> {
    match c
    case Null => []
    case NonNull(rs) => Select(rs, f)
  }

  /** `getRecipeById` given what the loader returned: `find` on `null` throws. */
  function LookupLoaded(c: Nullable<seq<Recipe>>, id: string): Thrown<Option<Recipe>> {
    match c
    case Null => TypeError
    case NonNull(rs) => Returned(FindById(rs, id))
  }

  /** The recipe API of one cache scope. */
  class RecipeStore {
    /** The memo of `cache(getRecipes)`: `None` until the scope's first load. */
    var memo: Option<Nullable<seq<Recipe>>>

    constructor ()
      ensures memo == None
    {
      memo := None;
    }

    /**
     * `getRecipes()`: the first call of the scope reads `source` (the
     * outcome of reading and parsing the data file); later calls return
     * what the first one produced.
     */
    method GetRecipes(source: ParseOutcome<seq<Recipe>>) returns (c: Nullable<seq<Recipe>>)
      modifies this
      ensures old(memo).Some? ==> c == old(memo).value
      ensures old(memo).None? ==> c == Degrade(source)
      ensures memo == Some(c)
    {
      if memo.Some? {
        c := memo.value;
      } else {
        c := Degrade(source);
        memo := Some(c);
      }
    }

    /** `getPublicRecipes(filters)`. */
    method GetPublicRecipes(source: ParseOutcome<seq<Recipe>>, f: Filters) returns (result: seq<Recipe>)
      modifies this
      ensures old(memo).Some? ==> memo == old(memo)
      ensures old(memo).None? ==> memo == Some(Degrade(source))
      ensures memo.Some? && result == QueryLoaded(memo.value, f)
    {
      var recipes := GetRecipes(source);
      if recipes.Null? {
        return [];
      }
      result := FilterRecipes(recipes.value, f);
    }

    /** `getRecipeById(id)`. */
    method GetRecipeById(source: ParseOutcome<seq<Recipe>>, id: string) returns (r: Thrown<Option<Recipe>>)
      modifies this
      ensures old(memo).Some? ==> memo == old(memo)
      ensures old(memo).None? ==> memo == Some(Degrade(source))
      ensures memo.Some? && r == LookupLoaded(memo.value, id)
    {
      var recipes := GetRecipes(source);
      if recipes.Null? {
        r := TypeError;
      } else {
        r := Returned(FindById(recipes.value, id));
      }
    }
  }

  /**
   * Within one scope, repeated queries agree: the second call is answered
   * from the memo, whatever the data file holds by then.
   */
  method RepeatedCallsAgree(first: ParseOutcome<seq<Recipe>>, later: ParseOutcome<seq<Recipe>>, f: Filters, id: string)
    returns (list1: seq<Recipe>, list2: seq<Recipe>, found1: Thrown<Option<Recipe>>, found2: Thrown<Option<Recipe>>)
    ensures list1 == list2 && found1 == found2
    ensures first.Json? ==> list1 == Select(first.value, f) && found1 == Returned(FindById(first.value, id))
  {
    var store := new RecipeStore();
    list1 := store.GetPublicRecipes(first, f);
    found1 := store.GetRecipeById(later, id);
    list2 := store.GetPublicRecipes(later, f);
    found2 := store.GetRecipeById(first, id);
  }

  /** A data file that cannot be read or parsed: every query is empty and every lookup not-found. */
  method FailedLoadDegrades(f: Filters, id: string) returns (list: seq<Recipe>, found: Thrown<Option<Recipe>>)
    ensures list == [] && found == Returned(None)
  {
    var store := new RecipeStore();
    list := store.GetPublicRecipes(ReadFailed, f);
    found := store.GetRecipeById(ReadFailed, id);
  }

  /** A data file holding `null`: the query's guard returns [], but the lookup throws. */
  method NullDocument(f: Filters, id: string) returns (list: seq<Recipe>, found: Thrown<Option<Recipe>>)
    ensures list == [] && found == TypeError
  {
    var store := new RecipeStore();
    list := store.GetPublicRecipes(JsonNull, f);
    found := store.GetRecipeById(JsonNull, id);
  }

  // ---------------------------------------------------------------------
  // Worked examples
  // ---------------------------------------------------------------------

  function ExampleRecipe(id: string, minutes: nat, ingredients: seq<Ingredient>, tags: seq<string>): Recipe {
    Recipe(id, id, "", None, None, 0, 0, minutes, 1, [], tags, Macros(0.0, 0.0, 0.0), ingredients)
  }

  /** A time bound of 30 keeps the 20-minute recipe and drops the 50-minute one; both tags at once match neither. */
  lemma TwoRecipeExample()
    ensures
      var a := ExampleRecipe("a", 20, [Ingredient("x1", 1.0, ""), Ingredient("x2", 1.0, "")], ["vegan"]);
      var b := ExampleRecipe("b", 50, [Ingredient("y1", 1.0, "")], ["quick"]);
      && Select([a, b], NoFilters.(maxTime := Some(30.0))) == [a]
      && Select([a, b], NoFilters.(tags := Some(["vegan", "quick"]))) == []
      && Select([a, b], NoFilters.(tags := Some(["vegan"]))) == [a]
  {
    var a := ExampleRecipe("a", 20, [Ingredient("x1", 1.0, ""), Ingredient("x2", 1.0, "")], ["vegan"]);
    var b := ExampleRecipe("b", 50, [Ingredient("y1", 1.0, "")], ["quick"]);
    assert [a, b][..1] == [a];
    assert [a][..0] == [];
    var byTime := NoFilters.(maxTime := Some(30.0));
    assert Satisfies(a, byTime) && !Satisfies(b, byTime);
    assert Select([a], byTime) == [a];
    assert Select([a, b], byTime) == Select([a], byTime);
    var both := NoFilters.(tags := Some(["vegan", "quick"]));
    assert !HasEveryTag(a.tags, ["quick"]);
    assert !Satisfies(a, both) && !Satisfies(b, both);
    assert Select([a], both) == [];
    assert Select([a, b], both) == Select([a], both);
    var vegan := NoFilters.(tags := Some(["vegan"]));
    assert Satisfies(a, vegan) && !Satisfies(b, vegan);
    assert Select([a], vegan) == [a];
    assert Select([a, b], vegan) == Select([a], vegan);
  }
}
