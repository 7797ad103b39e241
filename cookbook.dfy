/**
 * The personal cookbook (src/contexts/CookbookContext.jsx): saved recipes,
 * named collections with a recipe count, and the recipe of the week.
 * Date.now(), the ISO time, the week number and whether the local-storage
 * write succeeds are parameters.
 */
module Cookbook {
  import opened Wrappers
  import opened Strings
  import opened Records
  import opened Filters

  /** A recipe as the cookbook stores it. */
  datatype SavedRecipe = SavedRecipe(
    id: string,
    name: string,
    description: string,
    imageUrl: string,
    prepTime: int,
    cookTime: int,
    difficulty: string,
    rating: int,
    collections: seq<string>,
    lastCooked: string,
    ingredients: seq<Item>,
    steps: seq<Item>,
    required_cookware: seq<Item>)

  /** A recipe handed to `addToCookbook`; 0 and "" are the falsy (missing) values. */
  datatype RecipeInput = RecipeInput(
    id: string,
    name: string,
    title: string,
    description: string,
    image_url: string,
    image: string,
    prep_time: int,
    prepTime: int,
    cook_time: int,
    cookTime: int,
    difficulty: string,
    rating: int,
    ingredients: ListField,
    steps: ListField,
    required_cookware: ListField)

  datatype Collection = Collection(id: string, name: string, count: int)

  /** What every operation resolves to. */
  datatype Response = Response(success: bool, message: string, collectionId: Option<string>)

  const AlreadyInCookbook: string := "Recipe already in cookbook"
  const AddedToCookbook: string := "Recipe added to cookbook"
  const StorageError: string := "Error saving to local storage"
  const EmptyCollectionName: string := "Collection name cannot be empty"
  const DuplicateCollectionName: string := "Collection with this name already exists"
  const CollectionCreated: string := "Collection created"
  const RecipeNotFound: string := "Recipe not found"
  const RemovedFromCollection: string := "Recipe removed from collection"
  const AddedToCollection: string := "Recipe added to collection"
  const RatingUpdated: string := "Rating updated"
  const RemovedFromCookbook: string := "Recipe removed from cookbook"
  const DefaultCollections: string := "Cannot remove default collections"
  const CollectionNotFound: string := "Collection not found"
  const CollectionRemoved: string := "Collection removed"
  const NoHighlyRated: string := "No highly rated recipes found"

  function Failure(message: string): Response {
    Response(false, message, None)
  }

  /** The success response, or the storage error when the write failed after the state was set. */
  function Saved(saved: bool, message: string): Response {
    if saved then Response(true, message, None) else Failure(StorageError)
  }

  /** `Array.isArray(x) ? x : []`. */
  function ArrayOrEmpty(f: ListField): seq<Item> {
    if f.Items? then f.items else []
  }

  function OrInt(a: int, b: int): int {
    if a != 0 then a else b
  }

  /** The record `addToCookbook` stores for a new recipe. */
  function Formatted(recipe: RecipeInput, now: nat, nowIso: string): (r: SavedRecipe)
    ensures r.id != "" && r.name != "" && r.description != "" && r.imageUrl != "" && r.difficulty != ""
    ensures r.prepTime != 0 && r.cookTime != 0
    ensures r.collections == ["all"] && r.lastCooked == nowIso
    ensures recipe.id != "" ==> r.id == recipe.id
    ensures recipe.ingredients.Items? ==> r.ingredients == recipe.ingredients.items
    ensures !recipe.ingredients.Items? ==> r.ingredients == []
    ensures recipe.steps.Items? ==> r.steps == recipe.steps.items
    ensures !recipe.steps.Items? ==> r.steps == []
    ensures recipe.required_cookware.Items? ==> r.required_cookware == recipe.required_cookware.items
    ensures !recipe.required_cookware.Items? ==> r.required_cookware == []
    ensures r.name == OrElse(OrElse(recipe.name, recipe.title), "Untitled Recipe")
    ensures recipe.rating != 0 ==> r.rating == recipe.rating
    ensures recipe.rating == 0 ==> r.rating == 0
  {
    SavedRecipe(
      OrElse(recipe.id, "recipe-" + NatToString(now)),
      OrElse(OrElse(recipe.name, recipe.title), "Untitled Recipe"),
      OrElse(recipe.description, "A delicious recipe"),
      OrElse(OrElse(recipe.image_url, recipe.image),
             "/src/assets/images/" + OrElse(OrElse(recipe.name, recipe.title), "Vegetable Pasta") + ".png"),
      OrInt(OrInt(recipe.prep_time, recipe.prepTime), 15),
      OrInt(OrInt(recipe.cook_time, recipe.cookTime), 30),
      OrElse(recipe.difficulty, "Medium"),
      OrInt(recipe.rating, 0),
      ["all"],
      nowIso,
      ArrayOrEmpty(recipe.ingredients),
      ArrayOrEmpty(recipe.steps),
      ArrayOrEmpty(recipe.required_cookware))
  }

  predicate HasRecipe(recipes: seq<SavedRecipe>, id: string) {
    exists k :: 0 <= k < |recipes| && recipes[k].id == id
  }

  /** `recipes.find(r => r.id === id)`, as an index. */
  function FindRecipe(recipes: seq<SavedRecipe>, id: string): (k: int)
    ensures -1 <= k < |recipes|
    ensures k >= 0 ==> recipes[k].id == id && forall j :: 0 <= j < k ==> recipes[j].id != id
    ensures k == -1 <==> !HasRecipe(recipes, id)
    decreases |recipes|
  {
    if recipes == [] then -1
    else if recipes[0].id == id then 0
    else
      var k := FindRecipe(recipes[1..], id);
      if k == -1 then -1 else k + 1
  }

  /** `collections.map(c => c.id === 'all' ? {...c, count: c.count + 1} : c)`. */
  function IncrementAll(collections: seq<Collection>): (r: seq<Collection>)
    ensures |r| == |collections|
    ensures forall k :: 0 <= k < |r| ==> r[k].id == collections[k].id && r[k].name == collections[k].name
    ensures forall k :: 0 <= k < |r| ==>
      r[k].count == (if collections[k].id == "all" then collections[k].count + 1 else collections[k].count)
  {
    if collections == [] then []
    else
      var c := collections[0];
      [if c.id == "all" then c.(count := c.count + 1) else c] + IncrementAll(collections[1..])
  }

  /** `ids.filter(id => id !== x)`. */
  function RemoveId(ids: seq<string>, x: string): (r: seq<string>)
    ensures forall y :: y in r <==> y in ids && y != x
    ensures x !in ids ==> r == ids
    decreases |ids|
  {
    if ids == [] then []
    else if ids[0] == x then RemoveId(ids[1..], x)
    else [ids[0]] + RemoveId(ids[1..], x)
  }

  predicate NoDuplicates(ids: seq<string>) {
    forall i, j :: 0 <= i < j < |ids| ==> ids[i] != ids[j]
  }

  /** Filtering an id out of a list without duplicates leaves a list without duplicates. */
  lemma {:induction false} RemoveIdNoDuplicates(ids: seq<string>, x: string)
    requires NoDuplicates(ids)
    ensures NoDuplicates(RemoveId(ids, x))
    decreases |ids|
  {
    if ids != [] {
      assert NoDuplicates(ids[1..]) by {
        forall i, j | 0 <= i < j < |ids[1..]| ensures ids[1..][i] != ids[1..][j] {
          assert ids[1..][i] == ids[i + 1] && ids[1..][j] == ids[j + 1];
        }
      }
      RemoveIdNoDuplicates(ids[1..], x);
      if ids[0] != x {
        var rest := RemoveId(ids[1..], x);
        assert ids[0] !in ids[1..];
        var r := [ids[0]] + rest;
        forall i, j | 0 <= i < j < |r| ensures r[i] != r[j] {
          if i == 0 {
            assert r[j] in rest;
          } else {
            assert r[i] == rest[i - 1] && r[j] == rest[j - 1];
          }
        }
      }
    }
  }

  /** The recipe with its collection list toggled: all occurrences removed, or the id appended. */
  function Toggle(r: SavedRecipe, collectionId: string, wasIn: bool): SavedRecipe {
    if wasIn then r.(collections := RemoveId(r.collections, collectionId))
    else r.(collections := r.collections + [collectionId])
  }

  function ToggledRecipes(recipes: seq<SavedRecipe>, recipeId: string, collectionId: string, wasIn: bool): (r: seq<SavedRecipe>)
    ensures |r| == |recipes|
    ensures forall k :: 0 <= k < |r| ==>
      r[k] == (if recipes[k].id == recipeId then Toggle(recipes[k], collectionId, wasIn) else recipes[k])
  {
    if recipes == [] then []
    else
      [if recipes[0].id == recipeId then Toggle(recipes[0], collectionId, wasIn) else recipes[0]]
      + ToggledRecipes(recipes[1..], recipeId, collectionId, wasIn)
  }

  function Max0(n: int): int { if n > 0 then n else 0 }

  /** The target collection's count moved by one, clamped at 0; every other collection is unchanged. */
  function AdjustCount(collections: seq<Collection>, collectionId: string, wasIn: bool): (r: seq<Collection>)
    ensures |r| == |collections|
    ensures forall k :: 0 <= k < |r| ==> r[k].id == collections[k].id && r[k].name == collections[k].name
    ensures forall k :: 0 <= k < |r| ==>
      r[k].count == (if collections[k].id == collectionId
                     then Max0(if wasIn then collections[k].count - 1 else collections[k].count + 1)
                     else collections[k].count)
  {
    if collections == [] then []
    else
      var c := collections[0];
      [if c.id == collectionId then c.(count := Max0(if wasIn then c.count - 1 else c.count + 1)) else c]
      + AdjustCount(collections[1..], collectionId, wasIn)
  }

  function WithRating(recipes: seq<SavedRecipe>, recipeId: string, rating: int): (r: seq<SavedRecipe>)
    ensures |r| == |recipes|
    ensures forall k :: 0 <= k < |r| ==>
      r[k] == (if recipes[k].id == recipeId then recipes[k].(rating := rating) else recipes[k])
  {
    if recipes == [] then []
    else
      [if recipes[0].id == recipeId then recipes[0].(rating := rating) else recipes[0]]
      + WithRating(recipes[1..], recipeId, rating)
  }

  /** `recipes.filter(r => r.id !== id)`. */
  function WithoutRecipe(recipes: seq<SavedRecipe>, id: string): (r: seq<SavedRecipe>)
    ensures |r| <= |recipes|
    ensures forall x :: x in r <==> x in recipes && x.id != id
    decreases |recipes|
  {
    if recipes == [] then []
    else if recipes[0].id == id then WithoutRecipe(recipes[1..], id)
    else [recipes[0]] + WithoutRecipe(recipes[1..], id)
  }

  /** The collections a removed recipe was listed in lose one from their count, clamped at 0. */
  function DecrementListed(collections: seq<Collection>, listed: seq<string>): (r: seq<Collection>)
    ensures |r| == |collections|
    ensures forall k :: 0 <= k < |r| ==> r[k].id == collections[k].id && r[k].name == collections[k].name
    ensures forall k :: 0 <= k < |r| ==>
      r[k].count == (if collections[k].id in listed then Max0(collections[k].count - 1) else collections[k].count)
  {
    if collections == [] then []
    else
      var c := collections[0];
      [if c.id in listed then c.(count := Max0(c.count - 1)) else c] + DecrementListed(collections[1..], listed)
  }

  predicate HasCollection(collections: seq<Collection>, id: string) {
    exists k :: 0 <= k < |collections| && collections[k].id == id
  }

  /** `collections.filter(c => c.id !== id)`. */
  function WithoutCollection(collections: seq<Collection>, id: string): (r: seq<Collection>)
    ensures forall c :: c in r <==> c in collections && c.id != id
    decreases |collections|
  {
    if collections == [] then []
    else if collections[0].id == id then WithoutCollection(collections[1..], id)
    else [collections[0]] + WithoutCollection(collections[1..], id)
  }

  /** Every recipe loses the collection id from its list. */
  function StripCollection(recipes: seq<SavedRecipe>, id: string): (r: seq<SavedRecipe>)
    ensures |r| == |recipes|
    ensures forall k :: 0 <= k < |r| ==>
      r[k] == (if id in recipes[k].collections then recipes[k].(collections := RemoveId(recipes[k].collections, id))
               else recipes[k])
  {
    if recipes == [] then []
    else
      var r := recipes[0];
      [if id in r.collections then r.(collections := RemoveId(r.collections, id)) else r]
      + StripCollection(recipes[1..], id)
  }

  function HighlyRated(recipes: seq<SavedRecipe>): (r: seq<SavedRecipe>)
    ensures forall x :: x in r <==> x in recipes && x.rating >= 4
    decreases |recipes|
  {
    if recipes == [] then []
    else if recipes[0].rating >= 4 then [recipes[0]] + HighlyRated(recipes[1..])
    else HighlyRated(recipes[1..])
  }

  /** The `rating >= 4` verdict on each recipe. */
  function RatingFlags(recipes: seq<SavedRecipe>): (f: seq<bool>)
    ensures |f| == |recipes| && forall j :: 0 <= j < |recipes| ==> f[j] == (recipes[j].rating >= 4)
  {
    seq(|recipes|, j requires 0 <= j < |recipes| => recipes[j].rating >= 4)
  }

  lemma {:induction false} HighlyRatedIsKeep(recipes: seq<SavedRecipe>)
    ensures HighlyRated(recipes) == Keep(recipes, RatingFlags(recipes))
    decreases |recipes|
  {
    if recipes != [] {
      HighlyRatedIsKeep(recipes[1..]);
      assert RatingFlags(recipes)[1..] == RatingFlags(recipes[1..]);
    }
  }

  /**
   * The highly rated list keeps cookbook order: it is the cookbook at strictly
   * increasing positions, exactly those of the recipes rated 4 or more, so
   * `highlyRated[week % n]` is a well-defined position-based choice.
   */
  lemma HighlyRatedInOrder(recipes: seq<SavedRecipe>) returns (idx: seq<nat>)
    ensures var r := HighlyRated(recipes);
      |idx| == |r|
      && (forall k :: 0 <= k < |idx| ==> idx[k] < |recipes| && r[k] == recipes[idx[k]])
      && (forall a, b :: 0 <= a < b < |idx| ==> idx[a] < idx[b])
      && (forall j :: 0 <= j < |recipes| ==> (j in idx <==> recipes[j].rating >= 4))
  {
    HighlyRatedIsKeep(recipes);
    idx := KeepInOrder(recipes, RatingFlags(recipes));
  }

  predicate NameTaken(collections: seq<Collection>, name: string) {
    exists k :: 0 <= k < |collections| && Lower(collections[k].name) == Lower(name)
  }

  /** The number of recipes whose collection list names `id`. */
  function Count(recipes: seq<SavedRecipe>, id: string): nat
    decreases |recipes|
  {
    if recipes == [] then 0 else (if id in recipes[0].collections then 1 else 0) + Count(recipes[1..], id)
  }

  /**
   * The cookbook's consistency: recipe ids and collection ids are unique, no
   * recipe lists a collection twice, and each collection's count is the
   * number of recipes listing it.
   */
  predicate Consistent(recipes: seq<SavedRecipe>, collections: seq<Collection>) {
    UniqueRecipeIds(recipes) && ListsWithoutDuplicates(recipes)
    && UniqueCollectionIds(collections) && CountsAgree(recipes, collections)
  }

  predicate UniqueRecipeIds(recipes: seq<SavedRecipe>) {
    forall i, j :: 0 <= i < j < |recipes| ==> recipes[i].id != recipes[j].id
  }

  predicate ListsWithoutDuplicates(recipes: seq<SavedRecipe>) {
    forall i :: 0 <= i < |recipes| ==> NoDuplicates(recipes[i].collections)
  }

  predicate UniqueCollectionIds(collections: seq<Collection>) {
    forall i, j :: 0 <= i < j < |collections| ==> collections[i].id != collections[j].id
  }

  predicate CountsAgree(recipes: seq<SavedRecipe>, collections: seq<Collection>) {
    forall i :: 0 <= i < |collections| ==> collections[i].count == Count(recipes, collections[i].id)
  }

  lemma {:induction false} CountConcat(a: seq<SavedRecipe>, b: seq<SavedRecipe>, id: string)
    ensures Count(a + b, id) == Count(a, id) + Count(b, id)
    decreases |a|
  {
    if a == [] {
      assert a + b == b;
    } else {
      assert (a + b)[0] == a[0];
      assert (a + b)[1..] == a[1..] + b;
      CountConcat(a[1..], b, id);
    }
  }

  lemma CountSingle(r: SavedRecipe, id: string)
    ensures Count([r], id) == if id in r.collections then 1 else 0
  {
    assert [r][1..] == [];
  }

  /** Replacing one recipe changes every count only by what that recipe contributes. */
  lemma CountReplace(recipes: seq<SavedRecipe>, k: nat, r: SavedRecipe, id: string)
    requires k < |recipes|
    ensures Count(recipes[k := r], id) ==
      Count(recipes, id) - (if id in recipes[k].collections then 1 else 0) + (if id in r.collections then 1 else 0)
  {
    assert recipes == recipes[..k] + [recipes[k]] + recipes[k + 1..];
    assert recipes[k := r] == recipes[..k] + [r] + recipes[k + 1..];
    CountConcat(recipes[..k] + [recipes[k]], recipes[k + 1..], id);
    CountConcat(recipes[..k], [recipes[k]], id);
    CountConcat(recipes[..k] + [r], recipes[k + 1..], id);
    CountConcat(recipes[..k], [r], id);
    CountSingle(recipes[k], id);
    CountSingle(r, id);
  }

  lemma CountRemove(recipes: seq<SavedRecipe>, k: nat, id: string)
    requires k < |recipes|
    ensures Count(recipes[..k] + recipes[k + 1..], id) ==
      Count(recipes, id) - (if id in recipes[k].collections then 1 else 0)
  {
    assert recipes == recipes[..k] + [recipes[k]] + recipes[k + 1..];
    CountConcat(recipes[..k] + [recipes[k]], recipes[k + 1..], id);
    CountConcat(recipes[..k], [recipes[k]], id);
    CountConcat(recipes[..k], recipes[k + 1..], id);
    CountSingle(recipes[k], id);
  }

  lemma {:induction false} CountPositive(recipes: seq<SavedRecipe>, k: nat, id: string)
    requires k < |recipes| && id in recipes[k].collections
    ensures Count(recipes, id) >= 1
    decreases k
  {
    if k > 0 {
      CountPositive(recipes[1..], k - 1, id);
    }
  }

  /** Two recipe lists whose collection lists agree position by position have the same counts. */
  lemma {:induction false} CountSameLists(a: seq<SavedRecipe>, b: seq<SavedRecipe>, id: string)
    requires |a| == |b|
    requires forall k :: 0 <= k < |a| ==> (id in a[k].collections <==> id in b[k].collections)
    ensures Count(a, id) == Count(b, id)
    decreases |a|
  {
    if a != [] {
      CountSameLists(a[1..], b[1..], id);
    }
  }

  /** Removing position `k > 0` commutes with dropping the head. */
  lemma SpliceTail<T>(s: seq<T>, k: nat)
    requires 0 < k < |s|
    ensures s[..k] + s[k + 1..] == [s[0]] + (s[1..][..k - 1] + s[1..][k..])
  {
    assert s[1..][..k - 1] == s[1..k];
    assert s[1..][k..] == s[k + 1..];
    assert s[..k] == [s[0]] + s[1..k];
  }

  lemma TailUniqueRecipeIds(recipes: seq<SavedRecipe>)
    requires recipes != [] && UniqueRecipeIds(recipes)
    ensures UniqueRecipeIds(recipes[1..])
    ensures forall i :: 0 <= i < |recipes[1..]| ==> recipes[1..][i].id != recipes[0].id
  {
    var tail := recipes[1..];
    forall i, j | 0 <= i < j < |tail|
      ensures tail[i].id != tail[j].id
    {
      assert tail[i] == recipes[i + 1] && tail[j] == recipes[j + 1];
    }
    forall i | 0 <= i < |tail|
      ensures tail[i].id != recipes[0].id
    {
      assert tail[i] == recipes[i + 1];
    }
  }

  lemma {:induction false} WithoutRecipeUnique(recipes: seq<SavedRecipe>, k: nat)
    requires k < |recipes|
    requires UniqueRecipeIds(recipes)
    ensures WithoutRecipe(recipes, recipes[k].id) == recipes[..k] + recipes[k + 1..]
    decreases |recipes|
  {
    var id := recipes[k].id;
    TailUniqueRecipeIds(recipes);
    if k == 0 {
      WithoutRecipeNone(recipes[1..], id);
    } else {
      assert recipes[1..][k - 1] == recipes[k];
      WithoutRecipeUnique(recipes[1..], k - 1);
      SpliceTail(recipes, k);
    }
  }

  lemma {:induction false} WithoutRecipeNone(recipes: seq<SavedRecipe>, id: string)
    requires forall i :: 0 <= i < |recipes| ==> recipes[i].id != id
    ensures WithoutRecipe(recipes, id) == recipes
    decreases |recipes|
  {
    if recipes != [] {
      WithoutRecipeNone(recipes[1..], id);
      assert [recipes[0]] + recipes[1..] == recipes;
    }
  }

  lemma TailUniqueCollectionIds(collections: seq<Collection>)
    requires collections != [] && UniqueCollectionIds(collections)
    ensures UniqueCollectionIds(collections[1..])
    ensures forall i :: 0 <= i < |collections[1..]| ==> collections[1..][i].id != collections[0].id
  {
    var tail := collections[1..];
    forall i, j | 0 <= i < j < |tail|
      ensures tail[i].id != tail[j].id
    {
      assert tail[i] == collections[i + 1] && tail[j] == collections[j + 1];
    }
    forall i | 0 <= i < |tail|
      ensures tail[i].id != collections[0].id
    {
      assert tail[i] == collections[i + 1];
    }
  }

  lemma {:induction false} WithoutCollectionUnique(collections: seq<Collection>, k: nat)
    requires k < |collections|
    requires UniqueCollectionIds(collections)
    ensures WithoutCollection(collections, collections[k].id) == collections[..k] + collections[k + 1..]
    decreases |collections|
  {
    var id := collections[k].id;
    TailUniqueCollectionIds(collections);
    if k == 0 {
      WithoutCollectionNone(collections[1..], id);
    } else {
      assert collections[1..][k - 1] == collections[k];
      WithoutCollectionUnique(collections[1..], k - 1);
      SpliceTail(collections, k);
    }
  }

  lemma {:induction false} WithoutCollectionNone(collections: seq<Collection>, id: string)
    requires forall i :: 0 <= i < |collections| ==> collections[i].id != id
    ensures WithoutCollection(collections, id) == collections
    decreases |collections|
  {
    if collections != [] {
      WithoutCollectionNone(collections[1..], id);
      assert [collections[0]] + collections[1..] == collections;
    }
  }

  /** Adding a recipe whose id is new keeps the cookbook consistent. */
  lemma AddKeepsConsistent(recipes: seq<SavedRecipe>, collections: seq<Collection>, r: SavedRecipe)
    requires Consistent(recipes, collections)
    requires !HasRecipe(recipes, r.id) && r.collections == ["all"]
    ensures Consistent(recipes + [r], IncrementAll(collections))
  {
    var rs := recipes + [r];
    var cs := IncrementAll(collections);
    forall i | 0 <= i < |cs|
      ensures cs[i].count == Count(rs, cs[i].id)
    {
      CountConcat(recipes, [r], collections[i].id);
      CountSingle(r, collections[i].id);
    }
    forall i, j | 0 <= i < j < |rs|
      ensures rs[i].id != rs[j].id
    {
      if j == |recipes| {
        assert rs[i] == recipes[i];
      }
    }
  }

  /** Toggling a recipe in a collection moves exactly that collection's count, by one. */
  lemma ToggleCounts(recipes: seq<SavedRecipe>, collections: seq<Collection>, k: nat, collectionId: string)
    requires Consistent(recipes, collections) && k < |recipes|
    ensures var wasIn := collectionId in recipes[k].collections;
      CountsAgree(recipes[k := Toggle(recipes[k], collectionId, wasIn)], AdjustCount(collections, collectionId, wasIn))
  {
    var wasIn := collectionId in recipes[k].collections;
    var t := Toggle(recipes[k], collectionId, wasIn);
    var cs := AdjustCount(collections, collectionId, wasIn);
    forall i | 0 <= i < |cs|
      ensures cs[i].count == Count(recipes[k := t], cs[i].id)
    {
      var id := collections[i].id;
      CountReplace(recipes, k, t, id);
      if id == collectionId {
        if wasIn {
          CountPositive(recipes, k, id);
          assert id !in t.collections;
        } else {
          assert id in t.collections;
        }
      } else {
        assert (id in t.collections) == (id in recipes[k].collections);
      }
    }
  }

  /** Toggling a recipe in a collection keeps the cookbook consistent. */
  lemma ToggleKeepsConsistent(recipes: seq<SavedRecipe>, collections: seq<Collection>, k: nat, collectionId: string)
    requires Consistent(recipes, collections) && k < |recipes|
    ensures var wasIn := collectionId in recipes[k].collections;
      Consistent(ToggledRecipes(recipes, recipes[k].id, collectionId, wasIn), AdjustCount(collections, collectionId, wasIn))
  {
    var wasIn := collectionId in recipes[k].collections;
    var t := Toggle(recipes[k], collectionId, wasIn);
    var rs := ToggledRecipes(recipes, recipes[k].id, collectionId, wasIn);
    assert rs == recipes[k := t];
    var cs := AdjustCount(collections, collectionId, wasIn);
    ToggleCounts(recipes, collections, k, collectionId);
    assert NoDuplicates(t.collections) by {
      if wasIn {
        RemoveIdNoDuplicates(recipes[k].collections, collectionId);
      } else {
        AppendNoDuplicates(recipes[k].collections, collectionId);
      }
    }
    assert UniqueRecipeIds(rs) by {
      forall i, j | 0 <= i < j < |rs|
        ensures rs[i].id != rs[j].id
      {
        assert rs[i].id == recipes[i].id && rs[j].id == recipes[j].id;
      }
    }
    assert ListsWithoutDuplicates(rs) by {
      forall i | 0 <= i < |rs|
        ensures NoDuplicates(rs[i].collections)
      {
        if i != k {
          assert rs[i] == recipes[i];
        }
      }
    }
    assert UniqueCollectionIds(cs) by {
      forall i, j | 0 <= i < j < |cs|
        ensures cs[i].id != cs[j].id
      {
        assert cs[i].id == collections[i].id && cs[j].id == collections[j].id;
      }
    }
  }

  lemma AppendNoDuplicates(l: seq<string>, x: string)
    requires NoDuplicates(l) && x !in l
    ensures NoDuplicates(l + [x])
  {
    var m := l + [x];
    forall i, j | 0 <= i < j < |m|
      ensures m[i] != m[j]
    {
      assert m[i] == l[i];
      if j < |l| {
        assert m[j] == l[j];
      }
    }
  }

  /** Dropping position k of a recipe list keeps its ids unique and its collection lists duplicate-free. */
  lemma DropKeepsRecipeShape(recipes: seq<SavedRecipe>, k: nat)
    requires k < |recipes| && UniqueRecipeIds(recipes) && ListsWithoutDuplicates(recipes)
    ensures UniqueRecipeIds(recipes[..k] + recipes[k + 1..])
    ensures ListsWithoutDuplicates(recipes[..k] + recipes[k + 1..])
  {
    var rs := recipes[..k] + recipes[k + 1..];
    assert forall i :: 0 <= i < |rs| ==> rs[i] == recipes[if i < k then i else i + 1];
  }

  /** Removing a recipe keeps the cookbook consistent. */
  lemma RemoveKeepsConsistent(recipes: seq<SavedRecipe>, collections: seq<Collection>, k: nat)
    requires Consistent(recipes, collections) && k < |recipes|
    ensures Consistent(WithoutRecipe(recipes, recipes[k].id), DecrementListed(collections, recipes[k].collections))
  {
    WithoutRecipeUnique(recipes, k);
    var rs := recipes[..k] + recipes[k + 1..];
    var cs := DecrementListed(collections, recipes[k].collections);
    DropKeepsRecipeShape(recipes, k);
    assert CountsAgree(rs, cs) by {
      forall i | 0 <= i < |cs|
        ensures cs[i].count == Count(rs, cs[i].id)
      {
        var id := collections[i].id;
        CountRemove(recipes, k, id);
        if id in recipes[k].collections {
          CountPositive(recipes, k, id);
        }
      }
    }
    assert UniqueCollectionIds(cs);
  }

  lemma DropKeepsCollectionIds(collections: seq<Collection>, k: nat)
    requires k < |collections| && UniqueCollectionIds(collections)
    ensures UniqueCollectionIds(collections[..k] + collections[k + 1..])
  {
    var cs := collections[..k] + collections[k + 1..];
    assert forall i :: 0 <= i < |cs| ==> cs[i] == collections[if i < k then i else i + 1];
  }

  /** Stripping a collection id from every recipe keeps ids unique and lists duplicate-free. */
  lemma StripKeepsRecipeShape(recipes: seq<SavedRecipe>, id: string)
    requires UniqueRecipeIds(recipes) && ListsWithoutDuplicates(recipes)
    ensures UniqueRecipeIds(StripCollection(recipes, id)) && ListsWithoutDuplicates(StripCollection(recipes, id))
  {
    var rs := StripCollection(recipes, id);
    forall i | 0 <= i < |rs|
      ensures NoDuplicates(rs[i].collections)
    {
      if id in recipes[i].collections {
        RemoveIdNoDuplicates(recipes[i].collections, id);
      }
    }
  }

  /** Removing a collection keeps the cookbook consistent. */
  lemma RemoveCollectionKeepsConsistent(recipes: seq<SavedRecipe>, collections: seq<Collection>, k: nat)
    requires Consistent(recipes, collections) && k < |collections|
    ensures var id := collections[k].id;
      Consistent(StripCollection(recipes, id), WithoutCollection(collections, id))
  {
    var id := collections[k].id;
    WithoutCollectionUnique(collections, k);
    var cs := collections[..k] + collections[k + 1..];
    var rs := StripCollection(recipes, id);
    DropKeepsCollectionIds(collections, k);
    StripKeepsRecipeShape(recipes, id);
    assert CountsAgree(rs, cs) by {
      forall i | 0 <= i < |cs|
        ensures cs[i].count == Count(rs, cs[i].id)
      {
        var c := collections[if i < k then i else i + 1];
        assert cs[i] == c;
        assert c.id != id;
        CountSameLists(recipes, rs, c.id);
      }
    }
  }

  /** A fresh collection id that no recipe lists keeps the cookbook consistent. */
  lemma CreateKeepsConsistent(recipes: seq<SavedRecipe>, collections: seq<Collection>, c: Collection)
    requires Consistent(recipes, collections)
    requires !HasCollection(collections, c.id) && c.count == 0 && Count(recipes, c.id) == 0
    ensures Consistent(recipes, collections + [c])
  {
    var cs := collections + [c];
    forall i, j | 0 <= i < j < |cs|
      ensures cs[i].id != cs[j].id
    {
      if j == |collections| {
        assert cs[i] == collections[i];
      }
    }
  }

  /** Changing a rating keeps the cookbook consistent. */
  lemma RatingKeepsConsistent(recipes: seq<SavedRecipe>, collections: seq<Collection>, recipeId: string, rating: int)
    requires Consistent(recipes, collections)
    ensures Consistent(WithRating(recipes, recipeId, rating), collections)
  {
    var rs := WithRating(recipes, recipeId, rating);
    forall i | 0 <= i < |collections|
      ensures collections[i].count == Count(rs, collections[i].id)
    {
      CountSameLists(recipes, rs, collections[i].id);
    }
  }

  /**
   * Toggling a recipe into a collection it is not in and back out again
   * restores its collection list and the collection's count.
   */
  lemma ToggleTwiceRestores(recipes: seq<SavedRecipe>, collections: seq<Collection>, k: nat, collectionId: string)
    requires k < |recipes| && collectionId !in recipes[k].collections
    requires forall i :: 0 <= i < |collections| ==> collections[i].count >= 0
    ensures var id := recipes[k].id;
      var once := ToggledRecipes(recipes, id, collectionId, false);
      once[k].collections == recipes[k].collections + [collectionId]
      && ToggledRecipes(once, id, collectionId, true)[k] == recipes[k]
      && AdjustCount(AdjustCount(collections, collectionId, false), collectionId, true) == collections
  {
    var once := ToggledRecipes(recipes, recipes[k].id, collectionId, false);
    var l := recipes[k].collections;
    RemoveIdAppended(l, collectionId);
    var a := AdjustCount(AdjustCount(collections, collectionId, false), collectionId, true);
    assert forall i :: 0 <= i < |a| ==> a[i] == collections[i];
  }

  lemma {:induction false} RemoveIdAppended(l: seq<string>, x: string)
    requires x !in l
    ensures RemoveId(l + [x], x) == l
    decreases |l|
  {
    if l == [] {
      assert [x][1..] == [];
    } else {
      assert (l + [x])[1..] == l[1..] + [x];
      RemoveIdAppended(l[1..], x);
      assert [l[0]] + l[1..] == l;
    }
  }

  /** `updateRecipeOfWeek`'s choice: `highlyRated[week % n]`, always a recipe rated 4 or more. */
  lemma RecipeOfWeekIsHighlyRated(recipes: seq<SavedRecipe>, week: nat)
    requires |HighlyRated(recipes)| > 0
    ensures var h := HighlyRated(recipes);
      h[week % |h|] in recipes && h[week % |h|].rating >= 4
  {
    var h := HighlyRated(recipes);
    assert h[week % |h|] in h;
  }

  /** The bundled demonstration data. */
  function MockRecipes(): seq<SavedRecipe> {
    [ SavedRecipe("recipe-1", "Classic Spaghetti Carbonara",
        "A creamy Italian pasta dish with eggs, cheese, pancetta, and black pepper.",
        "/src/assets/images/Classic Spaghetti Carbonara.png", 10, 15, "Easy", 5,
        ["favorites", "weeknight"], "2025-03-28T18:30:00", [], [], []),
      SavedRecipe("recipe-2", "Chicken Parmesan",
        "Breaded chicken cutlets topped with tomato sauce and melted cheese.",
        "/src/assets/images/Chicken Parmesan.png", 20, 30, "Medium", 4,
        ["favorites", "weeknight"], "2025-03-25T19:15:00", [], [], []),
      SavedRecipe("recipe-3", "Vegetable Stir Fry",
        "Quick and healthy stir-fried vegetables with a savory sauce.",
        "/src/assets/images/Vegetable Stir Fry.png", 15, 10, "Easy", 4,
        ["weeknight"], "2025-03-20T18:00:00", [], [], []) ]
  }

  function MockCollections(): seq<Collection> {
    [ Collection("all", "All Recipes", |MockRecipes()|),
      Collection("favorites", "Favorites", Count(MockRecipes(), "favorites")),
      Collection("weeknight", "Weeknight Dinners", Count(MockRecipes(), "weeknight")) ]
  }

  function MockRecipeOfWeek(): SavedRecipe {
    SavedRecipe("recipe-weekly-1", "Classic Beef Stroganoff",
      "A creamy, comforting Russian dish featuring tender beef and mushrooms.",
      "/src/assets/images/Classic Beef Stroganoff.png", 15, 25, "Medium", 5, [], "", [], [], [])
  }

  /**
   * The demonstration data is not consistent: 'All Recipes' counts three
   * recipes while none of them lists 'all' (the other two counts agree).
   */
  lemma MockSeedCountsAllWithoutListing()
    ensures MockCollections()[0].count == 3 && Count(MockRecipes(), "all") == 0
    ensures MockCollections()[1].count == 2 && MockCollections()[2].count == 3
    ensures !Consistent(MockRecipes(), MockCollections())
  {
    var rs := MockRecipes();
    assert "all" !in rs[0].collections && "all" !in rs[1].collections && "all" !in rs[2].collections;
    assert rs[1..][1..][1..] == [];
    assert "favorites" in rs[0].collections && "favorites" in rs[1].collections && "favorites" !in rs[2].collections;
    assert "weeknight" in rs[0].collections && "weeknight" in rs[1].collections && "weeknight" in rs[2].collections;
  }

  class CookbookState {
    var recipes: seq<SavedRecipe>
    var collections: seq<Collection>
    var recipeOfWeek: Option<SavedRecipe>

    /** The provider's initial state: two empty default collections, no recipes. */
    constructor ()
      ensures recipes == [] && recipeOfWeek == None
      ensures collections == [Collection("all", "All Recipes", 0), Collection("favorites", "Favorites", 0)]
      ensures Consistent(recipes, collections)
    {
      recipes := [];
      collections := [Collection("all", "All Recipes", 0), Collection("favorites", "Favorites", 0)];
      recipeOfWeek := None;
    }

    /** `initializeWithMockData`. */
    method InitializeWithMockData()
      modifies this
      ensures recipes == MockRecipes() && collections == MockCollections()
      ensures recipeOfWeek == Some(MockRecipeOfWeek())
    {
      recipes, collections, recipeOfWeek := MockRecipes(), MockCollections(), Some(MockRecipeOfWeek());
    }

    method AddToCookbook(recipe: RecipeInput, now: nat, nowIso: string, saved: bool) returns (res: Response)
      modifies this
      ensures recipeOfWeek == old(recipeOfWeek)
      ensures HasRecipe(old(recipes), recipe.id) ==>
        res == Failure(AlreadyInCookbook) && recipes == old(recipes) && collections == old(collections)
      ensures !HasRecipe(old(recipes), recipe.id) ==>
        recipes == old(recipes) + [Formatted(recipe, now, nowIso)]
        && collections == IncrementAll(old(collections))
        && res == Saved(saved, AddedToCookbook)
      ensures old(Consistent(recipes, collections)) && !HasRecipe(old(recipes), Formatted(recipe, now, nowIso).id) ==>
        Consistent(recipes, collections)
    {
      if HasRecipe(recipes, recipe.id) {
        return Failure(AlreadyInCookbook);
      }
      var newRecipe := Formatted(recipe, now, nowIso);
      if Consistent(recipes, collections) && !HasRecipe(recipes, newRecipe.id) {
        AddKeepsConsistent(recipes, collections, newRecipe);
      }
      recipes := recipes + [newRecipe];
      collections := IncrementAll(collections);
      res := Saved(saved, AddedToCookbook);
    }

    method CreateCollection(name: string, now: nat, saved: bool) returns (res: Response)
      modifies this
      ensures recipes == old(recipes) && recipeOfWeek == old(recipeOfWeek)
      ensures AllSpace(name) ==> res == Failure(EmptyCollectionName) && collections == old(collections)
      ensures !AllSpace(name) && NameTaken(old(collections), name) ==>
        res == Failure(DuplicateCollectionName) && collections == old(collections)
      ensures !AllSpace(name) && !NameTaken(old(collections), name) ==>
        var id := "collection-" + NatToString(now);
        collections == old(collections) + [Collection(id, Trim(name), 0)]
        && res == (if saved then Response(true, CollectionCreated, Some(id)) else Failure(StorageError))
      ensures old(Consistent(recipes, collections))
              && !HasCollection(old(collections), "collection-" + NatToString(now))
              && Count(recipes, "collection-" + NatToString(now)) == 0 ==>
        Consistent(recipes, collections)
    {
      if Trim(name) == "" {
        return Failure(EmptyCollectionName);
      }
      if NameTaken(collections, name) {
        return Failure(DuplicateCollectionName);
      }
      var c := Collection("collection-" + NatToString(now), Trim(name), 0);
      if Consistent(recipes, collections) && !HasCollection(collections, c.id) && Count(recipes, c.id) == 0 {
        CreateKeepsConsistent(recipes, collections, c);
      }
      collections := collections + [c];
      res := if saved then Response(true, CollectionCreated, Some(c.id)) else Failure(StorageError);
    }

    method ToggleRecipeInCollection(recipeId: string, collectionId: string, saved: bool) returns (res: Response)
      modifies this
      ensures recipeOfWeek == old(recipeOfWeek)
      ensures !HasRecipe(old(recipes), recipeId) ==>
        res == Failure(RecipeNotFound) && recipes == old(recipes) && collections == old(collections)
      ensures HasRecipe(old(recipes), recipeId) ==>
        var wasIn := collectionId in old(recipes)[FindRecipe(old(recipes), recipeId)].collections;
        recipes == ToggledRecipes(old(recipes), recipeId, collectionId, wasIn)
        && collections == AdjustCount(old(collections), collectionId, wasIn)
        && res == Saved(saved, if wasIn then RemovedFromCollection else AddedToCollection)
      ensures old(Consistent(recipes, collections)) ==> Consistent(recipes, collections)
    {
      var k := FindRecipe(recipes, recipeId);
      if k < 0 {
        return Failure(RecipeNotFound);
      }
      var wasIn := collectionId in recipes[k].collections;
      if Consistent(recipes, collections) {
        ToggleKeepsConsistent(recipes, collections, k, collectionId);
      }
      recipes := ToggledRecipes(recipes, recipeId, collectionId, wasIn);
      collections := AdjustCount(collections, collectionId, wasIn);
      res := Saved(saved, if wasIn then RemovedFromCollection else AddedToCollection);
    }

    method UpdateRating(recipeId: string, rating: int, saved: bool) returns (res: Response)
      modifies this
      ensures collections == old(collections) && recipeOfWeek == old(recipeOfWeek)
      ensures !HasRecipe(old(recipes), recipeId) ==> res == Failure(RecipeNotFound) && recipes == old(recipes)
      ensures HasRecipe(old(recipes), recipeId) ==>
        recipes == WithRating(old(recipes), recipeId, rating) && res == Saved(saved, RatingUpdated)
      ensures old(Consistent(recipes, collections)) ==> Consistent(recipes, collections)
    {
      if FindRecipe(recipes, recipeId) < 0 {
        return Failure(RecipeNotFound);
      }
      if Consistent(recipes, collections) {
        RatingKeepsConsistent(recipes, collections, recipeId, rating);
      }
      recipes := WithRating(recipes, recipeId, rating);
      res := Saved(saved, RatingUpdated);
    }

    method RemoveFromCookbook(recipeId: string, saved: bool) returns (res: Response)
      modifies this
      ensures recipeOfWeek == old(recipeOfWeek)
      ensures !HasRecipe(old(recipes), recipeId) ==>
        res == Failure(RecipeNotFound) && recipes == old(recipes) && collections == old(collections)
      ensures HasRecipe(old(recipes), recipeId) ==>
        var listed := old(recipes)[FindRecipe(old(recipes), recipeId)].collections;
        recipes == WithoutRecipe(old(recipes), recipeId)
        && collections == DecrementListed(old(collections), listed)
        && res == Saved(saved, RemovedFromCookbook)
      ensures old(Consistent(recipes, collections)) ==> Consistent(recipes, collections)
    {
      var k := FindRecipe(recipes, recipeId);
      if k < 0 {
        return Failure(RecipeNotFound);
      }
      var listed := recipes[k].collections;
      if Consistent(recipes, collections) {
        RemoveKeepsConsistent(recipes, collections, k);
      }
      recipes := WithoutRecipe(recipes, recipeId);
      collections := DecrementListed(collections, listed);
      res := Saved(saved, RemovedFromCookbook);
    }

    method RemoveCollection(collectionId: string, saved: bool) returns (res: Response)
      modifies this
      ensures recipeOfWeek == old(recipeOfWeek)
      ensures collectionId == "all" || collectionId == "favorites" ==>
        res == Failure(DefaultCollections) && recipes == old(recipes) && collections == old(collections)
      ensures collectionId != "all" && collectionId != "favorites" && !HasCollection(old(collections), collectionId) ==>
        res == Failure(CollectionNotFound) && recipes == old(recipes) && collections == old(collections)
      ensures collectionId != "all" && collectionId != "favorites" && HasCollection(old(collections), collectionId) ==>
        collections == WithoutCollection(old(collections), collectionId)
        && recipes == StripCollection(old(recipes), collectionId)
        && res == Saved(saved, CollectionRemoved)
      ensures old(Consistent(recipes, collections)) ==> Consistent(recipes, collections)
    {
      if collectionId == "all" || collectionId == "favorites" {
        return Failure(DefaultCollections);
      }
      if !HasCollection(collections, collectionId) {
        return Failure(CollectionNotFound);
      }
      var k :| 0 <= k < |collections| && collections[k].id == collectionId;
      if Consistent(recipes, collections) {
        RemoveCollectionKeepsConsistent(recipes, collections, k);
      }
      collections := WithoutCollection(collections, collectionId);
      recipes := StripCollection(recipes, collectionId);
      res := Saved(saved, CollectionRemoved);
    }

    /** `updateRecipeOfWeek`, with the week number computed by the caller. */
    method UpdateRecipeOfWeek(week: nat) returns (res: Response)
      modifies this
      ensures recipes == old(recipes) && collections == old(collections)
      ensures |HighlyRated(recipes)| > 0 ==>
        recipeOfWeek == Some(HighlyRated(recipes)[week % |HighlyRated(recipes)|])
        && recipeOfWeek.value in recipes && recipeOfWeek.value.rating >= 4
        && res == Response(true, "", None)
      ensures |HighlyRated(recipes)| == 0 ==>
        recipeOfWeek == (if |recipes| > 0 && old(recipeOfWeek).None? then Some(recipes[0]) else old(recipeOfWeek))
        && res == Failure(NoHighlyRated)
    {
      var highly := HighlyRated(recipes);
      if |highly| > 0 {
        RecipeOfWeekIsHighlyRated(recipes, week);
        recipeOfWeek := Some(highly[week % |highly|]);
        return Response(true, "", None);
      }
      if |recipes| > 0 && recipeOfWeek.None? {
        recipeOfWeek := Some(recipes[0]);
      }
      res := Failure(NoHighlyRated);
    }
  }
}
