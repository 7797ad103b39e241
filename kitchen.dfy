/**
 * The kitchen inventory state (src/contexts/KitchenContext.jsx): the user's
 * ingredients and cookware, the list of matched recipes, and its pagination.
 * Date.now() and Math.random() are parameters; persistence to local storage is
 * not modelled.
 */
module Kitchen {
  import opened Wrappers
  import opened Strings
  import opened Records
  import opened RecipeService

  /** An ingredient in the inventory. `kind` is the source's `type` field. */
  datatype Ingredient = Ingredient(
    id: string,
    name: string,
    quantity: int,
    category: string,
    kind: string,
    cut: string,
    ingredient_category: string,
    ingredient_type: string,
    ingredient_cut: string)

  /** A cookware item in the inventory. `kind` is the source's `type` field. */
  datatype Cookware = Cookware(
    id: string,
    name: string,
    quantity: int,
    category: string,
    kind: string,
    variety: string,
    cookware_category: string,
    cookware_type: string,
    cookware_variety: string)

  const RecipesPerPage: nat := 3

  /** The id generated for an item without one: `<category|custom>-<type|generic>-<now>`. */
  function GeneratedId(category: string, kind: string, now: nat): (r: string)
    ensures r != ""
  {
    OrElse(category, "custom") + "-" + OrElse(kind, "generic") + "-" + NatToString(now)
  }

  /** The item `addIngredient` builds: an id when missing, and the three tagging levels copied when given. */
  function TaggedIngredient(ing: Ingredient, now: nat): (r: Ingredient)
    ensures r.id != "" && r.name == ing.name && r.quantity == ing.quantity
    ensures ing.id != "" ==> r.id == ing.id
    ensures ing.category != "" ==> r.ingredient_category == ing.category
    ensures ing.category == "" ==> r.ingredient_category == ing.ingredient_category
    ensures ing.kind != "" ==> r.ingredient_type == ing.kind
    ensures ing.kind == "" ==> r.ingredient_type == ing.ingredient_type
    ensures ing.cut != "" ==> r.ingredient_cut == ing.cut
    ensures ing.cut == "" ==> r.ingredient_cut == ing.ingredient_cut
    ensures r.(id := ing.id, ingredient_category := ing.ingredient_category,
               ingredient_type := ing.ingredient_type, ingredient_cut := ing.ingredient_cut) == ing
  {
    var withId := ing.(id := OrElse(ing.id, GeneratedId(ing.category, ing.kind, now)));
    var c := if ing.category != "" then withId.(ingredient_category := ing.category) else withId;
    var t := if ing.kind != "" then c.(ingredient_type := ing.kind) else c;
    if ing.cut != "" then t.(ingredient_cut := ing.cut) else t
  }

  /** `items.findIndex(item => item.name.toLowerCase() === name.toLowerCase())`. */
  function FindIndexByName(items: seq<Ingredient>, name: string): (k: int)
    ensures -1 <= k < |items|
    ensures k >= 0 ==> Lower(items[k].name) == Lower(name)
    ensures forall j :: 0 <= j < |items| && (k == -1 || j < k) ==> Lower(items[j].name) != Lower(name)
    decreases |items|
  {
    if items == [] then -1
    else if Lower(items[0].name) == Lower(name) then 0
    else
      var k := FindIndexByName(items[1..], name);
      if k == -1 then -1 else k + 1
  }

  /** `ingredientItem.quantity || 1`. */
  function QuantityOrOne(q: int): int {
    if q != 0 then q else 1
  }

  /** The inventory after `addIngredient`: a known name (ignoring case) gains quantity, a new one is appended. */
  function AddIngredientTo(items: seq<Ingredient>, ing: Ingredient, now: nat): (r: seq<Ingredient>)
    ensures var item := TaggedIngredient(ing, now);
      var k := FindIndexByName(items, ing.name);
      (k >= 0 ==> |r| == |items|
                  && r[k] == items[k].(quantity := items[k].quantity + QuantityOrOne(ing.quantity))
                  && forall j :: 0 <= j < |items| && j != k ==> r[j] == items[j])
      && (k == -1 ==> r == items + [item])
  {
    var item := TaggedIngredient(ing, now);
    var k := FindIndexByName(items, item.name);
    if k >= 0 then items[k := items[k].(quantity := items[k].quantity + QuantityOrOne(item.quantity))]
    else items + [item]
  }

  /** No two inventory ingredients share a name up to letter case. */
  predicate UniqueNames(items: seq<Ingredient>) {
    forall i, j :: 0 <= i < j < |items| ==> Lower(items[i].name) != Lower(items[j].name)
  }

  /** Adding keeps names unique, and adding a name already present never grows the list. */
  lemma AddIngredientKeepsNamesUnique(items: seq<Ingredient>, ing: Ingredient, now: nat)
    requires UniqueNames(items)
    ensures UniqueNames(AddIngredientTo(items, ing, now))
    ensures (exists j :: 0 <= j < |items| && Lower(items[j].name) == Lower(ing.name)) <==>
            |AddIngredientTo(items, ing, now)| == |items|
  {
    var r := AddIngredientTo(items, ing, now);
    var k := FindIndexByName(items, ing.name);
    if k >= 0 {
      forall i, j | 0 <= i < j < |r|
        ensures Lower(r[i].name) != Lower(r[j].name)
      {
        assert r[i].name == items[i].name && r[j].name == items[j].name;
      }
    }
  }

  /** `items.filter((_, i) => i !== index)`: drops the entry at `index`, if there is one. */
  function RemoveAt<T>(items: seq<T>, index: int): (r: seq<T>)
    ensures 0 <= index < |items| ==> |r| == |items| - 1 && multiset(r) + multiset{items[index]} == multiset(items)
    ensures !(0 <= index < |items|) ==> r == items
  {
    if 0 <= index < |items| then
      assert items == items[..index] + [items[index]] + items[index + 1..];
      items[..index] + items[index + 1..]
    else items
  }

  /** Removing keeps the other entries in their order. */
  lemma RemoveAtKeepsOrder<T>(items: seq<T>, index: int)
    requires 0 <= index < |items|
    ensures forall j :: 0 <= j < index ==> RemoveAt(items, index)[j] == items[j]
    ensures forall j :: index <= j < |items| - 1 ==> RemoveAt(items, index)[j] == items[j + 1]
  {
  }

  /** `items.map(item => item.id === updated.id ? updated : item)`. */
  function UpdateById(items: seq<Ingredient>, updated: Ingredient): (r: seq<Ingredient>)
    ensures |r| == |items|
    ensures forall k :: 0 <= k < |items| ==> r[k] == (if items[k].id == updated.id then updated else items[k])
  {
    seq(|items|, k requires 0 <= k < |items| => if items[k].id == updated.id then updated else items[k])
  }

  /** Updating is idempotent and every entry that carries the id ends up equal to the update. */
  lemma UpdateByIdIdempotent(items: seq<Ingredient>, updated: Ingredient)
    ensures UpdateById(UpdateById(items, updated), updated) == UpdateById(items, updated)
    ensures forall k :: 0 <= k < |items| ==>
      (UpdateById(items, updated)[k].id == updated.id <==> items[k].id == updated.id)
  {
  }

  /** The item `addCookware` builds. */
  function TaggedCookware(c: Cookware, now: nat): (r: Cookware)
    ensures r.id != "" && r.name == c.name && r.quantity == c.quantity
    ensures c.id != "" ==> r.id == c.id
    ensures c.category != "" ==> r.cookware_category == c.category
    ensures c.category == "" ==> r.cookware_category == c.cookware_category
    ensures c.kind != "" ==> r.cookware_type == c.kind
    ensures c.kind == "" ==> r.cookware_type == c.cookware_type
    ensures c.variety != "" ==> r.cookware_variety == c.variety
    ensures c.variety == "" ==> r.cookware_variety == c.cookware_variety
    ensures r.(id := c.id, cookware_category := c.cookware_category,
               cookware_type := c.cookware_type, cookware_variety := c.cookware_variety) == c
  {
    var withId := c.(id := OrElse(c.id, GeneratedId(c.category, c.kind, now)));
    var a := if c.category != "" then withId.(cookware_category := c.category) else withId;
    var b := if c.kind != "" then a.(cookware_type := c.kind) else a;
    if c.variety != "" then b.(cookware_variety := c.variety) else b
  }

  predicate HasCookwareId(items: seq<Cookware>, id: string) {
    exists k :: 0 <= k < |items| && items[k].id == id
  }

  /** The cookware after `addCookware`: appended unless an item with the same id is present. */
  function AddCookwareTo(items: seq<Cookware>, c: Cookware, now: nat): (r: seq<Cookware>)
    ensures HasCookwareId(items, TaggedCookware(c, now).id) ==> r == items
    ensures !HasCookwareId(items, TaggedCookware(c, now).id) ==> r == items + [TaggedCookware(c, now)]
  {
    var item := TaggedCookware(c, now);
    if HasCookwareId(items, item.id) then items else items + [item]
  }

  predicate UniqueCookwareIds(items: seq<Cookware>) {
    forall i, j :: 0 <= i < j < |items| ==> items[i].id != items[j].id
  }

  /** Cookware ids stay unique, and adding an item that already has an id twice adds it once. */
  lemma AddCookwareKeepsIdsUnique(items: seq<Cookware>, c: Cookware, now: nat, later: nat)
    requires UniqueCookwareIds(items)
    ensures UniqueCookwareIds(AddCookwareTo(items, c, now))
    ensures c.id != "" ==> AddCookwareTo(AddCookwareTo(items, c, now), c, later) == AddCookwareTo(items, c, now)
  {
    var item := TaggedCookware(c, now);
    var r := AddCookwareTo(items, c, now);
    if c.id != "" && !HasCookwareId(items, item.id) {
      assert r[|items|].id == TaggedCookware(c, later).id;
    }
  }

  /** `Array.prototype.slice(start, end)`, negative positions counting from the end. */
  function Slice<T>(s: seq<T>, start: int, end: int): (r: seq<T>)
    ensures |r| <= |s|
  {
    var n := |s|;
    var b := if start < 0 then (if n + start < 0 then 0 else n + start) else (if start > n then n else start);
    var e := if end < 0 then (if n + end < 0 then 0 else n + end) else (if end > n then n else end);
    if b < e then s[b..e] else []
  }

  /** The recipes shown on one page: `matched.slice((page - 1) * 3, page * 3)`. */
  function PageOf<T>(matched: seq<T>, page: int): seq<T> {
    Slice(matched, (page - 1) * RecipesPerPage, page * RecipesPerPage)
  }

  /** `Math.ceil(n / 3)`. */
  function PageCount(n: nat): (r: nat)
    ensures r * RecipesPerPage >= n
    ensures r == 0 || (r - 1) * RecipesPerPage < n
  {
    (n + RecipesPerPage - 1) / RecipesPerPage
  }

  /**
   * A page from 1 to the page count holds between one and three recipes, the
   * ones at positions (page-1)*3 up to page*3; later pages and page 0 are empty.
   */
  lemma PageContents<T>(matched: seq<T>, page: int)
    ensures 1 <= page <= PageCount(|matched|) ==>
      1 <= |PageOf(matched, page)| <= 3
      && PageOf(matched, page) == matched[(page - 1) * 3..if page * 3 < |matched| then page * 3 else |matched|]
    ensures page > PageCount(|matched|) || page == 0 ==> PageOf(matched, page) == []
  {
  }

  function Pages<T>(matched: seq<T>, from: nat, to: nat): seq<T>
    decreases to - from
  {
    if from >= to then [] else PageOf(matched, from) + Pages(matched, from + 1, to)
  }

  /** Reading pages 1 to the page count in order shows every matched recipe exactly once. */
  lemma {:induction false} PagesCoverAll<T>(matched: seq<T>)
    ensures Pages(matched, 1, PageCount(|matched|) + 1) == matched
  {
    PagesFrom(matched, 1);
  }

  lemma {:induction false} PagesFrom<T>(matched: seq<T>, from: nat)
    requires from >= 1
    requires (from - 1) * 3 <= |matched|
    ensures Pages(matched, from, PageCount(|matched|) + 1) == matched[(from - 1) * 3..]
    decreases |matched| - (from - 1) * 3
  {
    var n := |matched|;
    if from >= PageCount(n) + 1 {
      assert (from - 1) * 3 >= n;
    } else {
      assert PageOf(matched, from) == matched[(from - 1) * 3..if from * 3 < n then from * 3 else n];
      if from * 3 < n {
        PagesFrom(matched, from + 1);
        assert matched[(from - 1) * 3..] == matched[(from - 1) * 3..from * 3] + matched[from * 3..];
      } else {
        assert PageCount(n) == from;
        assert Pages(matched, from + 1, PageCount(n) + 1) == [];
      }
    }
  }

  /** The selection the service scores: only the names of the inventory items are read. */
  function IngredientNames(items: seq<Ingredient>): (r: seq<Selection>)
    ensures |r| == |items|
    ensures forall k :: 0 <= k < |items| ==> r[k] == Selection(items[k].name)
  {
    seq(|items|, k requires 0 <= k < |items| => Selection(items[k].name))
  }

  function CookwareNames(items: seq<Cookware>): (r: seq<Selection>)
    ensures |r| == |items|
    ensures forall k :: 0 <= k < |items| ==> r[k] == Selection(items[k].name)
  {
    seq(|items|, k requires 0 <= k < |items| => Selection(items[k].name))
  }

  function Min(a: int, b: int): int { if a < b then a else b }
  function Max(a: int, b: int): int { if a > b then a else b }

  /**
   * The result of the service path when it is usable: the first 50 catalogue
   * records when nothing is selected, or the service's ranking otherwise; an
   * empty result or a failure yields `None`, which sends the caller to the mock data.
   */
  function ServiceResult(ingredients: seq<Ingredient>, cookware: seq<Cookware>,
                         catalog: Catalog, uuid: nat -> string): (r: Option<seq<Listing>>)
    ensures r.Some? ==> |r.value| > 0
    ensures r.Some? && |ingredients| == 0 && |cookware| == 0 ==> |r.value| <= 50
    ensures |ingredients| == 0 && |cookware| == 0 ==>
      var all := GetAllRecipes(catalog, uuid);
      if all.Ok? && |all.value| > 0 then r == Some(PlainAll(all.value)[..Min(50, |all.value|)])
      else r.None?
    ensures !(|ingredients| == 0 && |cookware| == 0) ==>
      var m := MatchRecipes(Some(IngredientNames(ingredients)), Some(CookwareNames(cookware)), catalog, uuid);
      if m.Ok? && |m.value| > 0 then r == Some(m.value) else r.None?
  {
    if |ingredients| == 0 && |cookware| == 0 then
      match GetAllRecipes(catalog, uuid)
      case Ok(all) => if |all| > 0 then Some(PlainAll(all)[..Min(50, |all|)]) else None
      case Err(_) => None
    else
      match MatchRecipes(Some(IngredientNames(ingredients)), Some(CookwareNames(cookware)), catalog, uuid)
      case Ok(m) => if |m| > 0 then Some(m) else None
      case Err(_) => None
  }

  /** The image defaulting the fallback applies to each mock recipe. */
  function WithFallbackImage(r: Recipe): (p: Recipe)
    ensures p.image_url != ""
    ensures r.image_url != "" ==> p.image_url == r.image_url
    ensures r.image_url == "" && r.image != "" ==> p.image_url == r.image
    ensures r.image_url == "" && r.image == "" && r.name != "" ==>
      p.image_url == ImageDir + ImageSlug(r.name) + ".png"
    ensures r.image_url == "" && r.image == "" && r.name == "" ==> p.image_url == DefaultImage
    ensures p.(image_url := r.image_url) == r
  {
    var a := if r.image == "" && r.image_url == "" && r.name != "" then
               r.(image_url := ImageDir + ImageSlug(r.name) + ".png")
             else r;
    a.(image_url := OrElse(OrElse(a.image_url, a.image), DefaultImage))
  }

  function FallbackRecipes(mock: seq<Recipe>): (r: seq<Recipe>)
    ensures |r| == |mock|
    ensures forall k :: 0 <= k < |mock| ==> r[k] == WithFallbackImage(mock[k])
  {
    seq(|mock|, k requires 0 <= k < |mock| => WithFallbackImage(mock[k]))
  }

  /** The ranking of the fallback: scored, sorted, and cut to `max(10, min(50, n))` entries. */
  function FallbackRanking(ingredients: seq<Ingredient>, cookware: seq<Cookware>, mock: seq<Recipe>): seq<Listing> {
    var scored := ScoreAll(FallbackRecipes(mock), Some(IngredientNames(ingredients)), Some(CookwareNames(cookware)));
    Slice(SortByScore(scored), 0, Max(10, Min(50, |scored|)))
  }

  /**
   * The `max(10, ...)` in the fallback never pads: the ranking holds
   * `min(50, n)` entries, the best-scored ones in non-increasing order.
   */
  lemma FallbackRankingSize(ingredients: seq<Ingredient>, cookware: seq<Cookware>, mock: seq<Recipe>)
    ensures var r := FallbackRanking(ingredients, cookware, mock);
      |r| == Min(50, |mock|) && SortedByScore(r)
  {
    var scored := ScoreAll(FallbackRecipes(mock), Some(IngredientNames(ingredients)), Some(CookwareNames(cookware)));
    var sorted := SortByScore(scored);
    SortByScoreSorted(scored);
    var r := Slice(sorted, 0, Max(10, Min(50, |scored|)));
    assert r == sorted[..Min(50, |scored|)];
  }

  /** The probabilities Math.random() yields, one per shuffle step. */
  predicate RandomDraws(random: seq<real>, n: nat) {
    |random| >= n && forall k :: 0 <= k < |random| ==> 0.0 <= random[k] < 1.0
  }

  lemma ScaledDraw(r: real, m: nat)
    requires 0.0 <= r < 1.0 && m > 0
    ensures 0 <= (r * m as real).Floor < m
  {
    assert r * m as real < m as real;
  }

  /** `Math.floor(random * (i + 1))`, a position between 0 and i. */
  function Draw(random: seq<real>, i: nat): (j: nat)
    requires RandomDraws(random, i + 1)
    ensures j <= i
  {
    ScaledDraw(random[i], i + 1);
    (random[i] * (i + 1) as real).Floor
  }

  function Swap<T>(s: seq<T>, i: nat, j: nat): (r: seq<T>)
    requires i < |s| && j < |s|
    ensures |r| == |s|
  {
    s[i := s[j]][j := s[i]]
  }

  lemma SwapPermutes<T>(s: seq<T>, i: nat, j: nat)
    requires i < |s| && j < |s|
    ensures multiset(Swap(s, i, j)) == multiset(s)
  {
  }

  /** The Fisher–Yates steps from position `i` down to 1. */
  function FisherYates<T>(s: seq<T>, i: int, random: seq<real>): (r: seq<T>)
    requires i < |s| && RandomDraws(random, |s|)
    ensures |r| == |s|
    decreases i
  {
    if i <= 0 then s else FisherYates(Swap(s, i, Draw(random, i)), i - 1, random)
  }

  /** Every Fisher–Yates run is a permutation of its input. */
  lemma {:induction false} FisherYatesPermutes<T>(s: seq<T>, i: int, random: seq<real>)
    requires i < |s| && RandomDraws(random, |s|)
    ensures multiset(FisherYates(s, i, random)) == multiset(s)
    decreases i
  {
    if i > 0 {
      SwapPermutes(s, i, Draw(random, i));
      FisherYatesPermutes(Swap(s, i, Draw(random, i)), i - 1, random);
    }
  }

  /** The in-place shuffle of the fallback, one swap per position from the last down to the second. */
  method Shuffle<T>(a: array<T>, random: seq<real>)
    requires RandomDraws(random, a.Length)
    modifies a
    ensures a[..] == FisherYates(old(a[..]), a.Length - 1, random)
    ensures multiset(a[..]) == multiset(old(a[..]))
  {
    var i := a.Length - 1;
    while i > 0
      invariant -1 <= i < a.Length
      invariant FisherYates(a[..], i, random) == FisherYates(old(a[..]), a.Length - 1, random)
      decreases i
    {
      var j := Draw(random, i);
      ghost var before := a[..];
      a[i], a[j] := a[j], a[i];
      SwapInPlace(before, a[..], i, j);
      FisherYatesStep(before, i, random);
      i := i - 1;
    }
    FisherYatesDone(a[..], i, random);
    FisherYatesPermutes(old(a[..]), a.Length - 1, random);
  }

  /** `[arr[i], arr[j]] = [arr[j], arr[i]]` leaves the swapped sequence. */
  lemma SwapInPlace<T>(before: seq<T>, after: seq<T>, i: nat, j: nat)
    requires i < |before| && j < |before| && |after| == |before|
    requires after[i] == before[j] && after[j] == before[i]
    requires forall k :: 0 <= k < |after| && k != i && k != j ==> after[k] == before[k]
    ensures after == Swap(before, i, j)
  {
  }

  lemma FisherYatesStep<T>(s: seq<T>, i: nat, random: seq<real>)
    requires 0 < i < |s| && RandomDraws(random, |s|)
    ensures FisherYates(s, i, random) == FisherYates(Swap(s, i, Draw(random, i)), i - 1, random)
  {
  }

  lemma FisherYatesDone<T>(s: seq<T>, i: int, random: seq<real>)
    requires i <= 0 && i < |s| && RandomDraws(random, |s|)
    ensures FisherYates(s, i, random) == s
  {
  }

  /** A shuffled copy: same entries, same length. */
  method Shuffled<T>(s: seq<T>, random: seq<real>) returns (r: seq<T>)
    requires RandomDraws(random, |s|)
    ensures r == FisherYates(s, |s| - 1, random)
    ensures multiset(r) == multiset(s) && |r| == |s|
  {
    if |s| == 0 {
      return [];
    }
    var a := new T[|s|](i requires 0 <= i < |s| => s[i]);
    assert a[..] == s;
    Shuffle(a, random);
    r := a[..];
  }

  class KitchenState {
    var ingredients: seq<Ingredient>
    var cookware: seq<Cookware>
    var matchedRecipes: seq<Listing>
    var currentPage: int
    var isLoading: bool

    /** The provider's initial state; the two lists are what local storage held (or empty). */
    constructor (savedIngredients: seq<Ingredient>, savedCookware: seq<Cookware>)
      ensures ingredients == savedIngredients && cookware == savedCookware
      ensures matchedRecipes == [] && currentPage == 1 && !isLoading
    {
      ingredients := savedIngredients;
      cookware := savedCookware;
      matchedRecipes := [];
      currentPage := 1;
      isLoading := false;
    }

    /** `currentRecipes`. */
    function CurrentRecipes(): seq<Listing>
      reads this
    {
      PageOf(matchedRecipes, currentPage)
    }

    /** `totalPages`. */
    function TotalPages(): nat
      reads this
    {
      PageCount(|matchedRecipes|)
    }

    /** `paginate`: any page number is stored as given. */
    method Paginate(page: int)
      modifies this
      ensures currentPage == page
      ensures ingredients == old(ingredients) && cookware == old(cookware) && matchedRecipes == old(matchedRecipes)
      ensures isLoading == old(isLoading)
    {
      currentPage := page;
    }

    method AddIngredient(ing: Ingredient, now: nat)
      modifies this
      ensures ingredients == AddIngredientTo(old(ingredients), ing, now)
      ensures cookware == old(cookware) && matchedRecipes == old(matchedRecipes) && currentPage == old(currentPage)
      ensures isLoading == old(isLoading)
      ensures old(UniqueNames(ingredients)) ==> UniqueNames(ingredients)
    {
      if UniqueNames(ingredients) {
        AddIngredientKeepsNamesUnique(ingredients, ing, now);
      }
      ingredients := AddIngredientTo(ingredients, ing, now);
    }

    method RemoveIngredient(index: int)
      modifies this
      ensures ingredients == RemoveAt(old(ingredients), index)
      ensures cookware == old(cookware) && matchedRecipes == old(matchedRecipes) && currentPage == old(currentPage)
      ensures isLoading == old(isLoading)
    {
      ingredients := RemoveAt(ingredients, index);
    }

    method UpdateIngredient(updated: Ingredient)
      modifies this
      ensures ingredients == UpdateById(old(ingredients), updated)
      ensures cookware == old(cookware) && matchedRecipes == old(matchedRecipes) && currentPage == old(currentPage)
      ensures isLoading == old(isLoading)
    {
      ingredients := UpdateById(ingredients, updated);
    }

    method AddCookware(c: Cookware, now: nat)
      modifies this
      ensures cookware == AddCookwareTo(old(cookware), c, now)
      ensures ingredients == old(ingredients) && matchedRecipes == old(matchedRecipes) && currentPage == old(currentPage)
      ensures isLoading == old(isLoading)
      ensures old(UniqueCookwareIds(cookware)) ==> UniqueCookwareIds(cookware)
    {
      if UniqueCookwareIds(cookware) {
        AddCookwareKeepsIdsUnique(cookware, c, now, now);
      }
      cookware := AddCookwareTo(cookware, c, now);
    }

    method RemoveCookware(index: int)
      modifies this
      ensures cookware == RemoveAt(old(cookware), index)
      ensures ingredients == old(ingredients) && matchedRecipes == old(matchedRecipes) && currentPage == old(currentPage)
      ensures isLoading == old(isLoading)
    {
      cookware := RemoveAt(cookware, index);
    }

    method ClearIngredients()
      modifies this
      ensures ingredients == []
      ensures cookware == old(cookware) && matchedRecipes == old(matchedRecipes) && currentPage == old(currentPage)
      ensures isLoading == old(isLoading)
    {
      ingredients := [];
    }

    method ClearCookware()
      modifies this
      ensures cookware == []
      ensures ingredients == old(ingredients) && matchedRecipes == old(matchedRecipes) && currentPage == old(currentPage)
      ensures isLoading == old(isLoading)
    {
      cookware := [];
    }

    /**
     * `findMatchingRecipes`: the service's result when it is usable; otherwise
     * the mock recipes, shuffled and cut to 50 without a selection, or ranked
     * with one. The page number is left as it was.
     */
    method FindMatchingRecipes(catalog: Catalog, uuid: nat -> string, random: seq<real>)
      requires RandomDraws(random, |catalog.mock|)
      modifies this
      ensures ingredients == old(ingredients) && cookware == old(cookware) && currentPage == old(currentPage)
      ensures !isLoading
      ensures ServiceResult(ingredients, cookware, catalog, uuid).Some? ==>
        matchedRecipes == ServiceResult(ingredients, cookware, catalog, uuid).value
      ensures ServiceResult(ingredients, cookware, catalog, uuid).None? && |ingredients| == 0 && |cookware| == 0 ==>
        matchedRecipes == ShuffledFallback(catalog.mock, random)
      ensures ServiceResult(ingredients, cookware, catalog, uuid).None? && !(|ingredients| == 0 && |cookware| == 0) ==>
        matchedRecipes == FallbackRanking(ingredients, cookware, catalog.mock)
    {
      isLoading := true;
      var service := ServiceResult(ingredients, cookware, catalog, uuid);
      if service.Some? {
        matchedRecipes := service.value;
        isLoading := false;
        return;
      }
      var processed := FallbackRecipes(catalog.mock);
      if |ingredients| == 0 && |cookware| == 0 {
        var shuffled := Shuffled(PlainAll(processed), random);
        matchedRecipes := shuffled[..Min(50, |shuffled|)];
        isLoading := false;
        return;
      }
      matchedRecipes := FallbackRanking(ingredients, cookware, catalog.mock);
      isLoading := false;
    }
  }

  /** The fallback without a selection: the mock entries shuffled and cut to 50. */
  function ShuffledFallback(mock: seq<Recipe>, random: seq<real>): seq<Listing>
    requires RandomDraws(random, |mock|)
  {
    var all := PlainAll(FallbackRecipes(mock));
    var shuffled := FisherYates(all, |all| - 1, random);
    shuffled[..Min(50, |shuffled|)]
  }

  /** Without a selection, the fallback shows min(50, n) distinct mock entries, each one a mock recipe. */
  lemma ShuffledFallbackDrawsFromMock(mock: seq<Recipe>, random: seq<real>)
    requires RandomDraws(random, |mock|)
    ensures var shown := ShuffledFallback(mock, random);
      |shown| == Min(50, |mock|)
      && multiset(shown) <= multiset(PlainAll(FallbackRecipes(mock)))
  {
    var all := PlainAll(FallbackRecipes(mock));
    var shuffled := FisherYates(all, |all| - 1, random);
    FisherYatesPermutes(all, |all| - 1, random);
    PrefixSubMultiset(shuffled, Min(50, |mock|));
  }

  lemma PrefixSubMultiset<T>(s: seq<T>, n: nat)
    requires n <= |s|
    ensures multiset(s[..n]) <= multiset(s)
  {
    assert s == s[..n] + s[n..];
  }
}
