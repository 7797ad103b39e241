/**
 * The recipe service (src/services/recipeService.js): record normalisation,
 * the catalogue, lookup by id, ingredient/cookware match scoring with a stable
 * sort by score, and free-text search.
 *
 * The CSV fetch and parse are not modelled: a `Catalog` carries the rows the
 * CSV loader produced (empty when it failed or found nothing) and the bundled
 * mock recipes. Each call that generates uuids receives them as a function
 * from a call counter to a string.
 */
module RecipeService {
  import opened Wrappers
  import opened Strings
  import opened Records
  import opened Filters

  /** A recipe record; "" stands for an absent or empty text field. */
  datatype Recipe = Recipe(
    id: string,
    name: string,
    title: string,
    description: string,
    image: string,
    image_url: string,
    ingredients: ListField,
    steps: ListField,
    required_cookware: ListField,
    cuisine_type: string,
    cuisine: string)

  /** What `processRecipeData` does with one argument: `null`, a record, or a thrown TypeError. */
  datatype Outcome = NullRecipe | Processed(recipe: Recipe) | Throws

  const ImageDir: string := "/src/assets/images/"
  const DefaultImage: string := "/src/assets/images/Vegetable Pasta.png"
  const UntitledName: string := "Untitled Recipe"
  const DefaultDescription: string := "A delicious recipe"

  /** The image file name derived from a recipe name: white-space runs become `-`, then lower case. */
  function ImageSlug(name: string): string {
    Lower(ReplaceSpaceRuns(name, '-'))
  }

  /** The argument after `processRecipeData` has assigned its id and, if needed, its image path in place. */
  function Prepared(r: Recipe, uuid: string): Recipe {
    var withId := r.(id := OrElse(r.id, uuid));
    if withId.image == "" && withId.image_url == "" && withId.name != "" then
      withId.(image_url := ImageDir + ImageSlug(withId.name) + ".png")
    else withId
  }

  /** A list column as the normalised record holds it: arrays pass, strings are split on commas. */
  function ListValue(f: ListField): (r: Result<seq<Item>>)
    ensures r.Err? <==> f.Opaque?
    ensures f.Items? ==> r == Ok(f.items)
    ensures f.Csv? && f.s != "" ==> r == Ok(TextItems(SplitTrim(f.s)))
    ensures f.Absent? || f == Csv("") ==> r == Ok([])
  {
    match f
    case Items(xs) => Ok(xs)
    case Csv(s) => if s != "" then Ok(TextItems(SplitTrim(s))) else Ok([])
    case Absent => Ok([])
    case Opaque => Err("TypeError: split is not a function")
  }

  predicate HasOpaqueList(r: Recipe) {
    r.ingredients.Opaque? || r.steps.Opaque? || r.required_cookware.Opaque?
  }

  /** Every field later code relies on is present and every list column is an array. */
  predicate Normalised(r: Recipe) {
    r.id != "" && r.name != "" && r.title != "" && r.description != "" && r.image_url != ""
    && r.ingredients.Items? && r.steps.Items? && r.required_cookware.Items?
  }

  /** A normalised record whose `cuisine` already reflects its `cuisine_type`. */
  predicate Stable(r: Recipe) {
    Normalised(r) && (r.cuisine_type != "" ==> r.cuisine == r.cuisine_type)
  }

  /** `processRecipeData(recipe)`; `uuid1` and `uuid2` are the two `uuidv4()` results it may use. */
  function ProcessRecipeData(recipe: Option<Recipe>, uuid1: string, uuid2: string): (out: Outcome)
    ensures out.NullRecipe? <==> recipe.None?
    ensures out.Throws? <==> recipe.Some? && HasOpaqueList(recipe.value)
    ensures out.Processed? ==> Stable(out.recipe)
    ensures out.Processed? ==> out.recipe.cuisine_type == recipe.value.cuisine_type
                               && out.recipe.image == recipe.value.image
    ensures out.Processed? && recipe.value.image_url == "" ==>
      out.recipe.image_url == (if recipe.value.image != "" then recipe.value.image
                               else if recipe.value.name != "" then ImageDir + ImageSlug(recipe.value.name) + ".png"
                               else DefaultImage)
  {
    if recipe.None? then NullRecipe
    else
      var a := Prepared(recipe.value, uuid1);
      var ingredients := ListValue(a.ingredients);
      var steps := ListValue(a.steps);
      var cookware := ListValue(a.required_cookware);
      if ingredients.Err? || steps.Err? || cookware.Err? then Throws
      else
        Processed(a.(
          id := OrElse(a.id, "recipe-" + uuid2),
          name := OrElse(OrElse(a.name, a.title), UntitledName),
          title := OrElse(OrElse(a.title, a.name), UntitledName),
          description := OrElse(a.description, DefaultDescription),
          image_url := OrElse(OrElse(a.image_url, a.image), DefaultImage),
          ingredients := Items(ingredients.value),
          steps := Items(steps.value),
          required_cookware := Items(cookware.value),
          cuisine := OrElse(a.cuisine_type, a.cuisine)))
  }

  /** Fields the record already has are never replaced. */
  lemma ProcessKeepsPresentFields(r: Recipe, uuid1: string, uuid2: string)
    requires ProcessRecipeData(Some(r), uuid1, uuid2).Processed?
    ensures var p := ProcessRecipeData(Some(r), uuid1, uuid2).recipe;
      (r.id != "" ==> p.id == r.id)
      && (r.name != "" ==> p.name == r.name)
      && (r.title != "" ==> p.title == r.title)
      && (r.description != "" ==> p.description == r.description)
      && (r.image_url != "" ==> p.image_url == r.image_url)
      && (r.ingredients.Items? ==> p.ingredients == r.ingredients)
      && (r.steps.Items? ==> p.steps == r.steps)
      && (r.required_cookware.Items? ==> p.required_cookware == r.required_cookware)
  {
  }

  /** A record without id gets the first uuid; a name missing falls back to the title and vice versa. */
  lemma ProcessFillsMissingFields(r: Recipe, uuid1: string, uuid2: string)
    requires ProcessRecipeData(Some(r), uuid1, uuid2).Processed?
    ensures var p := ProcessRecipeData(Some(r), uuid1, uuid2).recipe;
      (r.id == "" && uuid1 != "" ==> p.id == uuid1)
      && (r.name == "" && r.title != "" ==> p.name == r.title)
      && (r.title == "" && r.name != "" ==> p.title == r.name)
      && (r.name == "" && r.title == "" ==> p.name == UntitledName && p.title == UntitledName)
      && (r.description == "" ==> p.description == DefaultDescription)
      && (r.image_url == "" && r.image != "" ==> p.image_url == r.image)
      && (r.image_url == "" && r.image == "" && r.name == "" ==> p.image_url == DefaultImage)
  {
  }

  /**
   * A record with neither image nor image_url but with a name gets a derived
   * path whose file name holds no white space and no upper-case letter.
   */
  lemma {:induction false} ProcessDerivesImagePath(r: Recipe, uuid1: string, uuid2: string)
    requires ProcessRecipeData(Some(r), uuid1, uuid2).Processed?
    requires r.image == "" && r.image_url == "" && r.name != ""
    ensures var p := ProcessRecipeData(Some(r), uuid1, uuid2).recipe;
      p.image_url == ImageDir + ImageSlug(r.name) + ".png"
      && (forall i :: 0 <= i < |ImageSlug(r.name)| ==> !IsSpace(ImageSlug(r.name)[i]))
      && Lower(ImageSlug(r.name)) == ImageSlug(r.name)
  {
    var replaced := ReplaceSpaceRuns(r.name, '-');
    ReplaceSpaceRunsNoSpace(r.name, '-');
    LowerIdempotent(replaced);
    assert forall i :: 0 <= i < |replaced| ==> Lower(replaced)[i] == LowerChar(replaced[i]);
  }

  /** A comma-separated string column becomes its trimmed pieces, one item per piece. */
  lemma ProcessSplitsCsvIngredients(r: Recipe, uuid1: string, uuid2: string)
    requires ProcessRecipeData(Some(r), uuid1, uuid2).Processed?
    requires r.ingredients.Csv? && r.ingredients.s != ""
    ensures var p := ProcessRecipeData(Some(r), uuid1, uuid2).recipe;
      |p.ingredients.items| == |Split(r.ingredients.s, ',')|
      && forall k :: 0 <= k < |p.ingredients.items| ==>
           p.ingredients.items[k] == Text(Trim(Split(r.ingredients.s, ',')[k]))
  {
    assert Prepared(r, uuid1).ingredients == r.ingredients;
    var pieces := SplitTrim(r.ingredients.s);
    assert ListValue(r.ingredients) == Ok(TextItems(pieces));
    assert ProcessRecipeData(Some(r), uuid1, uuid2).recipe.ingredients == Items(TextItems(pieces));
  }

  /**
   * Processing is idempotent: its fixed points are exactly the stable records,
   * and every processed record is one, whatever uuids a later call draws.
   */
  lemma ProcessFixedPoints(r: Recipe, uuid1: string, uuid2: string)
    ensures ProcessRecipeData(Some(r), uuid1, uuid2) == Processed(r) <==> Stable(r)
  {
    if Stable(r) {
      var p := ProcessRecipeData(Some(r), uuid1, uuid2);
      assert Prepared(r, uuid1) == r;
      assert p.recipe == r;
    }
  }

  lemma ProcessIdempotent(r: Recipe, uuid1: string, uuid2: string, uuid3: string, uuid4: string)
    requires ProcessRecipeData(Some(r), uuid1, uuid2).Processed?
    ensures var p := ProcessRecipeData(Some(r), uuid1, uuid2).recipe;
      ProcessRecipeData(Some(p), uuid3, uuid4) == Processed(p)
  {
    var p := ProcessRecipeData(Some(r), uuid1, uuid2).recipe;
    ProcessFixedPoints(p, uuid3, uuid4);
  }

  /** A recipe object that `processRecipeData` receives by reference and updates in place. */
  class RecipeObject {
    var value: Recipe

    constructor (r: Recipe)
      ensures value == r
    {
      value := r;
    }
  }

  /**
   * The in-place side of `processRecipeData`: the argument itself keeps the
   * assigned id and image path, and the returned copy is the normalised record.
   */
  method ProcessInPlace(obj: RecipeObject?, uuid1: string, uuid2: string) returns (out: Outcome)
    modifies obj
    ensures obj == null ==> out == NullRecipe
    ensures obj != null ==> obj.value == Prepared(old(obj.value), uuid1)
    ensures obj != null ==> out == ProcessRecipeData(Some(old(obj.value)), uuid1, uuid2)
  {
    if obj == null {
      return NullRecipe;
    }
    var original := obj.value;
    obj.value := obj.value.(id := OrElse(obj.value.id, uuid1));
    if obj.value.image == "" && obj.value.image_url == "" && obj.value.name != "" {
      obj.value := obj.value.(image_url := ImageDir + ImageSlug(obj.value.name) + ".png");
    }
    assert obj.value == Prepared(original, uuid1);
    out := ProcessRecipeData(Some(original), uuid1, uuid2);
  }

  /** The CSV rows (empty when the CSV could not be loaded) and the bundled mock recipes. */
  datatype Catalog = Catalog(csv: seq<Recipe>, mock: seq<Recipe>)

  /** `rows.map(processRecipeData)`: the first row that throws aborts the whole map. */
  function ProcessAll(rows: seq<Recipe>, uuid: nat -> string, next: nat): (r: Result<seq<Recipe>>)
    ensures r.Err? <==> exists k :: 0 <= k < |rows| && HasOpaqueList(rows[k])
    ensures r.Ok? ==> |r.value| == |rows|
    ensures r.Ok? ==> forall k :: 0 <= k < |rows| ==> Stable(r.value[k]) && r.value[k].cuisine_type == rows[k].cuisine_type
    decreases |rows|
  {
    if rows == [] then Ok([])
    else
      match ProcessRecipeData(Some(rows[0]), uuid(next), uuid(next + 1))
      case Processed(x) =>
        (match ProcessAll(rows[1..], uuid, next + 2)
         case Ok(xs) => Ok([x] + xs)
         case Err(e) =>
           assert exists k :: 0 <= k < |rows| - 1 && HasOpaqueList(rows[1..][k]);
           Err(e))
      case _ => Err("TypeError: split is not a function")
  }

  /** Processing rows that are already stable changes nothing. */
  lemma {:induction false} ProcessAllStable(rows: seq<Recipe>, uuid: nat -> string, next: nat)
    requires forall k :: 0 <= k < |rows| ==> Stable(rows[k])
    ensures ProcessAll(rows, uuid, next) == Ok(rows)
    decreases |rows|
  {
    if rows != [] {
      ProcessFixedPoints(rows[0], uuid(next), uuid(next + 1));
      ProcessAllStable(rows[1..], uuid, next + 2);
      assert [rows[0]] + rows[1..] == rows;
    }
  }

  /**
   * `getAllRecipes`: the processed CSV rows when there are any, the processed
   * mock recipes otherwise, and the mock recipes again when processing threw.
   */
  function GetAllRecipes(catalog: Catalog, uuid: nat -> string): (r: Result<seq<Recipe>>)
    ensures r.Ok? ==> forall k :: 0 <= k < |r.value| ==> Stable(r.value[k])
    ensures r.Err? ==> ProcessAll(catalog.mock, uuid, 0).Err?
  {
    if |catalog.csv| > 0 then
      match ProcessAll(catalog.csv, uuid, 0)
      case Ok(rs) => Ok(rs)
      case Err(_) => ProcessAll(catalog.mock, uuid, 2 * |catalog.csv|)
    else ProcessAll(catalog.mock, uuid, 0)
  }

  /** The catalogue comes from the CSV rows exactly when there are some and none of them throws. */
  lemma GetAllRecipesSource(catalog: Catalog, uuid: nat -> string)
    ensures |catalog.csv| > 0 && ProcessAll(catalog.csv, uuid, 0).Ok? ==>
      GetAllRecipes(catalog, uuid) == ProcessAll(catalog.csv, uuid, 0)
    ensures GetAllRecipes(catalog, uuid).Ok? ==>
      |GetAllRecipes(catalog, uuid).value| == (if |catalog.csv| > 0 && ProcessAll(catalog.csv, uuid, 0).Ok?
                                                then |catalog.csv| else |catalog.mock|)
    ensures GetAllRecipes(catalog, uuid).Err? <==>
      (exists k :: 0 <= k < |catalog.mock| && HasOpaqueList(catalog.mock[k]))
      && (|catalog.csv| == 0 || exists k :: 0 <= k < |catalog.csv| && HasOpaqueList(catalog.csv[k]))
  {
    if |catalog.csv| > 0 && ProcessAll(catalog.csv, uuid, 0).Err? {
      var a := ProcessAll(catalog.mock, uuid, 2 * |catalog.csv|);
      var b := ProcessAll(catalog.mock, uuid, 0);
      assert a.Err? <==> b.Err?;
    }
  }

  function FindById(rs: seq<Recipe>, id: string): (r: Option<Recipe>)
    ensures r.Some? ==> r.value in rs && r.value.id == id
    ensures r.Some? ==> exists k :: 0 <= k < |rs| && rs[k] == r.value && forall j :: 0 <= j < k ==> rs[j].id != id
    ensures r.None? <==> forall k :: 0 <= k < |rs| ==> rs[k].id != id
    decreases |rs|
  {
    if rs == [] then None
    else if rs[0].id == id then Some(rs[0])
    else
      var r := FindById(rs[1..], id);
      assert r.Some? ==> exists k :: 0 <= k < |rs| && rs[k] == r.value && forall j :: 0 <= j < k ==> rs[j].id != id by {
        if r.Some? {
          var k :| 0 <= k < |rs| - 1 && rs[1..][k] == r.value && forall j :: 0 <= j < k ==> rs[1..][j].id != id;
          assert rs[k + 1] == r.value && forall j :: 0 <= j < k + 1 ==> rs[j].id != id;
        }
      }
      r
  }

  /** `getRecipeById`: the first catalogue record with that id, processed again; `null` on failure. */
  function GetRecipeById(id: string, catalog: Catalog, uuid: nat -> string): Option<Recipe> {
    match GetAllRecipes(catalog, uuid)
    case Err(_) => None
    case Ok(all) =>
      match FindById(all, id)
      case None => None
      case Some(r) =>
        match ProcessRecipeData(Some(r), uuid(0), uuid(1))
        case Processed(p) => Some(p)
        case _ => None
  }

  /**
   * The record found is the catalogue's first record with the requested id,
   * exactly as the catalogue holds it; `null` means no record has it.
   */
  lemma GetRecipeByIdFinds(id: string, catalog: Catalog, uuid: nat -> string)
    requires GetAllRecipes(catalog, uuid).Ok?
    ensures var all := GetAllRecipes(catalog, uuid).value;
      match GetRecipeById(id, catalog, uuid)
      case Some(p) =>
        p.id == id && exists k :: 0 <= k < |all| && all[k] == p && forall j :: 0 <= j < k ==> all[j].id != id
      case None => forall k :: 0 <= k < |all| ==> all[k].id != id
  {
    var all := GetAllRecipes(catalog, uuid).value;
    var found := FindById(all, id);
    if found.Some? {
      ProcessFixedPoints(found.value, uuid(0), uuid(1));
    }
  }

  /** A selected ingredient or cookware item; the scoring only reads its name. */
  datatype Selection = Selection(name: string)

  /** A catalogue entry as matching returns it: as it was, or with its score attached. */
  datatype Listing =
    | Plain(recipe: Recipe)
    | Scored(recipe: Recipe, score: real, matchedIngredients: seq<Selection>, totalIngredients: nat)

  /** An item's lower-cased text for matching: strings only, anything else counts as "". */
  function MatchText(item: Item): string {
    if item.Text? then Lower(item.s) else ""
  }

  /** `items.some(...)`: some item's match text includes the needle. */
  predicate AnyContains(items: seq<Item>, needle: string) {
    exists k :: 0 <= k < |items| && Contains(MatchText(items[k]), needle)
  }

  /** The selected items whose (lower-cased) name occurs in some item text, in selection order. */
  function MatchedSelections(selected: seq<Selection>, items: seq<Item>): (r: seq<Selection>)
    ensures |r| <= |selected|
    ensures forall s :: s in r <==> s in selected && AnyContains(items, Lower(s.name))
    decreases |selected|
  {
    if selected == [] then []
    else
      var rest := MatchedSelections(selected[1..], items);
      if AnyContains(items, Lower(selected[0].name)) then [selected[0]] + rest else rest
  }

  /**
   * `filter` keeps selection order: the result is the subsequence of the
   * selection at strictly increasing positions `idx`, which are exactly the
   * positions of the matching selections.
   */
  lemma MatchedSelectionsInOrder(selected: seq<Selection>, items: seq<Item>) returns (idx: seq<nat>)
    ensures var r := MatchedSelections(selected, items);
      |idx| == |r|
      && (forall k :: 0 <= k < |idx| ==> idx[k] < |selected| && r[k] == selected[idx[k]])
      && (forall a, b :: 0 <= a < b < |idx| ==> idx[a] < idx[b])
      && (forall j :: 0 <= j < |selected| ==> (j in idx <==> Matches(items, selected[j])))
  {
    var flags := MatchFlags(selected, items);
    MatchedIsKeep(selected, items);
    idx := KeepInOrder(selected, flags);
  }

  /** Whether `filter` keeps selection `s`. */
  predicate Matches(items: seq<Item>, s: Selection) {
    AnyContains(items, Lower(s.name))
  }

  /** The filter's verdict on each selection. */
  function MatchFlags(selected: seq<Selection>, items: seq<Item>): (f: seq<bool>)
    ensures |f| == |selected| && forall j :: 0 <= j < |selected| ==> f[j] == Matches(items, selected[j])
  {
    seq(|selected|, j requires 0 <= j < |selected| => Matches(items, selected[j]))
  }

  lemma {:induction false} MatchedIsKeep(selected: seq<Selection>, items: seq<Item>)
    ensures MatchedSelections(selected, items) == Keep(selected, MatchFlags(selected, items))
    decreases |selected|
  {
    if selected != [] {
      MatchedIsKeep(selected[1..], items);
      assert MatchFlags(selected, items)[1..] == MatchFlags(selected[1..], items);
    }
  }

  /** Every selection matches an item text, so every selection is kept. */
  lemma MatchedAll(selected: seq<Selection>, items: seq<Item>)
    requires forall k :: 0 <= k < |selected| ==> AnyContains(items, Lower(selected[k].name))
    ensures MatchedSelections(selected, items) == selected
  {
    MatchedIsKeep(selected, items);
    KeepAll(selected, MatchFlags(selected, items));
  }

  /** No selection matches an item text, so none is kept. */
  lemma MatchedNone(selected: seq<Selection>, items: seq<Item>)
    requires forall k :: 0 <= k < |selected| ==> !AnyContains(items, Lower(selected[k].name))
    ensures MatchedSelections(selected, items) == []
  {
    MatchedIsKeep(selected, items);
    KeepNone(selected, MatchFlags(selected, items));
  }

  lemma DivSelf(x: real)
    requires x > 0.0
    ensures x / x == 1.0
  {
  }

  lemma RatioBound(m: nat, n: nat)
    requires m <= n && n > 0
    ensures 0.0 <= m as real / n as real <= 1.0
  {
    assert m as real <= n as real;
  }

  predicate NonEmpty(s: Option<seq<Selection>>) {
    s.Some? && |s.value| > 0
  }

  /** The ingredient part of the score: the matched share of the selection in percent, or 50 without a selection. */
  function IngredientPercentage(r: Recipe, ingredients: Option<seq<Selection>>): (p: real)
    requires r.ingredients.Items?
    ensures 0.0 <= p <= 100.0
    ensures !NonEmpty(ingredients) ==> p == 50.0
    ensures NonEmpty(ingredients) ==>
      p == |MatchedSelections(ingredients.value, r.ingredients.items)| as real / |ingredients.value| as real * 100.0
  {
    if NonEmpty(ingredients) then
      var m := MatchedSelections(ingredients.value, r.ingredients.items);
      RatioBound(|m|, |ingredients.value|);
      (|m| as real / |ingredients.value| as real) * 100.0
    else 50.0
  }

  /** The cookware bonus: up to 20 points for the matched share of the selected cookware. */
  function CookwareBonus(r: Recipe, cookware: Option<seq<Selection>>): (b: real)
    ensures 0.0 <= b <= 20.0
    ensures !(r.required_cookware.Items? && NonEmpty(cookware)) ==> b == 0.0
    ensures r.required_cookware.Items? && NonEmpty(cookware) ==>
      b == |MatchedSelections(cookware.value, r.required_cookware.items)| as real / |cookware.value| as real * 20.0
  {
    if r.required_cookware.Items? && NonEmpty(cookware) then
      var m := MatchedSelections(cookware.value, r.required_cookware.items);
      RatioBound(|m|, |cookware.value|);
      (|m| as real / |cookware.value| as real) * 20.0
    else 0.0
  }

  /** The score `matchRecipes` attaches to one record. */
  function ScoreRecipe(r: Recipe, ingredients: Option<seq<Selection>>, cookware: Option<seq<Selection>>): (l: Listing)
    ensures l.Scored? && l.recipe == r
    ensures 0.0 <= l.score <= 120.0
    ensures !r.ingredients.Items? ==> l.score == 10.0 && l.matchedIngredients == [] && l.totalIngredients == 0
    ensures r.ingredients.Items? ==> l.totalIngredients == |r.ingredients.items|
    ensures r.ingredients.Items? ==>
      forall s :: s in l.matchedIngredients <==>
        ingredients.Some? && s in ingredients.value && AnyContains(r.ingredients.items, Lower(s.name))
    ensures r.ingredients.Items? ==>
      l.score == IngredientPercentage(r, ingredients) + CookwareBonus(r, cookware)
      && l.matchedIngredients == (if ingredients.Some? then MatchedSelections(ingredients.value, r.ingredients.items) else [])
  {
    if !r.ingredients.Items? then Scored(r, 10.0, [], 0)
    else
      var matched := if ingredients.Some? then MatchedSelections(ingredients.value, r.ingredients.items) else [];
      Scored(r, IngredientPercentage(r, ingredients) + CookwareBonus(r, cookware), matched, |r.ingredients.items|)
  }

  /** A recipe in which every selected ingredient and every selected cookware item occurs scores the maximum 120. */
  lemma ScoreFullMatch(r: Recipe, ingredients: seq<Selection>, cookware: seq<Selection>)
    requires r.ingredients.Items? && r.required_cookware.Items?
    requires |ingredients| > 0 && |cookware| > 0
    requires forall k :: 0 <= k < |ingredients| ==> AnyContains(r.ingredients.items, Lower(ingredients[k].name))
    requires forall k :: 0 <= k < |cookware| ==> AnyContains(r.required_cookware.items, Lower(cookware[k].name))
    ensures ScoreRecipe(r, Some(ingredients), Some(cookware)).score == 120.0
  {
    PercentageFull(r, ingredients);
    BonusFull(r, cookware);
  }

  lemma PercentageFull(r: Recipe, ingredients: seq<Selection>)
    requires r.ingredients.Items? && |ingredients| > 0
    requires forall k :: 0 <= k < |ingredients| ==> AnyContains(r.ingredients.items, Lower(ingredients[k].name))
    ensures IngredientPercentage(r, Some(ingredients)) == 100.0
  {
    MatchedAll(ingredients, r.ingredients.items);
    DivSelf(|ingredients| as real);
  }

  lemma BonusFull(r: Recipe, cookware: seq<Selection>)
    requires r.required_cookware.Items? && |cookware| > 0
    requires forall k :: 0 <= k < |cookware| ==> AnyContains(r.required_cookware.items, Lower(cookware[k].name))
    ensures CookwareBonus(r, Some(cookware)) == 20.0
  {
    MatchedAll(cookware, r.required_cookware.items);
    DivSelf(|cookware| as real);
  }

  /** A recipe that matches nothing scores 0 when ingredients are selected (cookware alone gives only the bonus). */
  lemma {:induction false} ScoreNoMatch(r: Recipe, ingredients: seq<Selection>)
    requires r.ingredients.Items?
    requires |ingredients| > 0
    requires forall k :: 0 <= k < |ingredients| ==> !AnyContains(r.ingredients.items, Lower(ingredients[k].name))
    ensures ScoreRecipe(r, Some(ingredients), None).score == 0.0
  {
    MatchedNone(ingredients, r.ingredients.items);
  }

  function Key(l: Listing): real {
    if l.Scored? then l.score else 0.0
  }

  /** Non-increasing by score. */
  predicate SortedByScore(xs: seq<Listing>) {
    forall i, j :: 0 <= i < j < |xs| ==> Key(xs[i]) >= Key(xs[j])
  }

  /** Places `x` after every entry scoring strictly more, before the rest. */
  function Insert(x: Listing, xs: seq<Listing>): (r: seq<Listing>)
    ensures multiset(r) == multiset(xs) + multiset{x}
    ensures |r| == |xs| + 1
    decreases |xs|
  {
    if xs == [] || Key(xs[0]) <= Key(x) then [x] + xs
    else
      assert xs == [xs[0]] + xs[1..];
      [xs[0]] + Insert(x, xs[1..])
  }

  /** `scored.sort((a, b) => b.score - a.score)`, a stable sort. */
  function SortByScore(xs: seq<Listing>): (r: seq<Listing>)
    ensures multiset(r) == multiset(xs)
    ensures |r| == |xs|
    decreases |xs|
  {
    if xs == [] then []
    else
      assert xs == [xs[0]] + xs[1..];
      Insert(xs[0], SortByScore(xs[1..]))
  }

  lemma {:induction false} InsertBounded(x: Listing, xs: seq<Listing>, b: real)
    requires Key(x) <= b
    requires forall i :: 0 <= i < |xs| ==> Key(xs[i]) <= b
    ensures forall i :: 0 <= i < |Insert(x, xs)| ==> Key(Insert(x, xs)[i]) <= b
    decreases |xs|
  {
    if xs != [] && Key(xs[0]) > Key(x) {
      InsertBounded(x, xs[1..], b);
    }
  }

  lemma {:induction false} InsertSorted(x: Listing, xs: seq<Listing>)
    requires SortedByScore(xs)
    ensures SortedByScore(Insert(x, xs))
    decreases |xs|
  {
    if xs != [] && Key(xs[0]) > Key(x) {
      InsertSorted(x, xs[1..]);
      InsertBounded(x, xs[1..], Key(xs[0]));
      var rest := Insert(x, xs[1..]);
      var r := Insert(x, xs);
      assert r == [xs[0]] + rest;
      forall i, j | 0 <= i < j < |r|
        ensures Key(r[i]) >= Key(r[j])
      {
        assert r[j] == rest[j - 1];
        if i > 0 {
          assert r[i] == rest[i - 1];
        }
      }
    }
  }

  /** The result of sorting is ordered by non-increasing score. */
  lemma {:induction false} SortByScoreSorted(xs: seq<Listing>)
    ensures SortedByScore(SortByScore(xs))
    decreases |xs|
  {
    if xs != [] {
      SortByScoreSorted(xs[1..]);
      InsertSorted(xs[0], SortByScore(xs[1..]));
    }
  }

  /** The entries with one given score, in order. */
  function WithScore(xs: seq<Listing>, k: real): (r: seq<Listing>)
    decreases |xs|
  {
    if xs == [] then []
    else if Key(xs[0]) == k then [xs[0]] + WithScore(xs[1..], k)
    else WithScore(xs[1..], k)
  }

  lemma {:induction false} WithScoreInsert(x: Listing, xs: seq<Listing>, k: real)
    ensures WithScore(Insert(x, xs), k) ==
      if Key(x) == k then [x] + WithScore(xs, k) else WithScore(xs, k)
    decreases |xs|
  {
    if xs != [] && Key(xs[0]) > Key(x) {
      WithScoreInsert(x, xs[1..], k);
      if Key(xs[0]) == k {
        assert Key(x) != k;
      }
    }
  }

  /**
   * The sort is stable: for every score, the entries with that score keep
   * their original relative order.
   */
  lemma {:induction false} SortByScoreStable(xs: seq<Listing>, k: real)
    ensures WithScore(SortByScore(xs), k) == WithScore(xs, k)
    decreases |xs|
  {
    if xs != [] {
      SortByScoreStable(xs[1..], k);
      WithScoreInsert(xs[0], SortByScore(xs[1..]), k);
    }
  }

  function ScoreAll(rs: seq<Recipe>, ingredients: Option<seq<Selection>>, cookware: Option<seq<Selection>>): (r: seq<Listing>)
    ensures |r| == |rs|
    ensures forall k :: 0 <= k < |rs| ==> r[k] == ScoreRecipe(rs[k], ingredients, cookware)
  {
    seq(|rs|, k requires 0 <= k < |rs| => ScoreRecipe(rs[k], ingredients, cookware))
  }

  function PlainAll(rs: seq<Recipe>): (r: seq<Listing>)
    ensures |r| == |rs|
    ensures forall k :: 0 <= k < |rs| ==> r[k] == Plain(rs[k])
  {
    seq(|rs|, k requires 0 <= k < |rs| => Plain(rs[k]))
  }

  predicate NoneOrEmpty(s: Option<seq<Selection>>) {
    s.None? || |s.value| == 0
  }

  /**
   * `matchRecipes(ingredients, cookware)`: with nothing selected, the whole
   * catalogue unscored; otherwise every record scored and sorted by score.
   * A failure falls back to the processed mock recipes (which may fail too).
   */
  function MatchRecipes(ingredients: Option<seq<Selection>>, cookware: Option<seq<Selection>>,
                        catalog: Catalog, uuid: nat -> string): Result<seq<Listing>>
  {
    match GetAllRecipes(catalog, uuid)
    case Ok(all) =>
      if NoneOrEmpty(ingredients) && NoneOrEmpty(cookware) then Ok(PlainAll(all))
      else Ok(SortByScore(ScoreAll(all, ingredients, cookware)))
    case Err(_) =>
      match ProcessAll(catalog.mock, uuid, 0)
      case Ok(rs) => Ok(PlainAll(rs))
      case Err(e) => Err(e)
  }

  /**
   * With a selection, the result holds every catalogue record exactly once,
   * scored, in non-increasing score order, ties in catalogue order.
   */
  lemma MatchRecipesRanks(ingredients: Option<seq<Selection>>, cookware: Option<seq<Selection>>,
                          catalog: Catalog, uuid: nat -> string, k: real)
    requires GetAllRecipes(catalog, uuid).Ok?
    requires !(NoneOrEmpty(ingredients) && NoneOrEmpty(cookware))
    ensures var all := GetAllRecipes(catalog, uuid).value;
      var r := MatchRecipes(ingredients, cookware, catalog, uuid);
      r.Ok?
      && multiset(r.value) == multiset(ScoreAll(all, ingredients, cookware))
      && SortedByScore(r.value)
      && WithScore(r.value, k) == WithScore(ScoreAll(all, ingredients, cookware), k)
      && (forall e :: e in r.value ==> e.Scored? && 0.0 <= e.score <= 120.0)
  {
    var all := GetAllRecipes(catalog, uuid).value;
    var scored := ScoreAll(all, ingredients, cookware);
    SortByScoreSorted(scored);
    SortByScoreStable(scored, k);
    forall e | e in SortByScore(scored)
      ensures e.Scored? && 0.0 <= e.score <= 120.0
    {
      assert e in multiset(SortByScore(scored));
      assert e in multiset(scored);
    }
  }

  /** With nothing selected, matching returns the catalogue unchanged and unscored. */
  lemma MatchRecipesWithoutSelection(ingredients: Option<seq<Selection>>, cookware: Option<seq<Selection>>,
                                     catalog: Catalog, uuid: nat -> string)
    requires NoneOrEmpty(ingredients) && NoneOrEmpty(cookware)
    requires GetAllRecipes(catalog, uuid).Ok?
    ensures MatchRecipes(ingredients, cookware, catalog, uuid) == Ok(PlainAll(GetAllRecipes(catalog, uuid).value))
  {
  }

  /** An item of the ingredient list that mentions the (lower-cased) query. */
  predicate ItemHit(item: Item, query: string) {
    match item
    case Text(s) => Contains(Lower(s), query)
    case Named(n) => n != "" && Contains(Lower(n), query)
    case Nullish => false
  }

  predicate AnyItemHit(items: seq<Item>, query: string)
    decreases |items|
  {
    items != [] && (ItemHit(items[0], query) || AnyItemHit(items[1..], query))
  }

  /** The search predicate: name, title, description or an ingredient mentions the query. */
  predicate QueryHit(r: Recipe, query: string) {
    (r.name != "" && Contains(Lower(r.name), query))
    || (r.title != "" && Contains(Lower(r.title), query))
    || (r.description != "" && Contains(Lower(r.description), query))
    || (r.ingredients.Items? && AnyItemHit(r.ingredients.items, query))
  }

  function FilterHits(rs: seq<Recipe>, query: string): (r: seq<Recipe>)
    ensures |r| <= |rs|
    ensures forall x :: x in r <==> x in rs && QueryHit(x, query)
    decreases |rs|
  {
    if rs == [] then []
    else if QueryHit(rs[0], query) then [rs[0]] + FilterHits(rs[1..], query)
    else FilterHits(rs[1..], query)
  }

  /** The search filter's verdict on each record. */
  function HitFlags(rs: seq<Recipe>, query: string): (f: seq<bool>)
    ensures |f| == |rs| && forall j :: 0 <= j < |rs| ==> f[j] == QueryHit(rs[j], query)
  {
    seq(|rs|, j requires 0 <= j < |rs| => QueryHit(rs[j], query))
  }

  lemma {:induction false} FilterHitsIsKeep(rs: seq<Recipe>, query: string)
    ensures FilterHits(rs, query) == Keep(rs, HitFlags(rs, query))
    decreases |rs|
  {
    if rs != [] {
      FilterHitsIsKeep(rs[1..], query);
      assert HitFlags(rs, query)[1..] == HitFlags(rs[1..], query);
    }
  }

  /**
   * `filter` keeps catalogue order and multiplicity: the hits are the
   * catalogue at strictly increasing positions `idx`, which are exactly the
   * positions of the records the query hits.
   */
  lemma FilterHitsInOrder(rs: seq<Recipe>, query: string) returns (idx: seq<nat>)
    ensures var r := FilterHits(rs, query);
      |idx| == |r|
      && (forall k :: 0 <= k < |idx| ==> idx[k] < |rs| && r[k] == rs[idx[k]])
      && (forall a, b :: 0 <= a < b < |idx| ==> idx[a] < idx[b])
      && (forall j :: 0 <= j < |rs| ==> (j in idx <==> QueryHit(rs[j], query)))
  {
    FilterHitsIsKeep(rs, query);
    idx := KeepInOrder(rs, HitFlags(rs, query));
  }

  /**
   * `searchRecipes(query)`: an empty or blank query returns the catalogue;
   * otherwise the records the lower-cased (untrimmed) query hits, processed
   * again. Any failure returns the empty list.
   */
  function SearchRecipes(query: string, catalog: Catalog, uuid: nat -> string): seq<Recipe> {
    match GetAllRecipes(catalog, uuid)
    case Err(_) => []
    case Ok(all) =>
      if query == "" || Trim(query) == "" then all
      else
        match ProcessAll(FilterHits(all, Lower(query)), uuid, 0)
        case Ok(rs) => rs
        case Err(_) => []
  }

  /**
   * Search returns exactly the catalogue records the query hits, in catalogue
   * order; a blank query returns all of them.
   */
  lemma SearchRecipesFilters(query: string, catalog: Catalog, uuid: nat -> string)
    requires GetAllRecipes(catalog, uuid).Ok?
    ensures var all := GetAllRecipes(catalog, uuid).value;
      (AllSpace(query) ==> SearchRecipes(query, catalog, uuid) == all)
      && (!AllSpace(query) ==> SearchRecipes(query, catalog, uuid) == FilterHits(all, Lower(query)))
      && (forall x :: x in SearchRecipes(query, catalog, uuid) ==> x in all)
  {
    var all := GetAllRecipes(catalog, uuid).value;
    if !AllSpace(query) {
      var hits := FilterHits(all, Lower(query));
      forall k | 0 <= k < |hits|
        ensures Stable(hits[k])
      {
        assert hits[k] in all;
      }
      ProcessAllStable(hits, uuid, 0);
    }
  }

  /**
   * Search keeps catalogue order and multiplicity: its result is the
   * catalogue at strictly increasing positions, which are every position for
   * a blank query and exactly those of the hits otherwise.
   */
  lemma SearchRecipesInOrder(query: string, catalog: Catalog, uuid: nat -> string) returns (idx: seq<nat>)
    requires GetAllRecipes(catalog, uuid).Ok?
    ensures var all := GetAllRecipes(catalog, uuid).value; var r := SearchRecipes(query, catalog, uuid);
      |idx| == |r|
      && (forall k :: 0 <= k < |idx| ==> idx[k] < |all| && r[k] == all[idx[k]])
      && (forall a, b :: 0 <= a < b < |idx| ==> idx[a] < idx[b])
      && (forall j :: 0 <= j < |all| ==> (j in idx <==> AllSpace(query) || QueryHit(all[j], Lower(query))))
  {
    var all := GetAllRecipes(catalog, uuid).value;
    SearchRecipesFilters(query, catalog, uuid);
    if AllSpace(query) {
      idx := seq(|all|, k requires 0 <= k < |all| => k);
      forall j | 0 <= j < |all|
        ensures j in idx
      {
        assert idx[j] == j;
      }
    } else {
      idx := FilterHitsInOrder(all, Lower(query));
    }
  }
}
