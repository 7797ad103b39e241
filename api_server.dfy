/**
 * The Express server's own logic: the three-level tagging of imported
 * records (`generateDetailedTags`), the mapping of each parsed CSV record in
 * `/api/import-recipes`, and the empty-selection rule of `/api/recipes/match`.
 * Every list column reaches the tagger as comma-split strings, so the tagger
 * sees only string elements.
 */
module ApiServer {
  import opened Wrappers
  import opened Strings
  import opened Records
  import opened Taxonomy
  import opened TagTables
  import RecipeService

  // ---------------------------------------------------------------------
  // generateDetailedTags
  // ---------------------------------------------------------------------

  /** After the protein tags. */
  function ProteinStage(proteinTags: seq<string>): Tags {
    TagPass(NoTags, Protein, StandardProtein, TextItems(proteinTags), true)
  }

  /** After the veggie tags. */
  function VeggieStage(proteinTags: seq<string>, veggieTags: seq<string>): Tags {
    TagPass(ProteinStage(proteinTags), Veggie, Veggies, TextItems(veggieTags), true)
  }

  /** After the ingredients. */
  function IngredientStage(proteinTags: seq<string>, veggieTags: seq<string>, ingredients: seq<string>): Tags {
    IngredientsPass(VeggieStage(proteinTags, veggieTags), StandardRows, TextItems(ingredients), ByVariety(true))
  }

  /**
   * The eighteen arrays `generateDetailedTags` returns: protein tags, veggie
   * tags, then every ingredient against every row, then the required cookware;
   * every push guarded by `includes`, both sides lower-cased.
   */
  function DetailedTags(proteinTags: seq<string>, veggieTags: seq<string>, ingredients: seq<string>,
                        requiredCookware: seq<string>): Tags {
    KeyedPass(IngredientStage(proteinTags, veggieTags, ingredients), PlainCookwareKeys, TextItems(requiredCookware),
              false, true, true)
  }

  /** `generateDetailedTags(proteinTags, veggieTags, herbTags, ingredients, requiredCookware)`: `herbTags` is never read. */
  method GenerateDetailedTags(proteinTags: seq<string>, veggieTags: seq<string>, herbTags: seq<string>,
                              ingredients: seq<string>, requiredCookware: seq<string>) returns (r: Tags)
    ensures r == DetailedTags(proteinTags, veggieTags, ingredients, requiredCookware)
  {
    r := NoTags;
    r := ProcessTags(r, Protein, StandardProtein, TextItems(proteinTags), true);
    r := ProcessTags(r, Veggie, Veggies, TextItems(veggieTags), true);
    r := ScanIngredients(r, StandardRows, TextItems(ingredients), ByVariety(true));
    r := ScanKeyed(r, PlainCookwareKeys, TextItems(requiredCookware), false, true, true);
  }

  /** Every later stage only adds to the arrays of an earlier one. */
  lemma StagesGrow(proteinTags: seq<string>, veggieTags: seq<string>, ingredients: seq<string>, requiredCookware: seq<string>)
    ensures var r := DetailedTags(proteinTags, veggieTags, ingredients, requiredCookware);
      Grows(ProteinStage(proteinTags), r) && Grows(VeggieStage(proteinTags, veggieTags), r)
      && Grows(IngredientStage(proteinTags, veggieTags, ingredients), r)
  {
    var s1 := ProteinStage(proteinTags);
    var s2 := VeggieStage(proteinTags, veggieTags);
    var s3 := IngredientStage(proteinTags, veggieTags, ingredients);
    var r := DetailedTags(proteinTags, veggieTags, ingredients, requiredCookware);
    TagPassFacts(s1, Veggie, Veggies, TextItems(veggieTags), true);
    IngredientsPassFacts(s2, StandardRows, TextItems(ingredients), ByVariety(true));
    KeyedPassFacts(s3, PlainCookwareKeys, TextItems(requiredCookware), false, true, true);
    Grows3(s2, s3, r);
    Grows3(s1, s2, r);
  }

  /** Every one of the eighteen arrays is free of duplicates. */
  lemma DetailedTagsDistinct(proteinTags: seq<string>, veggieTags: seq<string>, ingredients: seq<string>,
                             requiredCookware: seq<string>)
    ensures AllDistinct(DetailedTags(proteinTags, veggieTags, ingredients, requiredCookware))
  {
    NoTagsDistinct();
    TagPassFacts(NoTags, Protein, StandardProtein, TextItems(proteinTags), true);
    TagPassFacts(ProteinStage(proteinTags), Veggie, Veggies, TextItems(veggieTags), true);
    IngredientsPassFacts(VeggieStage(proteinTags, veggieTags), StandardRows, TextItems(ingredients), ByVariety(true));
    KeyedPassFacts(IngredientStage(proteinTags, veggieTags, ingredients), PlainCookwareKeys, TextItems(requiredCookware),
                   false, true, true);
  }

  /**
   * A protein tag records 'protein', the first protein type it names and the
   * first cut of that type it names.
   */
  lemma ProteinTagRecorded(proteinTags: seq<string>, veggieTags: seq<string>, ingredients: seq<string>,
                           requiredCookware: seq<string>, i: nat)
    requires i < |proteinTags|
    ensures var r := DetailedTags(proteinTags, veggieTags, ingredients, requiredCookware);
      var k := TypeOfTag(StandardProtein, Text(proteinTags[i]));
      "protein" in Get(r, Slot(Protein, Category))
      && (k >= 0 ==> StandardProtein[k].name in Get(r, Slot(Protein, Kind)))
      && (k >= 0 && VarietyOfTag(StandardProtein, k, Text(proteinTags[i])) >= 0 ==>
            StandardProtein[k].varieties[VarietyOfTag(StandardProtein, k, Text(proteinTags[i]))] in Get(r, Slot(Protein, Variety)))
  {
    var items := TextItems(proteinTags);
    TagPassRecordsEachTag(NoTags, Protein, StandardProtein, items, true, i);
    StagesGrow(proteinTags, veggieTags, ingredients, requiredCookware);
    var s1 := ProteinStage(proteinTags);
    var r := DetailedTags(proteinTags, veggieTags, ingredients, requiredCookware);
    GrowsIn(s1, r, Slot(Protein, Category), "protein");
    var k := TypeOfTag(StandardProtein, items[i]);
    if k >= 0 {
      GrowsIn(s1, r, Slot(Protein, Kind), StandardProtein[k].name);
      var c := VarietyOfTag(StandardProtein, k, items[i]);
      if c >= 0 {
        GrowsIn(s1, r, Slot(Protein, Variety), StandardProtein[k].varieties[c]);
      }
    }
  }

  /** The same for a veggie tag. */
  lemma VeggieTagRecorded(proteinTags: seq<string>, veggieTags: seq<string>, ingredients: seq<string>,
                          requiredCookware: seq<string>, i: nat)
    requires i < |veggieTags|
    ensures var r := DetailedTags(proteinTags, veggieTags, ingredients, requiredCookware);
      var k := TypeOfTag(Veggies, Text(veggieTags[i]));
      "veggies" in Get(r, Slot(Veggie, Category))
      && (k >= 0 ==> Veggies[k].name in Get(r, Slot(Veggie, Kind)))
      && (k >= 0 && VarietyOfTag(Veggies, k, Text(veggieTags[i])) >= 0 ==>
            Veggies[k].varieties[VarietyOfTag(Veggies, k, Text(veggieTags[i]))] in Get(r, Slot(Veggie, Variety)))
  {
    var items := TextItems(veggieTags);
    TagPassRecordsEachTag(ProteinStage(proteinTags), Veggie, Veggies, items, true, i);
    StagesGrow(proteinTags, veggieTags, ingredients, requiredCookware);
    var s2 := VeggieStage(proteinTags, veggieTags);
    var r := DetailedTags(proteinTags, veggieTags, ingredients, requiredCookware);
    GrowsIn(s2, r, Slot(Veggie, Category), "veggies");
    var k := TypeOfTag(Veggies, items[i]);
    if k >= 0 {
      GrowsIn(s2, r, Slot(Veggie, Kind), Veggies[k].name);
      var c := VarietyOfTag(Veggies, k, items[i]);
      if c >= 0 {
        GrowsIn(s2, r, Slot(Veggie, Variety), Veggies[k].varieties[c]);
      }
    }
  }

  /**
   * For every ingredient and every row (of any category, cookware included)
   * one of whose varieties the ingredient contains, the category, the type and
   * the first such variety are recorded; the other types are still checked.
   */
  lemma IngredientRowRecorded(proteinTags: seq<string>, veggieTags: seq<string>, ingredients: seq<string>,
                              requiredCookware: seq<string>, i: nat, j: nat)
    requires i < |ingredients| && j < |StandardRows|
    requires RowMatches(StandardRows[j], Lower(ingredients[i]), ByVariety(true))
    ensures var r := DetailedTags(proteinTags, veggieTags, ingredients, requiredCookware);
      var row := StandardRows[j];
      var c := RowVariety(row, Lower(ingredients[i]), ByVariety(true));
      GroupName(row.group) in Get(r, Slot(row.group, Category)) && row.name in Get(r, Slot(row.group, Kind))
      && c >= 0 && row.varieties[c] in Get(r, Slot(row.group, Variety))
  {
    var items := TextItems(ingredients);
    IngredientsPassTagsEveryMatch(VeggieStage(proteinTags, veggieTags), StandardRows, items, ByVariety(true), i, j);
    StagesGrow(proteinTags, veggieTags, ingredients, requiredCookware);
    var s3 := IngredientStage(proteinTags, veggieTags, ingredients);
    var r := DetailedTags(proteinTags, veggieTags, ingredients, requiredCookware);
    var row := StandardRows[j];
    var c := RowVariety(row, Lower(ingredients[i]), ByVariety(true));
    GrowsIn(s3, r, Slot(row.group, Category), GroupName(row.group));
    GrowsIn(s3, r, Slot(row.group, Kind), row.name);
    GrowsIn(s3, r, Slot(row.group, Variety), row.varieties[c]);
  }

  /**
   * A required-cookware item that contains a cookware type name records
   * 'cookware', the first such type and that type's first contained variety.
   */
  lemma CookwareItemRecorded(proteinTags: seq<string>, veggieTags: seq<string>, ingredients: seq<string>,
                             requiredCookware: seq<string>, i: nat)
    requires i < |requiredCookware|
    ensures var r := DetailedTags(proteinTags, veggieTags, ingredients, requiredCookware);
      var k := KeyOfItem(PlainCookwareKeys, Text(requiredCookware[i]), true);
      var keys := PlainCookwareKeys;
      (k >= 0 ==> "cookware" in Get(r, Slot(Cookware, Category)) && keys[k].name in Get(r, Slot(Cookware, Kind)))
      && (k >= 0 && FirstContained(keys[k].varieties, Lower(requiredCookware[i]), true) >= 0 ==>
            keys[k].varieties[FirstContained(keys[k].varieties, Lower(requiredCookware[i]), true)] in Get(r, Slot(Cookware, Variety)))
  {
    var items := TextItems(requiredCookware);
    var keys := PlainCookwareKeys;
    var s3 := IngredientStage(proteinTags, veggieTags, ingredients);
    assert items[i] == Text(requiredCookware[i]);
    KeyedPassTagsEachItem(s3, keys, items, false, true, true, i);
    var r := DetailedTags(proteinTags, veggieTags, ingredients, requiredCookware);
    assert r == KeyedPass(s3, keys, items, false, true, true);
    var k := KeyOfItem(keys, items[i], true);
    CookwareName();
  }

  lemma CookwareName()
    ensures GroupName(Cookware) == "cookware"
  {
  }

  /** Required cookware naming no type adds nothing: the arrays are those the ingredients left. */
  lemma UnmatchedCookwareAddsNothing(proteinTags: seq<string>, veggieTags: seq<string>, ingredients: seq<string>,
                                     requiredCookware: seq<string>)
    requires forall i :: 0 <= i < |requiredCookware| ==> KeyOfItem(PlainCookwareKeys, Text(requiredCookware[i]), true) < 0
    ensures DetailedTags(proteinTags, veggieTags, ingredients, requiredCookware)
         == IngredientStage(proteinTags, veggieTags, ingredients)
  {
    KeyedPassUnmatched(IngredientStage(proteinTags, veggieTags, ingredients), PlainCookwareKeys,
                       TextItems(requiredCookware), false, true, true);
  }

  // ---------------------------------------------------------------------
  // the record mapping of /api/import-recipes
  // ---------------------------------------------------------------------

  /** A parsed CSV record: every column is a string, a missing column "". */
  datatype CsvRecord = CsvRecord(
    name: string, title: string, description: string, image_url: string, image: string,
    ingredients: string, steps: string, cook_time: string, prep_time: string, servings: string,
    required_cookware: string, protein_tags: string, veggie_tags: string, herb_tags: string,
    cuisine_type: string)

  /** The object handed to the import, its detailed tags spread in. */
  datatype ImportedRecipe = ImportedRecipe(
    name: string, description: string, image_url: string, ingredients: seq<string>, steps: seq<string>,
    cook_time: string, prep_time: string, servings: string, required_cookware: seq<string>,
    protein_tags: seq<string>, veggie_tags: seq<string>, herb_tags: seq<string>, cuisine_type: string,
    tags: Tags)

  /** `s ? s.split(',').map(item => item.trim()) : []`. */
  function CsvList(s: string): (r: seq<string>)
    ensures s == "" ==> r == []
    ensures s != "" ==> |r| == |Split(s, ',')|
    ensures forall k :: 0 <= k < |r| ==> r[k] == Trim(Split(s, ',')[k])
  {
    if s == "" then [] else SplitTrim(s)
  }

  /** No piece holds a comma or starts or ends in white space; a comma-free trimmed column is one piece. */
  lemma CsvListPieces(s: string)
    ensures forall k :: 0 <= k < |CsvList(s)| ==> ',' !in CsvList(s)[k]
    ensures forall k :: 0 <= k < |CsvList(s)| && CsvList(s)[k] != "" ==>
      !IsSpace(CsvList(s)[k][0]) && !IsSpace(CsvList(s)[k][|CsvList(s)[k]| - 1])
    ensures s != "" && ',' !in s && !IsSpace(s[0]) && !IsSpace(s[|s| - 1]) ==> CsvList(s) == [s]
  {
    SplitPiecesAvoidSeparator(s, ',');
    forall k | 0 <= k < |CsvList(s)|
      ensures ',' !in CsvList(s)[k]
    {
      TrimKeepsOut(Split(s, ',')[k], ',');
    }
    if s != "" && ',' !in s && !IsSpace(s[0]) && !IsSpace(s[|s| - 1]) {
      SplitWithoutSeparator(s, ',');
      assert TrimStart(s) == s;
      assert TrimEnd(s) == s;
    }
  }

  function ImportRecord(rec: CsvRecord): ImportedRecipe {
    var ingredients := CsvList(rec.ingredients);
    var required_cookware := CsvList(rec.required_cookware);
    var protein_tags := CsvList(rec.protein_tags);
    var veggie_tags := CsvList(rec.veggie_tags);
    ImportedRecipe(
      OrElse(rec.name, OrElse(rec.title, "")), rec.description, OrElse(rec.image_url, rec.image),
      ingredients, CsvList(rec.steps), rec.cook_time, rec.prep_time, rec.servings, required_cookware,
      protein_tags, veggie_tags, CsvList(rec.herb_tags), rec.cuisine_type,
      DetailedTags(protein_tags, veggie_tags, ingredients, required_cookware))
  }

  /**
   * The name falls back from `name` to `title` to "", the image from
   * `image_url` to `image`; an empty list column gives []; the tags are those
   * of the mapped lists and free of duplicates.
   */
  lemma ImportRecordFields(rec: CsvRecord)
    ensures var r := ImportRecord(rec);
      (rec.name != "" ==> r.name == rec.name)
      && (rec.name == "" ==> r.name == rec.title)
      && (r.name == "" <==> rec.name == "" && rec.title == "")
      && (rec.image_url != "" ==> r.image_url == rec.image_url)
      && (rec.image_url == "" ==> r.image_url == rec.image)
      && (rec.ingredients == "" ==> r.ingredients == [])
      && (rec.required_cookware == "" ==> r.required_cookware == [])
      && r.description == rec.description && r.cuisine_type == rec.cuisine_type
      && AllDistinct(r.tags)
  {
    DetailedTagsDistinct(CsvList(rec.protein_tags), CsvList(rec.veggie_tags), CsvList(rec.ingredients),
                         CsvList(rec.required_cookware));
  }

  /** `records.map(record => …)`. */
  function ImportRecords(records: seq<CsvRecord>): (r: seq<ImportedRecipe>)
    ensures |r| == |records|
    ensures forall k :: 0 <= k < |records| ==> r[k] == ImportRecord(records[k])
  {
    seq(|records|, k requires 0 <= k < |records| => ImportRecord(records[k]))
  }

  // ---------------------------------------------------------------------
  // /api/recipes/match
  // ---------------------------------------------------------------------

  /** What the route answers: the JSON list, or status 500 with the error message. */
  datatype Reply = Json(listings: seq<RecipeService.Listing>) | ServerError(message: string)

  function ReplyOf(r: Result<seq<RecipeService.Listing>>): Reply {
    match r
    case Ok(xs) => Json(xs)
    case Err(e) => ServerError(e)
  }

  /** With both selections empty or missing, all recipes; otherwise the service's matching. */
  function MatchRoute(ingredients: Option<seq<RecipeService.Selection>>, cookware: Option<seq<RecipeService.Selection>>,
                      catalog: RecipeService.Catalog, uuid: nat -> string): Reply
  {
    if RecipeService.NoneOrEmpty(ingredients) && RecipeService.NoneOrEmpty(cookware) then
      match RecipeService.GetAllRecipes(catalog, uuid)
      case Ok(all) => Json(RecipeService.PlainAll(all))
      case Err(e) => ServerError(e)
    else ReplyOf(RecipeService.MatchRecipes(ingredients, cookware, catalog, uuid))
  }

  /**
   * An empty selection answers with every recipe, not an empty list; and the
   * route's own shortcut answers exactly what `matchRecipes` would have.
   */
  lemma MatchRouteWithoutSelection(ingredients: Option<seq<RecipeService.Selection>>,
                                   cookware: Option<seq<RecipeService.Selection>>,
                                   catalog: RecipeService.Catalog, uuid: nat -> string)
    requires RecipeService.NoneOrEmpty(ingredients) && RecipeService.NoneOrEmpty(cookware)
    requires RecipeService.GetAllRecipes(catalog, uuid).Ok?
    ensures var all := RecipeService.GetAllRecipes(catalog, uuid).value;
      MatchRoute(ingredients, cookware, catalog, uuid) == Json(RecipeService.PlainAll(all))
      && |MatchRoute(ingredients, cookware, catalog, uuid).listings| == |all|
    ensures MatchRoute(ingredients, cookware, catalog, uuid)
         == ReplyOf(RecipeService.MatchRecipes(ingredients, cookware, catalog, uuid))
  {
  }

  /** A failure of the catalogue is a 500 whichever path the route takes. */
  lemma MatchRouteAgrees(ingredients: Option<seq<RecipeService.Selection>>,
                         cookware: Option<seq<RecipeService.Selection>>,
                         catalog: RecipeService.Catalog, uuid: nat -> string)
    ensures MatchRoute(ingredients, cookware, catalog, uuid).ServerError?
        <==> RecipeService.MatchRecipes(ingredients, cookware, catalog, uuid).Err?
    ensures MatchRoute(ingredients, cookware, catalog, uuid).Json? ==>
      MatchRoute(ingredients, cookware, catalog, uuid).listings
        == RecipeService.MatchRecipes(ingredients, cookware, catalog, uuid).value
  {
    if RecipeService.NoneOrEmpty(ingredients) && RecipeService.NoneOrEmpty(cookware)
       && RecipeService.GetAllRecipes(catalog, uuid).Err? {
      assert RecipeService.ProcessAll(catalog.mock, uuid, 0).Err?;
    }
  }
}
