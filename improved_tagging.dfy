/**
 * `archive/update-recipe-tags-improved.js`: ingredients are matched by type
 * name over the food rows, cookware by the shorter keyword chain, then the
 * protein and veggie tags; every push is guarded, so the final
 * deduplication changes nothing. All recipes are upserted in batches of ten.
 */
module ImprovedTagging {
  import opened Strings
  import opened Records
  import opened Taxonomy
  import opened TagTables
  import opened Batching

  /** The tables the analysis consults. */
  datatype Tables = Tables(proteins: seq<Row>, veggies: seq<Row>, rows: seq<Row>, keys: seq<Keyed>)

  /** `ingredientTagStructure` in declaration order, and the script's cookware keys. */
  const Script: Tables :=
    Tables(RevisedProtein, Veggies, RevisedProtein + Veggies + StandardPantry + StandardDairy + StandardFruit, ShortCookwareKeys)

  const BatchSize: nat := 10

  /** The arrays before deduplication: ingredients, cookware, protein tags, veggie tags. */
  function RawTags(rec: RecipeRow, tb: Tables): Tags {
    var t1 := IngredientsPass(NoTags, tb.rows, ArrayItems(rec.ingredients), ByType);
    var t2 := KeyedPass(t1, tb.keys, ArrayItems(rec.required_cookware), true, true, false);
    var t3 := TagPass(t2, Protein, tb.proteins, ArrayItems(rec.protein_tags), true);
    TagPass(t3, Veggie, tb.veggies, ArrayItems(rec.veggie_tags), true)
  }

  /** With every push guarded, no array of the raw result repeats an entry. */
  lemma RawTagsDistinct(rec: RecipeRow, tb: Tables)
    ensures AllDistinct(RawTags(rec, tb))
  {
    NoTagsDistinct();
    var t1 := IngredientsPass(NoTags, tb.rows, ArrayItems(rec.ingredients), ByType);
    IngredientsPassFacts(NoTags, tb.rows, ArrayItems(rec.ingredients), ByType);
    var t2 := KeyedPass(t1, tb.keys, ArrayItems(rec.required_cookware), true, true, false);
    KeyedPassFacts(t1, tb.keys, ArrayItems(rec.required_cookware), true, true, false);
    var t3 := TagPass(t2, Protein, tb.proteins, ArrayItems(rec.protein_tags), true);
    TagPassFacts(t2, Protein, tb.proteins, ArrayItems(rec.protein_tags), true);
    TagPassFacts(t3, Veggie, tb.veggies, ArrayItems(rec.veggie_tags), true);
  }

  /** `analyzeRecipeIngredients`: the final `new Set` pass leaves every array exactly as pushed. */
  method AnalyzeRecipeIngredients(rec: RecipeRow, tb: Tables) returns (r: Tags)
    ensures forall s :: Get(r, s) == Get(RawTags(rec, tb), s)
    ensures AllDistinct(r)
  {
    var t := ScanIngredients(NoTags, tb.rows, ArrayItems(rec.ingredients), ByType);
    t := ScanKeyed(t, tb.keys, ArrayItems(rec.required_cookware), true, true, false);
    t := ProcessTags(t, Protein, tb.proteins, ArrayItems(rec.protein_tags), true);
    t := ProcessTags(t, Veggie, tb.veggies, ArrayItems(rec.veggie_tags), true);
    r := DedupAll(t);
    RawTagsDistinct(rec, tb);
    forall s
      ensures Get(r, s) == Get(RawTags(rec, tb), s)
    {
      DedupDistinct(Get(t, s));
    }
  }

  /** An ingredient containing a type name leaves that group, the type and its first variety in the result. */
  lemma IngredientRecorded(rec: RecipeRow, tb: Tables, i: nat, j: nat)
    requires i < |ArrayItems(rec.ingredients)| && ArrayItems(rec.ingredients)[i].Text?
    requires j < |tb.rows| && Contains(Lower(ArrayItems(rec.ingredients)[i].s), tb.rows[j].name)
    ensures var r := RawTags(rec, tb);
      var g := tb.rows[j].group;
      var c := RowVariety(tb.rows[j], Lower(ArrayItems(rec.ingredients)[i].s), ByType);
      GroupName(g) in Get(r, Slot(g, Category)) && tb.rows[j].name in Get(r, Slot(g, Kind))
      && (c >= 0 ==> tb.rows[j].varieties[c] in Get(r, Slot(g, Variety)))
  {
    var items := ArrayItems(rec.ingredients);
    var t1 := IngredientsPass(NoTags, tb.rows, items, ByType);
    var t2 := KeyedPass(t1, tb.keys, ArrayItems(rec.required_cookware), true, true, false);
    var t3 := TagPass(t2, Protein, tb.proteins, ArrayItems(rec.protein_tags), true);
    var r := RawTags(rec, tb);
    IngredientsPassTagsEveryMatch(NoTags, tb.rows, items, ByType, i, j);
    KeyedPassFacts(t1, tb.keys, ArrayItems(rec.required_cookware), true, true, false);
    TagPassFacts(t2, Protein, tb.proteins, ArrayItems(rec.protein_tags), true);
    TagPassFacts(t3, Veggie, tb.veggies, ArrayItems(rec.veggie_tags), true);
    Grows3(t1, t2, t3);
    Grows3(t1, t3, r);
    var g := tb.rows[j].group;
    GrowsIn(t1, r, Slot(g, Category), GroupName(g));
    GrowsIn(t1, r, Slot(g, Kind), tb.rows[j].name);
    var c := RowVariety(tb.rows[j], Lower(items[i].s), ByType);
    if c >= 0 {
      GrowsIn(t1, r, Slot(g, Variety), tb.rows[j].varieties[c]);
    }
  }

  /**
   * Only a contained type name tags an ingredient: one that contains no row's
   * type name (or is not a string) can be dropped from the recipe without
   * changing any array.
   */
  lemma UnmatchedIngredientIgnored(rec: RecipeRow, tb: Tables, i: nat)
    requires rec.ingredients.Items? && i < |rec.ingredients.items|
    requires var item := rec.ingredients.items[i];
      item.Text? ==> forall j :: 0 <= j < |tb.rows| ==> !Contains(Lower(item.s), tb.rows[j].name)
    ensures var items := rec.ingredients.items;
      RawTags(rec, tb) == RawTags(rec.(ingredients := Items(items[..i] + items[i + 1..])), tb)
  {
    IngredientsPassSkipsUnmatched(NoTags, tb.rows, rec.ingredients.items, ByType, i);
  }

  /** Each string cookware item adds 'cookware', and the type it is recognised as with that type's first variety. */
  lemma CookwareRecorded(rec: RecipeRow, tb: Tables, i: nat)
    requires i < |ArrayItems(rec.required_cookware)| && ArrayItems(rec.required_cookware)[i].Text?
    ensures var r := RawTags(rec, tb);
      var item := ArrayItems(rec.required_cookware)[i];
      var k := KeyOfItem(tb.keys, item, false);
      "cookware" in Get(r, Slot(Cookware, Category))
      && (k >= 0 ==> tb.keys[k].name in Get(r, Slot(Cookware, Kind)))
      && (k >= 0 && FirstContained(tb.keys[k].varieties, Lower(item.s), false) >= 0 ==>
            tb.keys[k].varieties[FirstContained(tb.keys[k].varieties, Lower(item.s), false)] in Get(r, Slot(Cookware, Variety)))
  {
    var items := ArrayItems(rec.required_cookware);
    var t1 := IngredientsPass(NoTags, tb.rows, ArrayItems(rec.ingredients), ByType);
    var t2 := KeyedPass(t1, tb.keys, items, true, true, false);
    var t3 := TagPass(t2, Protein, tb.proteins, ArrayItems(rec.protein_tags), true);
    var r := RawTags(rec, tb);
    KeyedPassTagsEachItem(t1, tb.keys, items, true, true, false, i);
    TagPassFacts(t2, Protein, tb.proteins, ArrayItems(rec.protein_tags), true);
    TagPassFacts(t3, Veggie, tb.veggies, ArrayItems(rec.veggie_tags), true);
    CookwareName();
    forall s: Slot | s.group == Cookware
      ensures Get(r, s) == Get(t2, s)
    {
    }
  }

  lemma CookwareName()
    ensures GroupName(Cookware) == "cookware"
  {
  }

  /** Each protein tag, string or not, adds 'protein'; one naming a type adds the type and its first cut named. */
  lemma ProteinTagRecorded(rec: RecipeRow, tb: Tables, i: nat)
    requires i < |ArrayItems(rec.protein_tags)|
    ensures var r := RawTags(rec, tb);
      var tag := ArrayItems(rec.protein_tags)[i];
      var k := TypeOfTag(tb.proteins, tag);
      GroupName(Protein) in Get(r, Slot(Protein, Category))
      && (k >= 0 ==> tb.proteins[k].name in Get(r, Slot(Protein, Kind)))
      && (k >= 0 && VarietyOfTag(tb.proteins, k, tag) >= 0 ==>
            tb.proteins[k].varieties[VarietyOfTag(tb.proteins, k, tag)] in Get(r, Slot(Protein, Variety)))
  {
    var t1 := IngredientsPass(NoTags, tb.rows, ArrayItems(rec.ingredients), ByType);
    var t2 := KeyedPass(t1, tb.keys, ArrayItems(rec.required_cookware), true, true, false);
    var t3 := TagPass(t2, Protein, tb.proteins, ArrayItems(rec.protein_tags), true);
    TagPassRecordsEachTag(t2, Protein, tb.proteins, ArrayItems(rec.protein_tags), true, i);
    TagPassFacts(t3, Veggie, tb.veggies, ArrayItems(rec.veggie_tags), true);
  }

  // ---------------------------------------------------------------------
  // the upsert: every recipe, in batches of ten
  // ---------------------------------------------------------------------

  datatype Update = Update(id: string, tags: Tags)

  /** Update `k` carries recipe `k`'s id and its analysed arrays. */
  ghost predicate UpdatesFor(ups: seq<Update>, recipes: seq<RecipeRow>, tb: Tables) {
    |ups| == |recipes|
    && forall k :: 0 <= k < |ups| ==> ups[k].id == recipes[k].id && forall s :: Get(ups[k].tags, s) == Get(RawTags(recipes[k], tb), s)
  }

  lemma UpdatesForSnoc(ups: seq<Update>, recipes: seq<RecipeRow>, tb: Tables, i: nat, u: Update)
    requires i < |recipes| && UpdatesFor(ups, recipes[..i], tb)
    requires u.id == recipes[i].id && forall s :: Get(u.tags, s) == Get(RawTags(recipes[i], tb), s)
    ensures UpdatesFor(ups + [u], recipes[..i + 1], tb)
  {
    var pre := recipes[..i + 1];
    var ext := ups + [u];
    forall k | 0 <= k < |ext|
      ensures ext[k].id == pre[k].id && forall s :: Get(ext[k].tags, s) == Get(RawTags(pre[k], tb), s)
    {
      if k < i {
        assert ext[k] == ups[k] && pre[k] == recipes[..i][k];
      } else {
        assert ext[k] == u && pre[k] == recipes[i];
      }
    }
  }

  method BuildUpdates(recipes: seq<RecipeRow>, tb: Tables) returns (ups: seq<Update>)
    ensures UpdatesFor(ups, recipes, tb)
  {
    ups := [];
    var i := 0;
    while i < |recipes|
      invariant 0 <= i <= |recipes|
      invariant UpdatesFor(ups, recipes[..i], tb)
      decreases |recipes| - i
    {
      var tags := AnalyzeRecipeIngredients(recipes[i], tb);
      UpdatesForSnoc(ups, recipes, tb, i, Update(recipes[i].id, tags));
      ups := ups + [Update(recipes[i].id, tags)];
      i := i + 1;
    }
    assert recipes[..|recipes|] == recipes;
  }

  /** The batches sent to `upsert`: laid end to end they are the updates, at most ten each. */
  method UpdateRecipeTags(recipes: seq<RecipeRow>) returns (batches: seq<seq<Update>>)
    ensures UpdatesFor(Flatten(batches), recipes, Script)
    ensures forall k :: 0 <= k < |batches| ==> 0 < |batches[k]| <= BatchSize
  {
    var ups := BuildUpdates(recipes, Script);
    batches := MakeBatches(ups, BatchSize);
    FlattenBatches(ups, BatchSize);
    BatchSizes(ups, BatchSize);
  }
}
