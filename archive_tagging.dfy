/**
 * `archive/update-recipe-tags.js`: the first three-level tagging run. Protein
 * and veggie tags and cookware push without a guard, every ingredient is
 * scanned against the whole table by raw variety, the arrays are
 * deduplicated at the end, and all recipes are upserted in batches of twenty.
 */
module ArchiveTagging {
  import opened Strings
  import opened Records
  import opened Taxonomy
  import opened TagTables
  import opened Batching

  /** The tables the analysis consults. */
  datatype Tables = Tables(proteins: seq<Row>, veggies: seq<Row>, rows: seq<Row>, keys: seq<Keyed>)

  /** `tagStructure` (all six categories, cookware included) and the cookware keyword chain. */
  const Script: Tables := Tables(StandardProtein, Veggies, StandardRows, FullCookwareKeys)

  const BatchSize: nat := 20

  /** The arrays before deduplication: protein tags, veggie tags, ingredients, cookware. */
  function RawTags(rec: RecipeRow, tb: Tables): Tags {
    var t1 := TagPass(NoTags, Protein, tb.proteins, ArrayItems(rec.protein_tags), false);
    var t2 := TagPass(t1, Veggie, tb.veggies, ArrayItems(rec.veggie_tags), false);
    var t3 := IngredientsPass(t2, tb.rows, ArrayItems(rec.ingredients), ByVariety(false));
    KeyedPass(t3, tb.keys, ArrayItems(rec.required_cookware), true, false, false)
  }

  /** `analyzeRecipeIngredients`: the raw arrays with duplicates removed. */
  method AnalyzeRecipeIngredients(rec: RecipeRow, tb: Tables) returns (r: Tags)
    ensures IsDedupOf(r, RawTags(rec, tb))
    ensures AllDistinct(r)
  {
    var t := ProcessTags(NoTags, Protein, tb.proteins, ArrayItems(rec.protein_tags), false);
    t := ProcessTags(t, Veggie, tb.veggies, ArrayItems(rec.veggie_tags), false);
    t := ScanIngredients(t, tb.rows, ArrayItems(rec.ingredients), ByVariety(false));
    t := ScanKeyed(t, tb.keys, ArrayItems(rec.required_cookware), true, false, false);
    r := DedupAll(t);
  }

  /** Each protein tag leaves 'protein', and the type and cut it names, in the deduplicated result. */
  lemma ProteinTagRecorded(rec: RecipeRow, tb: Tables, r: Tags, i: nat)
    requires IsDedupOf(r, RawTags(rec, tb))
    requires i < |ArrayItems(rec.protein_tags)|
    ensures var tag := ArrayItems(rec.protein_tags)[i];
      var k := TypeOfTag(tb.proteins, tag);
      GroupName(Protein) in Get(r, Slot(Protein, Category))
      && (k >= 0 ==> tb.proteins[k].name in Get(r, Slot(Protein, Kind)))
      && (k >= 0 && VarietyOfTag(tb.proteins, k, tag) >= 0 ==>
            tb.proteins[k].varieties[VarietyOfTag(tb.proteins, k, tag)] in Get(r, Slot(Protein, Variety)))
  {
    var tags := ArrayItems(rec.protein_tags);
    var t1 := TagPass(NoTags, Protein, tb.proteins, tags, false);
    var t2 := TagPass(t1, Veggie, tb.veggies, ArrayItems(rec.veggie_tags), false);
    var t3 := IngredientsPass(t2, tb.rows, ArrayItems(rec.ingredients), ByVariety(false));
    var raw := RawTags(rec, tb);
    TagPassRecordsEachTag(NoTags, Protein, tb.proteins, tags, false, i);
    TagPassFacts(t1, Veggie, tb.veggies, ArrayItems(rec.veggie_tags), false);
    IngredientsPassFacts(t2, tb.rows, ArrayItems(rec.ingredients), ByVariety(false));
    KeyedPassFacts(t3, tb.keys, ArrayItems(rec.required_cookware), true, false, false);
    Grows3(t1, t2, t3);
    Grows3(t1, t3, raw);
    GrowsIn(t1, raw, Slot(Protein, Category), GroupName(Protein));
    DedupKeepsTags(r, raw, Slot(Protein, Category), GroupName(Protein));
    var k := TypeOfTag(tb.proteins, tags[i]);
    if k >= 0 {
      GrowsIn(t1, raw, Slot(Protein, Kind), tb.proteins[k].name);
      DedupKeepsTags(r, raw, Slot(Protein, Kind), tb.proteins[k].name);
      var c := VarietyOfTag(tb.proteins, k, tags[i]);
      if c >= 0 {
        GrowsIn(t1, raw, Slot(Protein, Variety), tb.proteins[k].varieties[c]);
        DedupKeepsTags(r, raw, Slot(Protein, Variety), tb.proteins[k].varieties[c]);
      }
    }
  }

  /** Every row one of whose varieties an ingredient contains leaves its group, type and variety in the result. */
  lemma IngredientRecorded(rec: RecipeRow, tb: Tables, r: Tags, i: nat, j: nat)
    requires IsDedupOf(r, RawTags(rec, tb))
    requires i < |ArrayItems(rec.ingredients)| && ArrayItems(rec.ingredients)[i].Text?
    requires j < |tb.rows| && RowMatches(tb.rows[j], Lower(ArrayItems(rec.ingredients)[i].s), ByVariety(false))
    ensures var g := tb.rows[j].group;
      var c := RowVariety(tb.rows[j], Lower(ArrayItems(rec.ingredients)[i].s), ByVariety(false));
      GroupName(g) in Get(r, Slot(g, Category)) && tb.rows[j].name in Get(r, Slot(g, Kind))
      && tb.rows[j].varieties[c] in Get(r, Slot(g, Variety))
  {
    var items := ArrayItems(rec.ingredients);
    var g := tb.rows[j].group;
    var c := RowVariety(tb.rows[j], Lower(items[i].s), ByVariety(false));
    var t1 := TagPass(NoTags, Protein, tb.proteins, ArrayItems(rec.protein_tags), false);
    var t2 := TagPass(t1, Veggie, tb.veggies, ArrayItems(rec.veggie_tags), false);
    var t3 := IngredientsPass(t2, tb.rows, items, ByVariety(false));
    var raw := RawTags(rec, tb);
    IngredientsPassTagsEveryMatch(t2, tb.rows, items, ByVariety(false), i, j);
    KeyedPassFacts(t3, tb.keys, ArrayItems(rec.required_cookware), true, false, false);
    GrowsIn(t3, raw, Slot(g, Category), GroupName(g));
    GrowsIn(t3, raw, Slot(g, Kind), tb.rows[j].name);
    GrowsIn(t3, raw, Slot(g, Variety), tb.rows[j].varieties[c]);
    DedupKeepsTags(r, raw, Slot(g, Category), GroupName(g));
    DedupKeepsTags(r, raw, Slot(g, Kind), tb.rows[j].name);
    DedupKeepsTags(r, raw, Slot(g, Variety), tb.rows[j].varieties[c]);
  }

  lemma CookwareName()
    ensures GroupName(Cookware) == "cookware"
  {
  }

  /** Each string cookware item leaves 'cookware', its type and that type's first variety in the result. */
  lemma CookwareRecorded(rec: RecipeRow, tb: Tables, r: Tags, i: nat)
    requires IsDedupOf(r, RawTags(rec, tb))
    requires i < |ArrayItems(rec.required_cookware)| && ArrayItems(rec.required_cookware)[i].Text?
    ensures var item := ArrayItems(rec.required_cookware)[i];
      var k := KeyOfItem(tb.keys, item, false);
      "cookware" in Get(r, Slot(Cookware, Category))
      && (k >= 0 ==> tb.keys[k].name in Get(r, Slot(Cookware, Kind)))
      && (k >= 0 && FirstContained(tb.keys[k].varieties, Lower(item.s), false) >= 0 ==>
            tb.keys[k].varieties[FirstContained(tb.keys[k].varieties, Lower(item.s), false)] in Get(r, Slot(Cookware, Variety)))
  {
    var items := ArrayItems(rec.required_cookware);
    var t1 := TagPass(NoTags, Protein, tb.proteins, ArrayItems(rec.protein_tags), false);
    var t2 := TagPass(t1, Veggie, tb.veggies, ArrayItems(rec.veggie_tags), false);
    var t3 := IngredientsPass(t2, tb.rows, ArrayItems(rec.ingredients), ByVariety(false));
    var raw := RawTags(rec, tb);
    KeyedPassTagsEachItem(t3, tb.keys, items, true, false, false, i);
    CookwareName();
    DedupKeepsTags(r, raw, Slot(Cookware, Category), GroupName(Cookware));
    var k := KeyOfItem(tb.keys, items[i], false);
    if k >= 0 {
      DedupKeepsTags(r, raw, Slot(Cookware, Kind), tb.keys[k].name);
      var c := FirstContained(tb.keys[k].varieties, Lower(items[i].s), false);
      if c >= 0 {
        DedupKeepsTags(r, raw, Slot(Cookware, Variety), tb.keys[k].varieties[c]);
      }
    }
  }

  // ---------------------------------------------------------------------
  // the upsert: every recipe, in batches of twenty
  // ---------------------------------------------------------------------

  datatype Update = Update(id: string, tags: Tags)

  /** Update `k` carries recipe `k`'s id and its deduplicated arrays. */
  ghost predicate UpdatesFor(ups: seq<Update>, recipes: seq<RecipeRow>, tb: Tables) {
    |ups| == |recipes|
    && forall k :: 0 <= k < |ups| ==> ups[k].id == recipes[k].id && IsDedupOf(ups[k].tags, RawTags(recipes[k], tb))
  }

  lemma UpdatesForSnoc(ups: seq<Update>, recipes: seq<RecipeRow>, tb: Tables, i: nat, u: Update)
    requires i < |recipes| && UpdatesFor(ups, recipes[..i], tb)
    requires u.id == recipes[i].id && IsDedupOf(u.tags, RawTags(recipes[i], tb))
    ensures UpdatesFor(ups + [u], recipes[..i + 1], tb)
  {
    var pre := recipes[..i + 1];
    var ext := ups + [u];
    forall k | 0 <= k < |ext|
      ensures ext[k].id == pre[k].id && IsDedupOf(ext[k].tags, RawTags(pre[k], tb))
    {
      if k < i {
        assert ext[k] == ups[k] && pre[k] == recipes[..i][k];
      } else {
        assert ext[k] == u && pre[k] == recipes[i];
      }
    }
  }

  method BuildUpdates(recipes: seq<RecipeRow>, tb: Tables) returns (ups: seq<Update>)
    ensures UpdatesFor(ups, recipes, tb)
    ensures forall k :: 0 <= k < |ups| ==> AllDistinct(ups[k].tags)
  {
    ups := [];
    var i := 0;
    while i < |recipes|
      invariant 0 <= i <= |recipes|
      invariant UpdatesFor(ups, recipes[..i], tb)
      invariant forall k :: 0 <= k < |ups| ==> AllDistinct(ups[k].tags)
      decreases |recipes| - i
    {
      var tags := AnalyzeRecipeIngredients(recipes[i], tb);
      UpdatesForSnoc(ups, recipes, tb, i, Update(recipes[i].id, tags));
      ups := ups + [Update(recipes[i].id, tags)];
      i := i + 1;
    }
    assert recipes[..|recipes|] == recipes;
  }

  /** The batches sent to `upsert`: laid end to end they are the updates, at most twenty each. */
  method UpdateRecipeTags(recipes: seq<RecipeRow>) returns (batches: seq<seq<Update>>)
    ensures UpdatesFor(Flatten(batches), recipes, Script)
    ensures forall k :: 0 <= k < |batches| ==> 0 < |batches[k]| <= BatchSize
  {
    var ups := BuildUpdates(recipes, Script);
    batches := MakeBatches(ups, BatchSize);
    FlattenBatches(ups, BatchSize);
    BatchSizes(ups, BatchSize);
  }
}
