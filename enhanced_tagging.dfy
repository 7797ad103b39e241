/**
 * `update-recipe-tags-enhanced.js`: the revised three-level tagging. Protein
 * and veggie tags push without a guard, pantry, dairy and fruit rows are
 * matched by their raw varieties, cookware goes through a family table
 * (family, then type, then variety), every array is deduplicated at the end,
 * and recipes without a name are not updated.
 */
module EnhancedTagging {
  import opened Strings
  import opened Records
  import opened Taxonomy
  import opened TagTables

  /** A cookware family (`pots`, `pans`, …) with its extra keywords and its types. */
  datatype Family = Family(name: string, synonyms: seq<string>, types: seq<Row>)

  /** `cookwareTagStructure`, with the keyword chain of the `if` that recognises each family. */
  const Families: seq<Family> := [
    Family("pots", ["pot", "dutch", "cooker"], [
      Row(Cookware, "stock", ["stainless", "aluminum", "nonstick", "ceramic", "enamel", "copper"]),
      Row(Cookware, "sauce", ["small", "medium", "large", "stainless", "nonstick", "copper"]),
      Row(Cookware, "dutch", ["cast_iron", "enamel", "small", "medium", "large", "oval"]),
      Row(Cookware, "pressure", ["electric", "stovetop", "small", "medium", "large", "multi"]),
      Row(Cookware, "slow", ["small", "medium", "large", "programmable", "manual", "travel"]),
      Row(Cookware, "multi", ["instant", "ninja", "small", "medium", "large", "deluxe"])]),
    Family("pans", ["pan", "skillet"], [
      Row(Cookware, "frying", ["cast_iron", "nonstick", "stainless", "small", "medium", "large"]),
      Row(Cookware, "saute", ["stainless", "nonstick", "small", "medium", "large", "copper"]),
      Row(Cookware, "grill", ["cast_iron", "nonstick", "ridged", "flat", "reversible", "electric"]),
      Row(Cookware, "griddle", ["cast_iron", "nonstick", "electric", "stovetop", "double", "reversible"]),
      Row(Cookware, "wok", ["carbon", "cast_iron", "nonstick", "flat", "round", "electric"]),
      Row(Cookware, "crepe", ["nonstick", "cast_iron", "electric", "carbon", "small", "large"])]),
    Family("bakeware", ["dish", "sheet", "tin"], [
      Row(Cookware, "sheet", ["aluminum", "nonstick", "insulated", "small", "medium", "large"]),
      Row(Cookware, "cake", ["round", "square", "springform", "bundt", "sheet", "layer"]),
      Row(Cookware, "muffin", ["standard", "mini", "jumbo", "silicone", "nonstick", "metal"]),
      Row(Cookware, "loaf", ["standard", "mini", "pullman", "silicone", "nonstick", "glass"]),
      Row(Cookware, "casserole", ["glass", "ceramic", "metal", "small", "medium", "large"]),
      Row(Cookware, "pie", ["glass", "ceramic", "metal", "deep", "standard", "mini"])]),
    Family("utensils", ["spoon", "spatula", "tongs"], [
      Row(Cookware, "spatula", ["silicone", "metal", "wood", "plastic", "fish", "offset"]),
      Row(Cookware, "whisk", ["balloon", "french", "flat", "silicone", "metal", "mini"]),
      Row(Cookware, "tongs", ["metal", "silicone", "locking", "long", "short", "bbq"]),
      Row(Cookware, "ladle", ["metal", "silicone", "plastic", "small", "large", "soup"]),
      Row(Cookware, "spoon", ["wood", "metal", "silicone", "slotted", "solid", "serving"]),
      Row(Cookware, "turner", ["metal", "silicone", "plastic", "slotted", "solid", "fish"])]),
    Family("appliances", ["blender", "processor", "mixer"], [
      Row(Cookware, "blender", ["countertop", "immersion", "personal", "high_speed", "standard", "professional"]),
      Row(Cookware, "mixer", ["stand", "hand", "kitchenaid", "planetary", "compact", "professional"]),
      Row(Cookware, "processor", ["full_size", "mini", "chopper", "manual", "electric", "professional"]),
      Row(Cookware, "toaster", ["two_slice", "four_slice", "toaster_oven", "convection", "smart", "retro"]),
      Row(Cookware, "microwave", ["countertop", "built_in", "convection", "small", "medium", "large"]),
      Row(Cookware, "airfryer", ["basket", "oven", "combo", "small", "medium", "large"])]),
    Family("knives", ["knife", "cutter"], [
      Row(Cookware, "chef", ["german", "japanese", "small", "medium", "large", "carbon"]),
      Row(Cookware, "paring", ["straight", "bird_beak", "sheep_foot", "small", "medium", "ceramic"]),
      Row(Cookware, "bread", ["serrated", "offset", "straight", "short", "medium", "long"]),
      Row(Cookware, "utility", ["straight", "serrated", "small", "medium", "japanese", "german"]),
      Row(Cookware, "santoku", ["traditional", "hollow", "small", "medium", "large", "damascus"]),
      Row(Cookware, "cleaver", ["chinese", "butcher", "vegetable", "small", "medium", "large"])])]

  /** The rows the ingredient scan visits: pantry, dairy, fruit. */
  const IngredientRows: seq<Row> := RevisedPantry + RevisedDairy + RevisedFruit

  // ---------------------------------------------------------------------
  // required_cookware through the family table
  // ---------------------------------------------------------------------

  /** The family's own name or one of its keywords occurs in the lower-cased item. */
  predicate FamilyHit(text: string, f: Family) {
    Contains(text, f.name) || FirstContained(f.synonyms, text, false) >= 0
  }

  /** The first family recognised, where `if (categoryMatch) break` stops; -1 when none is. */
  function FirstFamily(fams: seq<Family>, text: string): (k: int)
    ensures -1 <= k < |fams|
    ensures k >= 0 ==> FamilyHit(text, fams[k])
    ensures forall j :: 0 <= j < |fams| && (k < 0 || j < k) ==> !FamilyHit(text, fams[j])
    decreases |fams|
  {
    if fams == [] then -1
    else if FamilyHit(text, fams[0]) then 0
    else
      var k := FirstFamily(fams[1..], text);
      if k < 0 then -1 else k + 1
  }

  method FindFamily(fams: seq<Family>, text: string) returns (k: int)
    ensures k == FirstFamily(fams, text)
  {
    k := -1;
    var i := 0;
    while i < |fams|
      invariant 0 <= i <= |fams|
      invariant forall j :: 0 <= j < i ==> !FamilyHit(text, fams[j])
      decreases |fams| - i
    {
      if FamilyHit(text, fams[i]) {
        k := i;
        break;
      }
      i := i + 1;
    }
  }

  /** Within a family: the first type named in the item, then that type's first variety, both into `cookware_variety`. */
  function FamilyTypeStep(t: Tags, f: Family, text: string): Tags {
    var k := FirstContained(Names(f.types), text, false);
    if k < 0 then t
    else
      var t1 := Put(t, Slot(Cookware, Variety), f.types[k].name, true);
      var c := FirstContained(f.types[k].varieties, text, false);
      if c < 0 then t1 else Put(t1, Slot(Cookware, Variety), f.types[k].varieties[c], true)
  }

  /** One string item: 'cookware' unguarded, then the first family recognised into `cookware_type`. */
  function FamilyStep(t: Tags, fams: seq<Family>, text: string): Tags {
    var t1 := Put(t, Slot(Cookware, Category), GroupName(Cookware), false);
    var k := FirstFamily(fams, text);
    if k < 0 then t1 else FamilyTypeStep(Put(t1, Slot(Cookware, Kind), fams[k].name, true), fams[k], text)
  }

  function FamilyItemStep(t: Tags, fams: seq<Family>, item: Item): Tags {
    if item.Text? then FamilyStep(t, fams, Lower(item.s)) else t
  }

  lemma FamilyTypeStepFacts(t: Tags, f: Family, text: string)
    ensures var r := FamilyTypeStep(t, f, text);
      var k := FirstContained(Names(f.types), text, false);
      Grows(t, r)
      && (forall s: Slot :: s != Slot(Cookware, Variety) ==> Get(r, s) == Get(t, s))
      && (AllDistinct(t) ==> AllDistinct(r))
      && (k >= 0 ==> f.types[k].name in Get(r, Slot(Cookware, Variety)))
      && (k >= 0 && FirstContained(f.types[k].varieties, text, false) >= 0 ==>
            f.types[k].varieties[FirstContained(f.types[k].varieties, text, false)] in Get(r, Slot(Cookware, Variety)))
  {
    var k := FirstContained(Names(f.types), text, false);
    if k >= 0 {
      var t1 := Put(t, Slot(Cookware, Variety), f.types[k].name, true);
      PutGrows(t, Slot(Cookware, Variety), f.types[k].name, true);
      if AllDistinct(t) {
        PutKeepsDistinct(t, Slot(Cookware, Variety), f.types[k].name);
      }
      var c := FirstContained(f.types[k].varieties, text, false);
      if c >= 0 {
        PutGrows(t1, Slot(Cookware, Variety), f.types[k].varieties[c], true);
        Grows3(t, t1, FamilyTypeStep(t, f, text));
        if AllDistinct(t1) {
          PutKeepsDistinct(t1, Slot(Cookware, Variety), f.types[k].varieties[c]);
        }
      }
    }
  }

  /**
   * Every string item adds 'cookware'; a recognised family adds its name, and
   * the type and variety it names; no other group is touched.
   */
  lemma FamilyStepFacts(t: Tags, fams: seq<Family>, text: string)
    ensures var r := FamilyStep(t, fams, text);
      var k := FirstFamily(fams, text);
      Grows(t, r)
      && (forall s: Slot :: s.group != Cookware ==> Get(r, s) == Get(t, s))
      && GroupName(Cookware) in Get(r, Slot(Cookware, Category))
      && (k < 0 ==> Get(r, Slot(Cookware, Kind)) == Get(t, Slot(Cookware, Kind))
                    && Get(r, Slot(Cookware, Variety)) == Get(t, Slot(Cookware, Variety)))
      && (k >= 0 ==> fams[k].name in Get(r, Slot(Cookware, Kind)))
  {
    var t1 := Put(t, Slot(Cookware, Category), GroupName(Cookware), false);
    PutFacts(t, Slot(Cookware, Category), GroupName(Cookware), false);
    var k := FirstFamily(fams, text);
    if k >= 0 {
      FamilyKindFacts(t, t1, fams[k], text);
    }
  }

  /** The family push and the type step that follows it, for a recognised family `f`. */
  lemma FamilyKindFacts(t: Tags, t1: Tags, f: Family, text: string)
    requires Grows(t, t1) && GroupName(Cookware) in Get(t1, Slot(Cookware, Category))
    requires forall s: Slot :: s != Slot(Cookware, Category) ==> Get(t1, s) == Get(t, s)
    ensures var r := FamilyTypeStep(Put(t1, Slot(Cookware, Kind), f.name, true), f, text);
      Grows(t, r)
      && (forall s: Slot :: s.group != Cookware ==> Get(r, s) == Get(t, s))
      && GroupName(Cookware) in Get(r, Slot(Cookware, Category))
      && f.name in Get(r, Slot(Cookware, Kind))
  {
    var t2 := Put(t1, Slot(Cookware, Kind), f.name, true);
    PutFacts(t1, Slot(Cookware, Kind), f.name, true);
    Grows3(t, t1, t2);
    FamilyTypeStepFacts(t2, f, text);
    Grows3(t, t2, FamilyTypeStep(t2, f, text));
  }

  function FamilyPass(t: Tags, fams: seq<Family>, items: seq<Item>): Tags
    decreases |items|
  {
    if items == [] then t else FamilyItemStep(FamilyPass(t, fams, items[..|items| - 1]), fams, items[|items| - 1])
  }

  lemma {:induction false} FamilyPassFacts(t: Tags, fams: seq<Family>, items: seq<Item>)
    ensures var r := FamilyPass(t, fams, items);
      Grows(t, r) && (forall s: Slot :: s.group != Cookware ==> Get(r, s) == Get(t, s))
    decreases |items|
  {
    if items != [] {
      var before := FamilyPass(t, fams, items[..|items| - 1]);
      FamilyPassFacts(t, fams, items[..|items| - 1]);
      var last := items[|items| - 1];
      if last.Text? {
        FamilyStepFacts(before, fams, Lower(last.s));
        Grows3(t, before, FamilyPass(t, fams, items));
      }
    }
  }

  lemma FamilyPassSnoc(t: Tags, fams: seq<Family>, items: seq<Item>, i: nat)
    requires i < |items|
    ensures FamilyPass(t, fams, items[..i + 1]) == FamilyItemStep(FamilyPass(t, fams, items[..i]), fams, items[i])
  {
    var pre := items[..i + 1];
    assert |pre| - 1 == i;
    assert pre[..|pre| - 1] == items[..i];
    assert pre[|pre| - 1] == items[i];
    assert FamilyPass(t, fams, pre) == FamilyItemStep(FamilyPass(t, fams, pre[..|pre| - 1]), fams, pre[|pre| - 1]);
  }

  lemma {:induction false} FamilyPassExtendsPrefix(t: Tags, fams: seq<Family>, items: seq<Item>, n: nat)
    requires n <= |items|
    ensures Grows(FamilyPass(t, fams, items[..n]), FamilyPass(t, fams, items))
    decreases |items| - n
  {
    if n < |items| {
      var init := items[..|items| - 1];
      assert init[..n] == items[..n];
      FamilyPassExtendsPrefix(t, fams, init, n);
      FamilyPassFacts(FamilyPass(t, fams, init), fams, [items[|items| - 1]]);
      assert [items[|items| - 1]][..0] == [];
      Grows3(FamilyPass(t, fams, items[..n]), FamilyPass(t, fams, init), FamilyPass(t, fams, items));
    } else {
      assert items[..n] == items;
    }
  }

  /** Each string item leaves 'cookware', and the family it is recognised as, in the arrays. */
  lemma FamilyPassRecordsEachItem(t: Tags, fams: seq<Family>, items: seq<Item>, i: nat)
    requires i < |items| && items[i].Text?
    ensures var r := FamilyPass(t, fams, items);
      var k := FirstFamily(fams, Lower(items[i].s));
      GroupName(Cookware) in Get(r, Slot(Cookware, Category))
      && (k >= 0 ==> fams[k].name in Get(r, Slot(Cookware, Kind)))
  {
    FamilyPassSnoc(t, fams, items, i);
    FamilyStepFacts(FamilyPass(t, fams, items[..i]), fams, Lower(items[i].s));
    FamilyPassExtendsPrefix(t, fams, items, i + 1);
    var step := FamilyPass(t, fams, items[..i + 1]);
    var r := FamilyPass(t, fams, items);
    GrowsIn(step, r, Slot(Cookware, Category), GroupName(Cookware));
    var k := FirstFamily(fams, Lower(items[i].s));
    if k >= 0 {
      GrowsIn(step, r, Slot(Cookware, Kind), fams[k].name);
    }
  }

  method ScanFamilyType(t: Tags, f: Family, text: string) returns (r: Tags)
    ensures r == FamilyTypeStep(t, f, text)
  {
    r := t;
    var j := FindFirst(Names(f.types), text, false);
    if j >= 0 {
      r := Put(r, Slot(Cookware, Variety), f.types[j].name, true);
      var c := FindFirst(f.types[j].varieties, text, false);
      if c >= 0 {
        r := Put(r, Slot(Cookware, Variety), f.types[j].varieties[c], true);
      }
    }
  }

  method ScanFamilyItem(t: Tags, fams: seq<Family>, item: Item) returns (r: Tags)
    ensures r == FamilyItemStep(t, fams, item)
  {
    r := t;
    if item.Text? {
      var lower := Lower(item.s);
      r := Put(r, Slot(Cookware, Category), GroupName(Cookware), false);
      var k := FindFamily(fams, lower);
      if k >= 0 {
        r := Put(r, Slot(Cookware, Kind), fams[k].name, true);
        r := ScanFamilyType(r, fams[k], lower);
      }
    }
  }

  method ScanFamilies(t: Tags, fams: seq<Family>, items: seq<Item>) returns (r: Tags)
    ensures r == FamilyPass(t, fams, items)
  {
    r := t;
    var i := 0;
    while i < |items|
      invariant 0 <= i <= |items|
      invariant r == FamilyPass(t, fams, items[..i])
      decreases |items| - i
    {
      FamilyPassSnoc(t, fams, items, i);
      r := ScanFamilyItem(r, fams, items[i]);
      i := i + 1;
    }
    assert items[..|items|] == items;
  }

  // ---------------------------------------------------------------------
  // analyzeRecipeIngredients(recipe)
  // ---------------------------------------------------------------------

  /** The tables the analysis consults: protein types, veggie types, ingredient rows, cookware families. */
  datatype Tables = Tables(proteins: seq<Row>, veggies: seq<Row>, rows: seq<Row>, fams: seq<Family>)

  /** The script's own tables. */
  const Script: Tables := Tables(RevisedProtein, Veggies, IngredientRows, Families)

  /** The arrays before deduplication: protein tags, veggie tags, ingredients, cookware. */
  function RawTags(rec: RecipeRow, tb: Tables): Tags {
    var t1 := TagPass(NoTags, Protein, tb.proteins, ArrayItems(rec.protein_tags), false);
    var t2 := TagPass(t1, Veggie, tb.veggies, ArrayItems(rec.veggie_tags), false);
    var t3 := IngredientsPass(t2, tb.rows, ArrayItems(rec.ingredients), ByVariety(false));
    FamilyPass(t3, tb.fams, ArrayItems(rec.required_cookware))
  }

  /** The result is the raw arrays with duplicates removed, so no array repeats an entry. */
  method AnalyzeRecipeIngredients(rec: RecipeRow, tb: Tables) returns (r: Tags)
    ensures IsDedupOf(r, RawTags(rec, tb))
    ensures AllDistinct(r)
  {
    var t := ProcessTags(NoTags, Protein, tb.proteins, ArrayItems(rec.protein_tags), false);
    t := ProcessTags(t, Veggie, tb.veggies, ArrayItems(rec.veggie_tags), false);
    t := ScanIngredients(t, tb.rows, ArrayItems(rec.ingredients), ByVariety(false));
    t := ScanFamilies(t, tb.fams, ArrayItems(rec.required_cookware));
    r := DedupAll(t);
  }

  /** Each protein tag leaves 'protein', and the type and cut it names, in the deduplicated result. */
  lemma AnalyzedProteinTag(rec: RecipeRow, tb: Tables, r: Tags, i: nat)
    requires IsDedupOf(r, RawTags(rec, tb))
    requires i < |ArrayItems(rec.protein_tags)|
    ensures var tag := ArrayItems(rec.protein_tags)[i];
      var k := TypeOfTag(tb.proteins, tag);
      "protein" in Get(r, Slot(Protein, Category))
      && (k >= 0 ==> tb.proteins[k].name in Get(r, Slot(Protein, Kind)))
      && (k >= 0 && VarietyOfTag(tb.proteins, k, tag) >= 0 ==>
            tb.proteins[k].varieties[VarietyOfTag(tb.proteins, k, tag)] in Get(r, Slot(Protein, Variety)))
  {
    var tags := ArrayItems(rec.protein_tags);
    var t1 := TagPass(NoTags, Protein, tb.proteins, tags, false);
    var t2 := TagPass(t1, Veggie, tb.veggies, ArrayItems(rec.veggie_tags), false);
    var t3 := IngredientsPass(t2, tb.rows, ArrayItems(rec.ingredients), ByVariety(false));
    var raw := RawTags(rec, tb);
    TagPassRecordsEachTag(NoTags, Protein, tb.proteins, tags, false, i);
    TagPassFacts(t1, Veggie, tb.veggies, ArrayItems(rec.veggie_tags), false);
    IngredientsPassFacts(t2, tb.rows, ArrayItems(rec.ingredients), ByVariety(false));
    FamilyPassFacts(t3, tb.fams, ArrayItems(rec.required_cookware));
    Grows3(t1, t2, t3);
    Grows3(t1, t3, raw);
    ProteinName();
    GrowsIn(t1, raw, Slot(Protein, Category), GroupName(Protein));
    DedupKeepsTags(r, raw, Slot(Protein, Category), GroupName(Protein));
    var k := TypeOfTag(tb.proteins, tags[i]);
    if k >= 0 {
      GrowsIn(t1, raw, Slot(Protein, Kind), tb.proteins[k].name);
      DedupKeepsTags(r, raw, Slot(Protein, Kind), tb.proteins[k].name);
      var c := VarietyOfTag(tb.proteins, k, tags[i]);
      if c >= 0 {
        GrowsIn(t1, raw, Slot(Protein, Variety), tb.proteins[k].varieties[c]);
        DedupKeepsTags(r, raw, Slot(Protein, Variety), tb.proteins[k].varieties[c]);
      }
    }
  }

  lemma ProteinName()
    ensures GroupName(Protein) == "protein"
  {
  }

  lemma CookwareName()
    ensures GroupName(Cookware) == "cookware"
  {
  }

  /** Each string cookware item leaves 'cookware', and the family it belongs to, in the deduplicated result. */
  lemma AnalyzedCookware(rec: RecipeRow, tb: Tables, r: Tags, i: nat)
    requires IsDedupOf(r, RawTags(rec, tb))
    requires i < |ArrayItems(rec.required_cookware)| && ArrayItems(rec.required_cookware)[i].Text?
    ensures var k := FirstFamily(tb.fams, Lower(ArrayItems(rec.required_cookware)[i].s));
      "cookware" in Get(r, Slot(Cookware, Category))
      && (k >= 0 ==> tb.fams[k].name in Get(r, Slot(Cookware, Kind)))
  {
    var items := ArrayItems(rec.required_cookware);
    var t1 := TagPass(NoTags, Protein, tb.proteins, ArrayItems(rec.protein_tags), false);
    var t2 := TagPass(t1, Veggie, tb.veggies, ArrayItems(rec.veggie_tags), false);
    var t3 := IngredientsPass(t2, tb.rows, ArrayItems(rec.ingredients), ByVariety(false));
    var raw := RawTags(rec, tb);
    FamilyPassRecordsEachItem(t3, tb.fams, items, i);
    CookwareName();
    DedupKeepsTags(r, raw, Slot(Cookware, Category), GroupName(Cookware));
    var k := FirstFamily(tb.fams, Lower(items[i].s));
    if k >= 0 {
      DedupKeepsTags(r, raw, Slot(Cookware, Kind), tb.fams[k].name);
    }
  }

  /** A pantry, dairy or fruit row an ingredient names leaves its group, type and variety in the result. */
  lemma AnalyzedIngredient(rec: RecipeRow, tb: Tables, r: Tags, i: nat, j: nat)
    requires IsDedupOf(r, RawTags(rec, tb))
    requires i < |ArrayItems(rec.ingredients)| && ArrayItems(rec.ingredients)[i].Text?
    requires j < |tb.rows| && tb.rows[j].group != Cookware
    requires RowMatches(tb.rows[j], Lower(ArrayItems(rec.ingredients)[i].s), ByVariety(false))
    ensures var g := tb.rows[j].group;
      var c := RowVariety(tb.rows[j], Lower(ArrayItems(rec.ingredients)[i].s), ByVariety(false));
      GroupName(g) in Get(r, Slot(g, Category)) && tb.rows[j].name in Get(r, Slot(g, Kind))
      && tb.rows[j].varieties[c] in Get(r, Slot(g, Variety))
  {
    var items := ArrayItems(rec.ingredients);
    var g := tb.rows[j].group;
    var c := RowVariety(tb.rows[j], Lower(items[i].s), ByVariety(false));
    var t1 := TagPass(NoTags, Protein, tb.proteins, ArrayItems(rec.protein_tags), false);
    var t2 := TagPass(t1, Veggie, tb.veggies, ArrayItems(rec.veggie_tags), false);
    var t3 := IngredientsPass(t2, tb.rows, items, ByVariety(false));
    var raw := RawTags(rec, tb);
    IngredientsPassTagsEveryMatch(t2, tb.rows, items, ByVariety(false), i, j);
    FamilyPassFacts(t3, tb.fams, ArrayItems(rec.required_cookware));
    DedupKeepsTags(r, raw, Slot(g, Category), GroupName(g));
    DedupKeepsTags(r, raw, Slot(g, Kind), tb.rows[j].name);
    DedupKeepsTags(r, raw, Slot(g, Variety), tb.rows[j].varieties[c]);
  }

  /** The script's ingredient rows are pantry, dairy and fruit rows only. */
  lemma ScriptRowsAreFoodGroups()
    ensures forall j :: 0 <= j < |Script.rows| ==>
      Script.rows[j].group == Pantry || Script.rows[j].group == Dairy || Script.rows[j].group == Fruit
  {
  }

  /**
   * Ingredients never reach the protein or veggie arrays: with ingredient rows
   * of other groups, those arrays are exactly the deduplicated result of the
   * protein-tag loop and of the veggie-tag loop on their own.
   */
  lemma AnalyzedTagGroupsScope(rec: RecipeRow, tb: Tables, r: Tags)
    requires IsDedupOf(r, RawTags(rec, tb))
    requires forall j :: 0 <= j < |tb.rows| ==> tb.rows[j].group != Protein && tb.rows[j].group != Veggie
    ensures forall l ::
      Get(r, Slot(Protein, l)) == Dedup(Get(TagPass(NoTags, Protein, tb.proteins, ArrayItems(rec.protein_tags), false), Slot(Protein, l)))
    ensures forall l ::
      Get(r, Slot(Veggie, l)) == Dedup(Get(TagPass(NoTags, Veggie, tb.veggies, ArrayItems(rec.veggie_tags), false), Slot(Veggie, l)))
  {
    var t1 := TagPass(NoTags, Protein, tb.proteins, ArrayItems(rec.protein_tags), false);
    var t2 := TagPass(t1, Veggie, tb.veggies, ArrayItems(rec.veggie_tags), false);
    var t3 := IngredientsPass(t2, tb.rows, ArrayItems(rec.ingredients), ByVariety(false));
    var raw := RawTags(rec, tb);
    TagPassFacts(NoTags, Protein, tb.proteins, ArrayItems(rec.protein_tags), false);
    TagPassFacts(t1, Veggie, tb.veggies, ArrayItems(rec.veggie_tags), false);
    IngredientsPassOtherGroups(t2, tb.rows, ArrayItems(rec.ingredients), ByVariety(false), Protein);
    IngredientsPassOtherGroups(t2, tb.rows, ArrayItems(rec.ingredients), ByVariety(false), Veggie);
    FamilyPassFacts(t3, tb.fams, ArrayItems(rec.required_cookware));
    assert SameGroup(t1, NoTags, Veggie) by {
      forall l ensures Get(t1, Slot(Veggie, l)) == Get(NoTags, Slot(Veggie, l)) {
        assert Slot(Veggie, l).group != Protein;
      }
    }
    TagPassSameGroup(t1, NoTags, Veggie, tb.veggies, ArrayItems(rec.veggie_tags), false);
    forall l
      ensures Get(raw, Slot(Protein, l)) == Get(t1, Slot(Protein, l))
      ensures Get(raw, Slot(Veggie, l)) == Get(TagPass(NoTags, Veggie, tb.veggies, ArrayItems(rec.veggie_tags), false), Slot(Veggie, l))
    {
      assert Slot(Protein, l).group != Cookware && Slot(Protein, l).group != Veggie;
      assert Slot(Veggie, l).group != Cookware;
    }
  }

  /**
   * With the script's tables, ingredients reach only the pantry, dairy and
   * fruit arrays, and the protein and veggie arrays come from their tag lists alone.
   */
  lemma AnalyzedScriptTagGroups(rec: RecipeRow, r: Tags)
    requires IsDedupOf(r, RawTags(rec, Script))
    ensures forall l ::
      Get(r, Slot(Protein, l)) == Dedup(Get(TagPass(NoTags, Protein, RevisedProtein, ArrayItems(rec.protein_tags), false), Slot(Protein, l)))
    ensures forall l ::
      Get(r, Slot(Veggie, l)) == Dedup(Get(TagPass(NoTags, Veggie, Veggies, ArrayItems(rec.veggie_tags), false), Slot(Veggie, l)))
  {
    ScriptRowsAreFoodGroups();
    AnalyzedTagGroupsScope(rec, Script, r);
  }

  // ---------------------------------------------------------------------
  // the update loop
  // ---------------------------------------------------------------------

  datatype Update = Update(id: string, tags: Tags)

  /** The recipes the loop updates: `if (!recipe.name) continue` skips a missing or empty name. */
  function Named(recipes: seq<RecipeRow>): (r: seq<RecipeRow>)
    ensures |r| <= |recipes|
    decreases |recipes|
  {
    if recipes == [] then []
    else Named(recipes[..|recipes| - 1]) + (if recipes[|recipes| - 1].name == "" then [] else [recipes[|recipes| - 1]])
  }

  /** The loop skips exactly the recipes without a name and keeps every named one. */
  lemma {:induction false} NamedMembers(recipes: seq<RecipeRow>)
    ensures forall x :: x in Named(recipes) ==> x in recipes && x.name != ""
    ensures forall k :: 0 <= k < |recipes| && recipes[k].name != "" ==> recipes[k] in Named(recipes)
    decreases |recipes|
  {
    if recipes != [] {
      var init := recipes[..|recipes| - 1];
      NamedMembers(init);
      assert forall k :: 0 <= k < |recipes| - 1 ==> recipes[k] == init[k];
    }
  }

  /** Skipping keeps table order: the named recipes of a concatenation are those of each part, in turn. */
  lemma {:induction false} NamedConcat(a: seq<RecipeRow>, b: seq<RecipeRow>)
    ensures Named(a + b) == Named(a) + Named(b)
    decreases |b|
  {
    if b == [] {
      assert a + b == a;
    } else {
      NamedConcat(a, b[..|b| - 1]);
      NamedConcatStep(a, b);
    }
  }

  /** The induction step of `NamedConcat`: appending the last row of `b`. */
  lemma NamedConcatStep(a: seq<RecipeRow>, b: seq<RecipeRow>)
    requires b != [] && Named(a + b[..|b| - 1]) == Named(a) + Named(b[..|b| - 1])
    ensures Named(a + b) == Named(a) + Named(b)
  {
    var init := b[..|b| - 1];
    var last := b[|b| - 1];
    var tail := if last.name == "" then [] else [last];
    var ab := a + b;
    assert ab[..|ab| - 1] == a + init;
    assert ab[|ab| - 1] == last;
    NamedUnfold(ab);
    NamedUnfold(b);
    AppendAssoc(Named(a), Named(init), tail);
  }

  lemma AppendAssoc<T>(x: seq<T>, y: seq<T>, z: seq<T>)
    ensures (x + y) + z == x + (y + z)
  {
  }

  lemma NamedUnfold(xs: seq<RecipeRow>)
    requires xs != []
    ensures Named(xs) == Named(xs[..|xs| - 1]) + (if xs[|xs| - 1].name == "" then [] else [xs[|xs| - 1]])
  {
  }

  /** Update `k` carries the id of the `k`-th named recipe and its analysed, deduplicated tags. */
  ghost predicate UpdatesFor(ups: seq<Update>, recipes: seq<RecipeRow>, tb: Tables) {
    UpdatesForNamed(ups, Named(recipes), tb)
  }

  ghost predicate UpdatesForNamed(ups: seq<Update>, named: seq<RecipeRow>, tb: Tables) {
    |ups| == |named|
    && forall k :: 0 <= k < |ups| ==> ups[k].id == named[k].id && IsDedupOf(ups[k].tags, RawTags(named[k], tb))
  }

  lemma AppendUpdate(ups: seq<Update>, named: seq<RecipeRow>, tb: Tables, u: Update, rec: RecipeRow)
    requires UpdatesForNamed(ups, named, tb) && u.id == rec.id && IsDedupOf(u.tags, RawTags(rec, tb))
    ensures UpdatesForNamed(ups + [u], named + [rec], tb)
  {
    forall k | 0 <= k < |ups| + 1
      ensures (ups + [u])[k].id == (named + [rec])[k].id && IsDedupOf((ups + [u])[k].tags, RawTags((named + [rec])[k], tb))
    {
      if k < |ups| {
        assert (ups + [u])[k] == ups[k] && (named + [rec])[k] == named[k];
      }
    }
  }

  lemma NamedSnoc(recipes: seq<RecipeRow>, i: nat)
    requires i < |recipes|
    ensures Named(recipes[..i + 1]) == Named(recipes[..i]) + (if recipes[i].name == "" then [] else [recipes[i]])
  {
    assert recipes[..i + 1][..i] == recipes[..i];
    assert recipes[..i + 1][i] == recipes[i];
  }

  /** The loop's state after the first `i` recipes. */
  ghost predicate BuiltUpTo(ups: seq<Update>, recipes: seq<RecipeRow>, tb: Tables, i: nat)
    requires i <= |recipes|
  {
    UpdatesFor(ups, recipes[..i], tb) && forall k :: 0 <= k < |ups| ==> AllDistinct(ups[k].tags)
  }

  /** One round for a named recipe: its update is appended. */
  lemma BuildAppend(ups: seq<Update>, recipes: seq<RecipeRow>, tb: Tables, i: nat, tags: Tags)
    requires i < |recipes| && BuiltUpTo(ups, recipes, tb, i) && recipes[i].name != ""
    requires IsDedupOf(tags, RawTags(recipes[i], tb)) && AllDistinct(tags)
    ensures BuiltUpTo(ups + [Update(recipes[i].id, tags)], recipes, tb, i + 1)
  {
    NamedSnoc(recipes, i);
    var u := Update(recipes[i].id, tags);
    AppendUpdate(ups, Named(recipes[..i]), tb, u, recipes[i]);
    assert forall k :: 0 <= k < |ups| + 1 ==> (ups + [u])[k] == if k < |ups| then ups[k] else u;
  }

  /** One round for an unnamed recipe: `continue`. */
  lemma BuildSkip(ups: seq<Update>, recipes: seq<RecipeRow>, tb: Tables, i: nat)
    requires i < |recipes| && BuiltUpTo(ups, recipes, tb, i) && recipes[i].name == ""
    ensures BuiltUpTo(ups, recipes, tb, i + 1)
  {
    NamedSnoc(recipes, i);
    assert Named(recipes[..i + 1]) == Named(recipes[..i]);
  }

  method BuildUpdates(recipes: seq<RecipeRow>, tb: Tables) returns (ups: seq<Update>)
    ensures UpdatesFor(ups, recipes, tb)
    ensures forall k :: 0 <= k < |ups| ==> AllDistinct(ups[k].tags)
  {
    ups := [];
    for i := 0 to |recipes|
      invariant BuiltUpTo(ups, recipes, tb, i)
    {
      if recipes[i].name != "" {
        var tags := AnalyzeRecipeIngredients(recipes[i], tb);
        BuildAppend(ups, recipes, tb, i, tags);
        ups := ups + [Update(recipes[i].id, tags)];
      } else {
        BuildSkip(ups, recipes, tb, i);
      }
    }
    assert recipes[..|recipes|] == recipes;
  }

  /** The counters: `successCount` and `errorCount` per update outcome (`true` for success); nothing is ever skipped here. */
  datatype Counts = Counts(success: nat, skipped: nat, errors: nat)

  function Tally(outcomes: seq<bool>): (c: Counts)
    ensures c.success + c.errors == |outcomes|
    ensures c.skipped == 0
    ensures c.errors == 0 <==> forall k :: 0 <= k < |outcomes| ==> outcomes[k]
    decreases |outcomes|
  {
    if outcomes == [] then Counts(0, 0, 0)
    else
      var c := Tally(outcomes[..|outcomes| - 1]);
      assert forall k :: 0 <= k < |outcomes| - 1 ==> outcomes[..|outcomes| - 1][k] == outcomes[k];
      if outcomes[|outcomes| - 1] then Counts(c.success + 1, 0, c.errors) else Counts(c.success, 0, c.errors + 1)
  }

  method CountOutcomes(outcomes: seq<bool>) returns (c: Counts)
    ensures c == Tally(outcomes)
  {
    var success, errors := 0, 0;
    var i := 0;
    while i < |outcomes|
      invariant 0 <= i <= |outcomes|
      invariant Counts(success, 0, errors) == Tally(outcomes[..i])
      decreases |outcomes| - i
    {
      assert outcomes[..i + 1][..i] == outcomes[..i];
      if outcomes[i] {
        success := success + 1;
      } else {
        errors := errors + 1;
      }
      i := i + 1;
    }
    assert outcomes[..|outcomes|] == outcomes;
    c := Counts(success, 0, errors);
  }

  /** The script run over its own tables. */
  method UpdateRecipeTags(recipes: seq<RecipeRow>) returns (ups: seq<Update>)
    ensures UpdatesFor(ups, recipes, Script)
    ensures forall k :: 0 <= k < |ups| ==> AllDistinct(ups[k].tags)
  {
    ups := BuildUpdates(recipes, Script);
  }
}
