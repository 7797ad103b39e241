/**
 * `update-supabase-tagging.js`: tags every recipe row from its ingredients
 * (first match over the whole table wins), its protein and veggie tags and its
 * required cookware (with a derived default variety), and upserts the rows
 * `{id, ...tags}` in batches of ten.
 */
module SupabaseTagging {
  import opened Strings
  import opened Records
  import opened Taxonomy
  import opened TagTables
  import opened Batching

  /** `{ name, category: 'custom', type: 'other', cut: 'other' }`. */
  datatype CustomIngredient = CustomIngredient(name: string, category: string, kind: string, cut: string)

  function Custom(name: string): CustomIngredient {
    CustomIngredient(name, "custom", "other", "other")
  }

  /** The eighteen tag arrays and `custom_ingredients`. */
  datatype Detailed = Detailed(tags: Tags, custom: seq<CustomIngredient>)

  const Empty: Detailed := Detailed(NoTags, [])

  // ---------------------------------------------------------------------
  // ingredients: the first variety of the whole table wins
  // ---------------------------------------------------------------------

  /** The first row, in table order, one of whose varieties occurs in the text: where the triple `break` stops. */
  function FirstRowHit(rows: seq<Row>, text: string): (j: int)
    ensures -1 <= j < |rows|
    ensures j >= 0 ==> FirstContained(rows[j].varieties, text, true) >= 0
    ensures forall i :: 0 <= i < |rows| && (j < 0 || i < j) ==> FirstContained(rows[i].varieties, text, true) < 0
    decreases |rows|
  {
    if rows == [] then -1
    else if FirstContained(rows[0].varieties, text, true) >= 0 then 0
    else
      var j := FirstRowHit(rows[1..], text);
      if j < 0 then -1 else j + 1
  }

  /** The three nested loops with their `matched` flag. */
  method FindFirstRowHit(rows: seq<Row>, text: string) returns (j: int, c: int)
    ensures j == FirstRowHit(rows, text)
    ensures j >= 0 ==> c == FirstContained(rows[j].varieties, text, true)
  {
    j, c := -1, -1;
    var i := 0;
    while i < |rows|
      invariant 0 <= i <= |rows|
      invariant forall h :: 0 <= h < i ==> FirstContained(rows[h].varieties, text, true) < 0
      decreases |rows| - i
    {
      c := FindFirst(rows[i].varieties, text, true);
      if c >= 0 {
        j := i;
        break;
      }
      i := i + 1;
    }
  }

  /** Category, type and variety of one row, each pushed once. */
  function RowTags(t: Tags, row: Row, variety: string): Tags {
    Put(Put(Put(t, Slot(row.group, Category), GroupName(row.group), true), Slot(row.group, Kind), row.name, true),
        Slot(row.group, Variety), variety, true)
  }

  lemma RowTagsFacts(t: Tags, row: Row, variety: string)
    ensures var r := RowTags(t, row, variety);
      Grows(t, r)
      && (AllDistinct(t) ==> AllDistinct(r))
      && (forall s: Slot :: s.group != row.group ==> Get(r, s) == Get(t, s))
      && (forall s: Slot :: |Get(r, s)| <= |Get(t, s)| + 1)
      && GroupName(row.group) in Get(r, Slot(row.group, Category)) && row.name in Get(r, Slot(row.group, Kind))
      && variety in Get(r, Slot(row.group, Variety))
  {
    var t1 := Put(t, Slot(row.group, Category), GroupName(row.group), true);
    var t2 := Put(t1, Slot(row.group, Kind), row.name, true);
    var r := Put(t2, Slot(row.group, Variety), variety, true);
    PutGrows(t, Slot(row.group, Category), GroupName(row.group), true);
    PutGrows(t1, Slot(row.group, Kind), row.name, true);
    PutGrows(t2, Slot(row.group, Variety), variety, true);
    Grows3(t, t1, t2);
    Grows3(t, t2, r);
    if AllDistinct(t) {
      PutKeepsDistinct(t, Slot(row.group, Category), GroupName(row.group));
      PutKeepsDistinct(t1, Slot(row.group, Kind), row.name);
      PutKeepsDistinct(t2, Slot(row.group, Variety), variety);
    }
  }

  /**
   * One ingredient: non-strings are skipped; a string matching nothing becomes
   * a custom ingredient; a first match among the cookware rows adds nothing.
   */
  function IngredientStep(d: Detailed, rows: seq<Row>, item: Item): Detailed {
    if !item.Text? then d
    else
      var text := Lower(item.s);
      var j := FirstRowHit(rows, text);
      if j < 0 then Detailed(d.tags, d.custom + [Custom(item.s)])
      else if rows[j].group == Cookware then d
      else Detailed(RowTags(d.tags, rows[j], rows[j].varieties[FirstContained(rows[j].varieties, text, true)]),
                    d.custom)
  }

  /** Each string ingredient adds at most one entry to each array, all in the one group it matched first. */
  lemma IngredientStepAtMostOne(d: Detailed, rows: seq<Row>, item: Item)
    ensures var r := IngredientStep(d, rows, item);
      Grows(d.tags, r.tags)
      && (AllDistinct(d.tags) ==> AllDistinct(r.tags))
      && (forall s: Slot :: |Get(r.tags, s)| <= |Get(d.tags, s)| + 1)
      && (item.Text? && FirstRowHit(rows, Lower(item.s)) >= 0 ==>
            forall s: Slot :: s.group != rows[FirstRowHit(rows, Lower(item.s))].group ==> Get(r.tags, s) == Get(d.tags, s))
  {
    if item.Text? {
      var text := Lower(item.s);
      var j := FirstRowHit(rows, text);
      if j >= 0 && rows[j].group != Cookware {
        RowTagsFacts(d.tags, rows[j], rows[j].varieties[FirstContained(rows[j].varieties, text, true)]);
      }
    }
  }

  /**
   * What one ingredient does: a string no variety matches is appended to the
   * custom list and touches no array; a first match among cookware rows
   * changes nothing; any other first match records its group, type and
   * variety and leaves the custom list alone.
   */
  lemma IngredientStepOutcome(d: Detailed, rows: seq<Row>, item: Item)
    requires item.Text?
    ensures var r := IngredientStep(d, rows, item);
      var j := FirstRowHit(rows, Lower(item.s));
      (j < 0 ==> r.tags == d.tags && r.custom == d.custom + [Custom(item.s)])
      && (j >= 0 && rows[j].group == Cookware ==> r == d)
      && (j >= 0 && rows[j].group != Cookware ==>
            var row := rows[j];
            r.custom == d.custom
            && GroupName(row.group) in Get(r.tags, Slot(row.group, Category))
            && row.name in Get(r.tags, Slot(row.group, Kind))
            && row.varieties[FirstContained(row.varieties, Lower(item.s), true)] in Get(r.tags, Slot(row.group, Variety))
            && Hit(Lower(item.s), row.varieties[FirstContained(row.varieties, Lower(item.s), true)], true))
  {
    var text := Lower(item.s);
    var j := FirstRowHit(rows, text);
    if j >= 0 && rows[j].group != Cookware {
      RowTagsFacts(d.tags, rows[j], rows[j].varieties[FirstContained(rows[j].varieties, text, true)]);
    }
  }

  function IngredientsPass(d: Detailed, rows: seq<Row>, items: seq<Item>): Detailed
    decreases |items|
  {
    if items == [] then d else IngredientStep(IngredientsPass(d, rows, items[..|items| - 1]), rows, items[|items| - 1])
  }

  /** The custom entries, in order: one for each string ingredient that matches no variety of the table. */
  function Unmatched(rows: seq<Row>, items: seq<Item>): seq<CustomIngredient>
    decreases |items|
  {
    if items == [] then []
    else
      var last := items[|items| - 1];
      Unmatched(rows, items[..|items| - 1])
        + (if last.Text? && FirstRowHit(rows, Lower(last.s)) < 0 then [Custom(last.s)] else [])
  }

  lemma {:induction false} IngredientsPassFacts(d: Detailed, rows: seq<Row>, items: seq<Item>)
    ensures var r := IngredientsPass(d, rows, items);
      Grows(d.tags, r.tags)
      && (AllDistinct(d.tags) ==> AllDistinct(r.tags))
      && r.custom == d.custom + Unmatched(rows, items)
    decreases |items|
  {
    if items != [] {
      var init := items[..|items| - 1];
      var before := IngredientsPass(d, rows, init);
      IngredientsPassFacts(d, rows, init);
      IngredientStepAtMostOne(before, rows, items[|items| - 1]);
      Grows3(d.tags, before.tags, IngredientsPass(d, rows, items).tags);
    }
  }

  method ScanIngredient(d: Detailed, rows: seq<Row>, item: Item) returns (r: Detailed)
    ensures r == IngredientStep(d, rows, item)
  {
    r := d;
    if item.Text? {
      var j, c := FindFirstRowHit(rows, Lower(item.s));
      if j < 0 {
        r := Detailed(d.tags, d.custom + [Custom(item.s)]);
      } else if rows[j].group != Cookware {
        r := Detailed(RowTags(d.tags, rows[j], rows[j].varieties[c]), d.custom);
      }
    }
  }

  method ScanIngredients(d: Detailed, rows: seq<Row>, items: seq<Item>) returns (r: Detailed)
    ensures r == IngredientsPass(d, rows, items)
  {
    r := d;
    var i := 0;
    while i < |items|
      invariant 0 <= i <= |items|
      invariant r == IngredientsPass(d, rows, items[..i])
      decreases |items| - i
    {
      r := ScanIngredient(r, rows, items[i]);
      assert items[..i + 1][..i] == items[..i];
      i := i + 1;
    }
    assert items[..|items|] == items;
  }

  // ---------------------------------------------------------------------
  // required_cookware: 'cookware' always, a type or 'other', a variety or a default
  // ---------------------------------------------------------------------

  /** `cookware.toLowerCase().replace(/\s+/g, '_')`. */
  function DefaultVariety(s: string): string {
    ReplaceSpaceRuns(Lower(s), '_')
  }

  /** The first row whose type name occurs in the text, or -1. */
  function FirstNamed(rows: seq<Row>, text: string): (k: int)
    ensures -1 <= k < |rows|
    ensures k >= 0 ==> Hit(text, rows[k].name, true)
    ensures forall i :: 0 <= i < |rows| && (k < 0 || i < k) ==> !Hit(text, rows[i].name, true)
    decreases |rows|
  {
    if rows == [] then -1
    else if Hit(text, rows[0].name, true) then 0
    else
      var k := FirstNamed(rows[1..], text);
      if k < 0 then -1 else k + 1
  }

  /** The variety an item of type `row` gets: the first contained one, else the default. */
  function VarietyFor(row: Row, item: string): string {
    var c := FirstContained(row.varieties, Lower(item), true);
    if c >= 0 then row.varieties[c] else DefaultVariety(item)
  }

  /** The type an item gets: the first type whose name it contains, else 'other'. */
  function TypeFor(types: seq<Row>, item: string): string {
    var k := FirstNamed(types, Lower(item));
    if k >= 0 then types[k].name else "other"
  }

  /** The variety an item gets; an item of no type gets the default variety. */
  function CookwareVarietyFor(types: seq<Row>, item: string): string {
    var k := FirstNamed(types, Lower(item));
    if k >= 0 then VarietyFor(types[k], item) else DefaultVariety(item)
  }

  function CookwareStep(t: Tags, types: seq<Row>, item: string): Tags {
    var t1 := Put(t, Slot(Cookware, Category), GroupName(Cookware), true);
    var t2 := Put(t1, Slot(Cookware, Kind), TypeFor(types, item), true);
    Put(t2, Slot(Cookware, Variety), CookwareVarietyFor(types, item), true)
  }

  lemma CookwareStepFacts(t: Tags, types: seq<Row>, item: string)
    ensures var r := CookwareStep(t, types, item);
      Grows(t, r)
      && (AllDistinct(t) ==> AllDistinct(r))
      && (forall s: Slot :: s.group != Cookware ==> Get(r, s) == Get(t, s))
      && GroupName(Cookware) in Get(r, Slot(Cookware, Category))
      && TypeFor(types, item) in Get(r, Slot(Cookware, Kind))
      && CookwareVarietyFor(types, item) in Get(r, Slot(Cookware, Variety))
  {
    var t1 := Put(t, Slot(Cookware, Category), GroupName(Cookware), true);
    var t2 := Put(t1, Slot(Cookware, Kind), TypeFor(types, item), true);
    var r := Put(t2, Slot(Cookware, Variety), CookwareVarietyFor(types, item), true);
    PutGrows(t, Slot(Cookware, Category), GroupName(Cookware), true);
    PutGrows(t1, Slot(Cookware, Kind), TypeFor(types, item), true);
    PutGrows(t2, Slot(Cookware, Variety), CookwareVarietyFor(types, item), true);
    Grows3(t, t1, t2);
    Grows3(t, t2, r);
    if AllDistinct(t) {
      PutKeepsDistinct(t, Slot(Cookware, Category), GroupName(Cookware));
      PutKeepsDistinct(t1, Slot(Cookware, Kind), TypeFor(types, item));
      PutKeepsDistinct(t2, Slot(Cookware, Variety), CookwareVarietyFor(types, item));
    }
  }

  function CookwarePass(t: Tags, types: seq<Row>, items: seq<string>): Tags
    decreases |items|
  {
    if items == [] then t else CookwareStep(CookwarePass(t, types, items[..|items| - 1]), types, items[|items| - 1])
  }

  lemma {:induction false} CookwarePassFacts(t: Tags, types: seq<Row>, items: seq<string>)
    ensures var r := CookwarePass(t, types, items);
      Grows(t, r) && (AllDistinct(t) ==> AllDistinct(r))
      && (forall s: Slot :: s.group != Cookware ==> Get(r, s) == Get(t, s))
    decreases |items|
  {
    if items != [] {
      var before := CookwarePass(t, types, items[..|items| - 1]);
      CookwarePassFacts(t, types, items[..|items| - 1]);
      CookwareStepFacts(before, types, items[|items| - 1]);
      Grows3(t, before, CookwarePass(t, types, items));
    }
  }

  lemma {:induction false} CookwarePassExtendsPrefix(t: Tags, types: seq<Row>, items: seq<string>, n: nat)
    requires n <= |items|
    ensures Grows(CookwarePass(t, types, items[..n]), CookwarePass(t, types, items))
    decreases |items| - n
  {
    if n < |items| {
      var init := items[..|items| - 1];
      assert init[..n] == items[..n];
      CookwarePassExtendsPrefix(t, types, init, n);
      CookwareStepFacts(CookwarePass(t, types, init), types, items[|items| - 1]);
      Grows3(CookwarePass(t, types, items[..n]), CookwarePass(t, types, init), CookwarePass(t, types, items));
    } else {
      assert items[..n] == items;
    }
  }

  /** Every item adds 'cookware', its type (or 'other') and its variety (or the derived default). */
  lemma CookwarePassRecordsEachItem(t: Tags, types: seq<Row>, items: seq<string>, i: nat)
    requires i < |items|
    ensures var r := CookwarePass(t, types, items);
      GroupName(Cookware) in Get(r, Slot(Cookware, Category))
      && TypeFor(types, items[i]) in Get(r, Slot(Cookware, Kind))
      && CookwareVarietyFor(types, items[i]) in Get(r, Slot(Cookware, Variety))
  {
    assert items[..i + 1][..i] == items[..i];
    CookwareStepFacts(CookwarePass(t, types, items[..i]), types, items[i]);
    CookwarePassExtendsPrefix(t, types, items, i + 1);
    var step := CookwarePass(t, types, items[..i + 1]);
    var r := CookwarePass(t, types, items);
    GrowsIn(step, r, Slot(Cookware, Category), GroupName(Cookware));
    GrowsIn(step, r, Slot(Cookware, Kind), TypeFor(types, items[i]));
    GrowsIn(step, r, Slot(Cookware, Variety), CookwareVarietyFor(types, items[i]));
  }

  /** An item of no type gets 'other' and its own name, lower-cased with white-space runs as '_'. */
  lemma UntypedCookware(types: seq<Row>, item: string)
    requires FirstNamed(types, Lower(item)) < 0
    ensures TypeFor(types, item) == "other"
    ensures CookwareVarietyFor(types, item) == ReplaceSpaceRuns(Lower(item), '_')
    ensures forall i :: 0 <= i < |CookwareVarietyFor(types, item)| ==> !IsSpace(CookwareVarietyFor(types, item)[i])
  {
    ReplaceSpaceRunsNoSpace(Lower(item), '_');
  }

  method ScanCookwareItem(t: Tags, types: seq<Row>, item: string) returns (r: Tags)
    ensures r == CookwareStep(t, types, item)
  {
    var lower := Lower(item);
    r := Put(t, Slot(Cookware, Category), GroupName(Cookware), true);
    var k := FindFirstNamed(types, lower);
    var kind, variety;
    if k >= 0 {
      kind := types[k].name;
      var c := FindFirst(types[k].varieties, lower, true);
      if c >= 0 {
        variety := types[k].varieties[c];
      } else {
        variety := ReplaceSpaceRuns(lower, '_');
      }
    } else {
      kind := "other";
      variety := ReplaceSpaceRuns(lower, '_');
    }
    assert kind == TypeFor(types, item) && variety == CookwareVarietyFor(types, item);
    r := Put(r, Slot(Cookware, Kind), kind, true);
    r := Put(r, Slot(Cookware, Variety), variety, true);
  }

  lemma CookwarePassSnoc(t: Tags, types: seq<Row>, items: seq<string>, i: nat)
    requires i < |items|
    ensures CookwarePass(t, types, items[..i + 1]) == CookwareStep(CookwarePass(t, types, items[..i]), types, items[i])
  {
    assert items[..i + 1][..i] == items[..i];
  }

  method ScanCookware(t: Tags, types: seq<Row>, items: seq<string>) returns (r: Tags)
    ensures r == CookwarePass(t, types, items)
  {
    r := t;
    var i := 0;
    while i < |items|
      invariant 0 <= i <= |items|
      invariant r == CookwarePass(t, types, items[..i])
      decreases |items| - i
    {
      CookwarePassSnoc(t, types, items, i);
      r := ScanCookwareItem(r, types, items[i]);
      i := i + 1;
    }
    assert items[..|items|] == items;
  }

  method FindFirstNamed(rows: seq<Row>, text: string) returns (k: int)
    ensures k == FirstNamed(rows, text)
  {
    k := -1;
    var i := 0;
    while i < |rows|
      invariant 0 <= i <= |rows|
      invariant forall h :: 0 <= h < i ==> !Hit(text, rows[h].name, true)
      decreases |rows| - i
    {
      if Hit(text, rows[i].name, true) {
        k := i;
        break;
      }
      i := i + 1;
    }
  }

  // ---------------------------------------------------------------------
  // generateDetailedTags(recipe)
  // ---------------------------------------------------------------------

  /** `toLowerCase` is called on every tag and cookware element, so those columns must hold strings. */
  predicate Taggable(rec: RecipeRow) {
    TextColumn(rec.protein_tags) && TextColumn(rec.veggie_tags) && TextColumn(rec.required_cookware)
  }

  /** Ingredients first, then protein tags, veggie tags and required cookware, against the given tables. */
  function TaggedWith(rec: RecipeRow, rows: seq<Row>, types: seq<Row>): Detailed
    requires Taggable(rec)
  {
    var d := IngredientsPass(Empty, rows, ArrayItems(rec.ingredients));
    var t1 := TagPass(d.tags, Protein, StandardProtein, ArrayItems(rec.protein_tags), true);
    var t2 := TagPass(t1, Veggie, Veggies, ArrayItems(rec.veggie_tags), true);
    Detailed(CookwarePass(t2, types, Strs(ArrayItems(rec.required_cookware))), d.custom)
  }

  method GenerateDetailedTags(rec: RecipeRow, rows: seq<Row>, types: seq<Row>) returns (d: Detailed)
    requires Taggable(rec)
    ensures d == TaggedWith(rec, rows, types)
  {
    d := ScanIngredients(Empty, rows, ArrayItems(rec.ingredients));
    var t := ProcessTags(d.tags, Protein, StandardProtein, ArrayItems(rec.protein_tags), true);
    t := ProcessTags(t, Veggie, Veggies, ArrayItems(rec.veggie_tags), true);
    t := ScanCookware(t, types, Strs(ArrayItems(rec.required_cookware)));
    d := Detailed(t, d.custom);
  }

  /**
   * Every tag array is free of duplicates, and `custom_ingredients` lists,
   * in order, exactly the string ingredients no variety of the table matches.
   */
  lemma TaggedDistinct(rec: RecipeRow, rows: seq<Row>, types: seq<Row>)
    requires Taggable(rec)
    ensures AllDistinct(TaggedWith(rec, rows, types).tags)
    ensures TaggedWith(rec, rows, types).custom == Unmatched(rows, ArrayItems(rec.ingredients))
  {
    NoTagsDistinct();
    var d := IngredientsPass(Empty, rows, ArrayItems(rec.ingredients));
    IngredientsPassFacts(Empty, rows, ArrayItems(rec.ingredients));
    TagPassFacts(d.tags, Protein, StandardProtein, ArrayItems(rec.protein_tags), true);
    var t1 := TagPass(d.tags, Protein, StandardProtein, ArrayItems(rec.protein_tags), true);
    TagPassFacts(t1, Veggie, Veggies, ArrayItems(rec.veggie_tags), true);
    var t2 := TagPass(t1, Veggie, Veggies, ArrayItems(rec.veggie_tags), true);
    CookwarePassFacts(t2, types, Strs(ArrayItems(rec.required_cookware)));
  }

  /** Every required-cookware element leaves 'cookware', its type and its variety in the result. */
  lemma TaggedCookware(rec: RecipeRow, rows: seq<Row>, types: seq<Row>, i: nat)
    requires Taggable(rec) && i < |ArrayItems(rec.required_cookware)|
    ensures var r := TaggedWith(rec, rows, types).tags;
      var item := ArrayItems(rec.required_cookware)[i].s;
      "cookware" in Get(r, Slot(Cookware, Category))
      && TypeFor(types, item) in Get(r, Slot(Cookware, Kind))
      && CookwareVarietyFor(types, item) in Get(r, Slot(Cookware, Variety))
  {
    var d := IngredientsPass(Empty, rows, ArrayItems(rec.ingredients));
    var t1 := TagPass(d.tags, Protein, StandardProtein, ArrayItems(rec.protein_tags), true);
    var t2 := TagPass(t1, Veggie, Veggies, ArrayItems(rec.veggie_tags), true);
    assert Strs(ArrayItems(rec.required_cookware))[i] == ArrayItems(rec.required_cookware)[i].s;
    CookwarePassRecordsEachItem(t2, types, Strs(ArrayItems(rec.required_cookware)), i);
    CookwareName();
  }

  lemma CookwareName()
    ensures GroupName(Cookware) == "cookware"
  {
  }

  // ---------------------------------------------------------------------
  // updateRecipesWithDetailedTags: batches of ten rows `{id, ...tags}`
  // ---------------------------------------------------------------------

  datatype UpsertRow = UpsertRow(id: string, tags: Detailed)

  const BatchSize: nat := 10

  predicate AllTaggable(rs: seq<RecipeRow>) {
    forall k :: 0 <= k < |rs| ==> Taggable(rs[k])
  }

  /** One row `{id, ...generateDetailedTags(recipe)}` per recipe. */
  function UpsertRows(rs: seq<RecipeRow>, rows: seq<Row>, types: seq<Row>): (r: seq<UpsertRow>)
    requires AllTaggable(rs)
    ensures |r| == |rs|
    ensures forall k :: 0 <= k < |rs| ==> r[k] == UpsertRow(rs[k].id, TaggedWith(rs[k], rows, types))
  {
    seq(|rs|, k requires 0 <= k < |rs| => UpsertRow(rs[k].id, TaggedWith(rs[k], rows, types)))
  }

  /** Every batch of a list of taggable rows is taggable. */
  lemma BatchesTaggable(rs: seq<RecipeRow>, k: nat)
    requires AllTaggable(rs) && k < |Batches(rs, BatchSize)|
    ensures AllTaggable(Batches(rs, BatchSize)[k])
  {
    BatchAt(rs, BatchSize, k);
  }

  /** `batch.map(recipe => ({ id: recipe.id, ...generateDetailedTags(recipe) }))`. */
  method MapBatch(batch: seq<RecipeRow>, rows: seq<Row>, types: seq<Row>) returns (out: seq<UpsertRow>)
    requires AllTaggable(batch)
    ensures out == UpsertRows(batch, rows, types)
  {
    out := [];
    for i := 0 to |batch|
      invariant |out| == i
      invariant forall k :: 0 <= k < i ==> out[k] == UpsertRow(batch[k].id, TaggedWith(batch[k], rows, types))
    {
      var d := GenerateDetailedTags(batch[i], rows, types);
      out := out + [UpsertRow(batch[i].id, d)];
    }
  }

  /** The upsert payloads: batch `k` of the recipes, each row tagged. */
  method UpsertBatches(recipes: seq<RecipeRow>, rows: seq<Row>, types: seq<Row>) returns (upserts: seq<seq<UpsertRow>>)
    requires AllTaggable(recipes)
    ensures |upserts| == |Batches(recipes, BatchSize)|
    ensures forall k :: 0 <= k < |upserts| ==>
      AllTaggable(Batches(recipes, BatchSize)[k]) && upserts[k] == UpsertRows(Batches(recipes, BatchSize)[k], rows, types)
  {
    var batches := MakeBatches(recipes, BatchSize);
    upserts := [];
    var i := 0;
    while i < |batches|
      invariant 0 <= i <= |batches|
      invariant |upserts| == i
      invariant forall k :: 0 <= k < i ==>
        AllTaggable(batches[k]) && upserts[k] == UpsertRows(batches[k], rows, types)
      decreases |batches| - i
    {
      BatchesTaggable(recipes, i);
      var out := MapBatch(batches[i], rows, types);
      upserts := upserts + [out];
      i := i + 1;
    }
  }

  /** `updateRecipesWithDetailedTags` with the script's own tables. */
  method UpdateRecipesWithDetailedTags(recipes: seq<RecipeRow>) returns (upserts: seq<seq<UpsertRow>>)
    requires AllTaggable(recipes)
    ensures |upserts| == |Batches(recipes, BatchSize)|
    ensures forall k :: 0 <= k < |upserts| ==>
      AllTaggable(Batches(recipes, BatchSize)[k]) && upserts[k] == UpsertRows(Batches(recipes, BatchSize)[k], SupabaseRows, SupabaseCookware)
  {
    upserts := UpsertBatches(recipes, SupabaseRows, SupabaseCookware);
  }

  lemma UpsertRowsConcat(a: seq<RecipeRow>, b: seq<RecipeRow>, rows: seq<Row>, types: seq<Row>)
    requires AllTaggable(a) && AllTaggable(b)
    ensures AllTaggable(a + b) && UpsertRows(a + b, rows, types) == UpsertRows(a, rows, types) + UpsertRows(b, rows, types)
  {
    assert AllTaggable(a + b) by {
      forall k | 0 <= k < |a + b|
        ensures Taggable((a + b)[k])
      {
        if k >= |a| {
          assert (a + b)[k] == b[k - |a|];
        }
      }
    }
    var l := UpsertRows(a + b, rows, types);
    var r := UpsertRows(a, rows, types) + UpsertRows(b, rows, types);
    forall k | 0 <= k < |l|
      ensures l[k] == r[k]
    {
      if k >= |a| {
        assert (a + b)[k] == b[k - |a|];
      }
    }
  }

  lemma SliceTaggable(rs: seq<RecipeRow>, lo: nat, hi: nat)
    requires AllTaggable(rs) && lo <= hi <= |rs|
    ensures AllTaggable(rs[lo..hi])
  {
    forall k | 0 <= k < hi - lo
      ensures Taggable(rs[lo..hi][k])
    {
      assert rs[lo..hi][k] == rs[lo + k];
    }
  }

  /** Tagging a slice of the recipes gives the same slice of the tagged rows. */
  lemma UpsertRowsSlice(rs: seq<RecipeRow>, rows: seq<Row>, types: seq<Row>, lo: nat, hi: nat)
    requires AllTaggable(rs) && lo <= hi <= |rs|
    ensures AllTaggable(rs[lo..hi])
    ensures UpsertRows(rs[lo..hi], rows, types) == UpsertRows(rs, rows, types)[lo..hi]
  {
    SliceTaggable(rs, lo, hi);
    var l := UpsertRows(rs[lo..hi], rows, types);
    var r := UpsertRows(rs, rows, types)[lo..hi];
    forall k | 0 <= k < |l|
      ensures l[k] == r[k]
    {
      assert rs[lo..hi][k] == rs[lo + k];
    }
  }

  /** The rows upserted for batch `k` are batch `k` of the rows upserted for all recipes. */
  lemma UpsertBatchAt(recipes: seq<RecipeRow>, rows: seq<Row>, types: seq<Row>, k: nat)
    requires AllTaggable(recipes) && k < |Batches(recipes, BatchSize)|
    ensures AllTaggable(Batches(recipes, BatchSize)[k])
    ensures k < |Batches(UpsertRows(recipes, rows, types), BatchSize)|
    ensures UpsertRows(Batches(recipes, BatchSize)[k], rows, types) == Batches(UpsertRows(recipes, rows, types), BatchSize)[k]
  {
    var ys := UpsertRows(recipes, rows, types);
    BatchesSameShape(recipes, ys, BatchSize);
    BatchAt(recipes, BatchSize, k);
    BatchAt(ys, BatchSize, k);
    UpsertRowsSlice(recipes, rows, types, k * BatchSize, Min(k * BatchSize + BatchSize, |recipes|));
  }

  /** Laid end to end, the batches upsert one row per recipe, in order, at most ten at a time. */
  lemma UpsertsCoverAll(recipes: seq<RecipeRow>, rows: seq<Row>, types: seq<Row>, upserts: seq<seq<UpsertRow>>)
    requires AllTaggable(recipes)
    requires |upserts| == |Batches(recipes, BatchSize)|
    requires forall k :: 0 <= k < |upserts| ==>
      AllTaggable(Batches(recipes, BatchSize)[k]) && upserts[k] == UpsertRows(Batches(recipes, BatchSize)[k], rows, types)
    ensures Flatten(upserts) == UpsertRows(recipes, rows, types)
    ensures forall k :: 0 <= k < |upserts| ==> 0 < |upserts[k]| <= BatchSize
  {
    var ys := UpsertRows(recipes, rows, types);
    BatchesSameShape(recipes, ys, BatchSize);
    forall k | 0 <= k < |upserts|
      ensures upserts[k] == Batches(ys, BatchSize)[k]
    {
      UpsertBatchAt(recipes, rows, types, k);
    }
    assert upserts == Batches(ys, BatchSize);
    FlattenBatches(ys, BatchSize);
    BatchSizes(ys, BatchSize);
  }
}
