/**
 * `scripts/fix-recipe-names.js`: every row whose name is null gets a name made
 * from its first three ingredients, or 'Unknown Recipe', except that the
 * Mansaf recipe is named 'Mansaf'. The script recognises Mansaf by comparing
 * the whole id with a 33-character fragment; the fix loop follows that test,
 * and `RepairedName` is the rule with the containment test evidently meant.
 */
module RecipeNameRepair {
  import opened Wrappers
  import opened Strings
  import opened Records

  /** The id fragment the script compares recipe ids with. */
  const SpecialId := "17562-3038-4e4e-8e72-85fa66c20ea5"

  const DefaultName := "Unknown Recipe"

  /** How `Array.prototype.join` renders an element: null and undefined as "", any object as "[object Object]". */
  function JoinText(i: Item): string {
    match i
    case Text(s) => s
    case Named(_) => "[object Object]"
    case Nullish => ""
  }

  function JoinTexts(items: seq<Item>): (r: seq<string>)
    ensures |r| == |items|
    ensures forall k :: 0 <= k < |items| ==> r[k] == JoinText(items[k])
  {
    seq(|items|, k requires 0 <= k < |items| => JoinText(items[k]))
  }

  /** `ingredients.slice(0, 3)`. */
  function Leading(items: seq<Item>): (r: seq<Item>)
    ensures |r| == (if |items| < 3 then |items| else 3)
    ensures r == items[..|r|]
  {
    if |items| < 3 then items else items[..3]
  }

  /** `mainIngredients.join(', ') + ' Recipe'`, used for a non-empty ingredients array. */
  function IngredientName(items: seq<Item>): string {
    Join(JoinTexts(Leading(items)), ", ") + " Recipe"
  }

  /**
   * The script's rule, id test as written (`recipe.id === SpecialId`): 'Mansaf'
   * exactly for that id; otherwise the ingredient name, which ends in " Recipe",
   * for a non-empty ingredients array, and 'Unknown Recipe' for anything else.
   */
  function NameAsWritten(rec: NameRow): (r: string)
    ensures r == "Mansaf" <==> rec.id == SpecialId
    ensures rec.id != SpecialId && rec.ingredients.Items? && |rec.ingredients.items| > 0 ==>
      IsSuffix(" Recipe", r) && IsPrefix(JoinText(rec.ingredients.items[0]), r)
    ensures rec.id != SpecialId && !(rec.ingredients.Items? && |rec.ingredients.items| > 0) ==> r == DefaultName
  {
    if rec.id == SpecialId then "Mansaf"
    else if rec.ingredients.Items? && |rec.ingredients.items| > 0 then
      IngredientNameFacts(rec.ingredients.items);
      IngredientName(rec.ingredients.items)
    else DefaultName
  }

  /** The ingredient name starts with the first ingredient as `join` renders it and ends in " Recipe". */
  lemma IngredientNameFacts(items: seq<Item>)
    requires |items| > 0
    ensures IsSuffix(" Recipe", IngredientName(items)) && IngredientName(items) != "Mansaf"
    ensures IsPrefix(JoinText(items[0]), IngredientName(items))
  {
    var parts := JoinTexts(Leading(items));
    var j := Join(parts, ", ");
    RecipeSuffix(j);
    JoinStartsWithFirst(parts, ", ");
    assert IsPrefix(parts[0], j + " Recipe") by {
      assert (j + " Recipe")[..|parts[0]|] == j[..|parts[0]|];
    }
  }

  /** The Mansaf test as the sibling repair scripts write it: the id contains the fragment. */
  predicate IsSpecial(id: string) {
    Contains(id, SpecialId)
  }

  /** The rule with the containment test. */
  function RepairedName(rec: NameRow): string {
    if IsSpecial(rec.id) then "Mansaf"
    else if rec.ingredients.Items? && |rec.ingredients.items| > 0 then IngredientName(rec.ingredients.items)
    else DefaultName
  }

  lemma {:induction false} RecipeSuffix(x: string)
    ensures IsSuffix(" Recipe", x + " Recipe") && x + " Recipe" != "Mansaf"
  {
    assert (x + " Recipe")[|x|..] == " Recipe";
    assert |x + " Recipe"| >= 7;
  }

  /** As written, an id of uuid length (36 characters) never gets 'Mansaf': the fragment has 33. */
  lemma AsWrittenNeverMatchesUuid(rec: NameRow)
    requires |rec.id| == 36
    ensures NameAsWritten(rec) != "Mansaf"
  {
    assert |rec.id| != |SpecialId|;
  }

  /** A uuid ending in the fragment, one ingredient 'lamb': as written it is named 'lamb Recipe', with containment 'Mansaf'. */
  lemma AsWrittenMissesMansaf()
    ensures var rec := NameRow("a00" + SpecialId, None, Items([Text("lamb")]));
      |rec.id| == 36 && NameAsWritten(rec) == "lamb Recipe" && RepairedName(rec) == "Mansaf"
  {
    var rec := NameRow("a00" + SpecialId, None, Items([Text("lamb")]));
    assert rec.id[3..3 + |SpecialId|] == SpecialId;
    ContainsAt(rec.id, SpecialId, 3);
    assert Leading([Text("lamb")]) == [Text("lamb")];
    assert JoinTexts([Text("lamb")]) == ["lamb"];
  }

  /** 'Mansaf' is given exactly to ids containing the fragment; every other name ends in " Recipe". */
  lemma RepairedNameMansafIff(rec: NameRow)
    ensures RepairedName(rec) == "Mansaf" <==> IsSpecial(rec.id)
    ensures !IsSpecial(rec.id) ==> IsSuffix(" Recipe", RepairedName(rec))
  {
    if !IsSpecial(rec.id) {
      if rec.ingredients.Items? && |rec.ingredients.items| > 0 {
        IngredientNameFacts(rec.ingredients.items);
      } else {
        assert DefaultName[7..] == " Recipe";
      }
    }
  }

  /**
   * Away from Mansaf, a non-empty ingredients array names the recipe after its
   * first ingredient as `join` renders it, drawing on at most three of them;
   * any other column gives 'Unknown Recipe'.
   */
  lemma RepairedNameFromIngredients(rec: NameRow)
    requires !IsSpecial(rec.id)
    ensures rec.ingredients.Items? && |rec.ingredients.items| > 0 ==>
      IsPrefix(JoinText(rec.ingredients.items[0]), RepairedName(rec))
      && RepairedName(rec) == Join(JoinTexts(rec.ingredients.items[..if |rec.ingredients.items| < 3 then |rec.ingredients.items| else 3]), ", ") + " Recipe"
    ensures !(rec.ingredients.Items? && |rec.ingredients.items| > 0) ==> RepairedName(rec) == DefaultName
  {
    if rec.ingredients.Items? && |rec.ingredients.items| > 0 {
      IngredientNameFacts(rec.ingredients.items);
    }
  }

  /**
   * The two rules differ only on ids that contain the fragment without being
   * equal to it: there the script's test misses and the corrected one names 'Mansaf'.
   */
  lemma AsWrittenDiffersOnlyOnLongerIds(rec: NameRow)
    ensures NameAsWritten(rec) != RepairedName(rec) <==> IsSpecial(rec.id) && rec.id != SpecialId
  {
    if rec.id == SpecialId {
      ContainsSelf(SpecialId);
    }
    RepairedNameMansafIff(rec);
  }

  // ---------------------------------------------------------------------
  // the fix loop
  // ---------------------------------------------------------------------

  /** `.is('name', null)`: the rows the script fetches, in table order. */
  function NullNameRows(rows: seq<NameRow>): (r: seq<NameRow>) {
    if rows == [] then []
    else NullNameRows(rows[..|rows| - 1]) + (if rows[|rows| - 1].name.None? then [rows[|rows| - 1]] else [])
  }

  /** Exactly the null-named rows are fetched. */
  lemma {:induction false} NullNameRowsMembers(rows: seq<NameRow>)
    ensures forall r :: r in NullNameRows(rows) <==> r in rows && r.name.None?
    decreases |rows|
  {
    if rows != [] {
      var init := rows[..|rows| - 1];
      NullNameRowsMembers(init);
      assert rows == init + [rows[|rows| - 1]];
    }
  }

  /** Update `k` renames fetched row `k` by the script's rule. */
  predicate RenamesFor(ups: seq<Rename>, fetched: seq<NameRow>) {
    |ups| == |fetched| && forall k :: 0 <= k < |ups| ==> ups[k] == Rename(fetched[k].id, NameAsWritten(fetched[k]))
  }

  /** One loop round: `recipeName` is the default, then the joined ingredients, then the Mansaf override. */
  method NameRecipe(rec: NameRow) returns (recipeName: string)
    ensures recipeName == NameAsWritten(rec)
  {
    recipeName := DefaultName;
    if rec.ingredients.Items? && |rec.ingredients.items| > 0 {
      var mainIngredients := Leading(rec.ingredients.items);
      recipeName := Join(JoinTexts(mainIngredients), ", ") + " Recipe";
    }
    if rec.id == SpecialId {
      recipeName := "Mansaf";
    }
  }

  /** `fixRecipeNames`: one update per null-named row, in the order fetched. */
  method FixRecipeNames(rows: seq<NameRow>) returns (ups: seq<Rename>)
    ensures RenamesFor(ups, NullNameRows(rows))
  {
    var fetched := NullNameRows(rows);
    ups := [];
    for k := 0 to |fetched|
      invariant RenamesFor(ups, fetched[..k])
    {
      var recipeName := NameRecipe(fetched[k]);
      ups := ups + [Rename(fetched[k].id, recipeName)];
    }
    assert fetched[..|fetched|] == fetched;
  }

  /** Every row with a null name, and no other, is renamed. */
  lemma RenamedExactlyNullNames(rows: seq<NameRow>, ups: seq<Rename>)
    requires RenamesFor(ups, NullNameRows(rows))
    ensures forall r :: r in rows && r.name.None? ==> Rename(r.id, NameAsWritten(r)) in ups
    ensures forall u :: u in ups ==> exists r :: r in rows && r.name.None? && u == Rename(r.id, NameAsWritten(r))
  {
    NullNameRowsMembers(rows);
    var fetched := NullNameRows(rows);
    forall r | r in rows && r.name.None?
      ensures Rename(r.id, NameAsWritten(r)) in ups
    {
      var k :| 0 <= k < |fetched| && fetched[k] == r;
      assert ups[k] == Rename(r.id, NameAsWritten(r));
    }
    forall u | u in ups
      ensures exists r :: r in rows && r.name.None? && u == Rename(r.id, NameAsWritten(r))
    {
      var k :| 0 <= k < |ups| && ups[k] == u;
      assert fetched[k] in fetched;
    }
  }
}
