/**
 * `scripts/fix-all-null-names.js`: pick the recipes with a falsy name, add the
 * ones whose id contains one of two known partial ids, and give each picked
 * recipe a name derived from its id or its first ingredient. When nothing is
 * picked the script falls back to a bulk update with 'Unknown Recipe'.
 * Recipes are identified by their position in the fetched list, which is what
 * the object identity of `problematicRecipes.includes(recipe)` amounts to.
 */
module NullNameRepair {
  import opened Wrappers
  import opened Strings
  import opened Records

  /** `knownProblematicIds`, in declaration order. */
  const KnownProblematicIds: seq<string> := ["b3918562-3038-4e4e-8e72-85fa66c20ea5", "691-83da-4509-8d06-c8e53e583f6e"]

  /** The id fragment that marks the Mansaf recipe. */
  const MansafMarker := "b3918562-3038"

  const DefaultName := "Unknown Recipe"

  /** `!recipe.name`. */
  predicate Falsy(name: Option<string>) {
    name.None? || name.value == ""
  }

  /** `recipe.id && recipe.id.toString().includes(part)`. */
  predicate IdMatches(rec: NameRow, part: string) {
    rec.id != "" && Contains(rec.id, part)
  }

  predicate Distinct(s: seq<nat>) {
    forall a, b :: 0 <= a < b < |s| ==> s[a] != s[b]
  }

  predicate Increasing(s: seq<nat>) {
    forall a, b :: 0 <= a < b < |s| ==> s[a] < s[b]
  }

  // ---------------------------------------------------------------------
  // the selection
  // ---------------------------------------------------------------------

  /** The positions among the first `n` rows whose name is falsy: the first loop after `n` rounds. */
  function NullNamed(rows: seq<NameRow>, n: nat): seq<nat>
    requires n <= |rows|
  {
    if n == 0 then []
    else NullNamed(rows, n - 1) + (if Falsy(rows[n - 1].name) then [n - 1] else [])
  }

  /** The positions among the first `n` rows the `filter` keeps for `part`, given the selection `sel` so far. */
  function Matches(rows: seq<NameRow>, n: nat, part: string, sel: seq<nat>): seq<nat>
    requires n <= |rows|
  {
    if n == 0 then []
    else Matches(rows, n - 1, part, sel) + (if IdMatches(rows[n - 1], part) && n - 1 !in sel then [n - 1] else [])
  }

  /** The selection after the first loop and `m` rounds of the known-id loop. */
  function Selection(rows: seq<NameRow>, parts: seq<string>, m: nat): seq<nat>
    requires m <= |parts|
  {
    if m == 0 then NullNamed(rows, |rows|)
    else
      var sel := Selection(rows, parts, m - 1);
      sel + Matches(rows, |rows|, parts[m - 1], sel)
  }

  /** `problematicRecipes`, as positions in the fetched list. */
  function Problematic(rows: seq<NameRow>): seq<nat> {
    Selection(rows, KnownProblematicIds, |KnownProblematicIds|)
  }

  /** The first loop keeps exactly the falsy-named positions, in increasing order. */
  lemma {:induction false} NullNamedFacts(rows: seq<NameRow>, n: nat)
    requires n <= |rows|
    ensures Increasing(NullNamed(rows, n))
    ensures forall j: nat :: j in NullNamed(rows, n) <==> j < n && Falsy(rows[j].name)
  {
    if n > 0 {
      NullNamedFacts(rows, n - 1);
      var s := NullNamed(rows, n - 1);
      assert forall a :: 0 <= a < |s| ==> s[a] in s;
    }
  }

  /** The `filter` keeps exactly the matching positions not yet selected, in increasing order. */
  lemma {:induction false} MatchesFacts(rows: seq<NameRow>, n: nat, part: string, sel: seq<nat>)
    requires n <= |rows|
    ensures Increasing(Matches(rows, n, part, sel))
    ensures forall j: nat :: j in Matches(rows, n, part, sel) <==> j < n && IdMatches(rows[j], part) && j !in sel
  {
    if n > 0 {
      MatchesFacts(rows, n - 1, part, sel);
      var s := Matches(rows, n - 1, part, sel);
      var hit := IdMatches(rows[n - 1], part) && n - 1 !in sel;
      assert Matches(rows, n, part, sel) == s + (if hit then [n - 1] else []);
      if hit {
        forall a | 0 <= a < |s| ensures s[a] < n - 1 {
          assert s[a] in s;
        }
        IncreasingSnoc(s, n - 1);
      } else {
        assert s + [] == s;
      }
    }
  }

  lemma IncreasingSnoc(s: seq<nat>, x: nat)
    requires Increasing(s) && forall a :: 0 <= a < |s| ==> s[a] < x
    ensures Increasing(s + [x])
  {
  }

  lemma IncreasingDistinct(s: seq<nat>)
    requires Increasing(s)
    ensures Distinct(s)
  {
  }

  /** Appending positions that are distinct among themselves and not yet present keeps a selection distinct. */
  lemma AppendDistinct(a: seq<nat>, b: seq<nat>)
    requires Distinct(a) && Distinct(b)
    requires forall j: nat :: j in b ==> j !in a
    ensures Distinct(a + b)
  {
    var c := a + b;
    forall x, y | 0 <= x < y < |c|
      ensures c[x] != c[y]
    {
      if y >= |a| && x < |a| {
        assert c[y] == b[y - |a|] && c[x] == a[x];
        assert c[y] in b;
      } else if x >= |a| {
        assert c[x] == b[x - |a|] && c[y] == b[y - |a|];
      }
    }
  }

  /** Position `j` has a falsy name or an id containing one of the first `m` partial ids. */
  predicate Picked(rows: seq<NameRow>, parts: seq<string>, m: nat, j: nat)
    requires m <= |parts|
  {
    j < |rows| && (Falsy(rows[j].name) || exists k :: 0 <= k < m && IdMatches(rows[j], parts[k]))
  }

  /** After `m` rounds a position is selected exactly when it is picked. */
  lemma {:induction false} SelectionMembers(rows: seq<NameRow>, parts: seq<string>, m: nat)
    requires m <= |parts|
    ensures forall j: nat :: j in Selection(rows, parts, m) <==> Picked(rows, parts, m, j)
  {
    NullNamedFacts(rows, |rows|);
    if m > 0 {
      SelectionMembers(rows, parts, m - 1);
      var sel := Selection(rows, parts, m - 1);
      MatchesFacts(rows, |rows|, parts[m - 1], sel);
      forall j: nat
        ensures j in Selection(rows, parts, m) <==> Picked(rows, parts, m, j)
      {
        if Picked(rows, parts, m, j) && !Picked(rows, parts, m - 1, j) {
          var k :| 0 <= k < m && IdMatches(rows[j], parts[k]);
          assert k == m - 1;
        }
        if Picked(rows, parts, m - 1, j) && !Falsy(rows[j].name) {
          var k :| 0 <= k < m - 1 && IdMatches(rows[j], parts[k]);
          assert 0 <= k < m;
        }
      }
    }
  }

  /** After `m` rounds no position is selected twice. */
  lemma {:induction false} SelectionDistinct(rows: seq<NameRow>, parts: seq<string>, m: nat)
    requires m <= |parts|
    ensures Distinct(Selection(rows, parts, m))
  {
    if m == 0 {
      NullNamedFacts(rows, |rows|);
      IncreasingDistinct(NullNamed(rows, |rows|));
    } else {
      SelectionDistinct(rows, parts, m - 1);
      var sel := Selection(rows, parts, m - 1);
      var more := Matches(rows, |rows|, parts[m - 1], sel);
      MatchesFacts(rows, |rows|, parts[m - 1], sel);
      IncreasingDistinct(more);
      AppendDistinct(sel, more);
    }
  }

  /** The falsy-named positions stay at the front of the selection. */
  lemma {:induction false} SelectionStartsWithNullNamed(rows: seq<NameRow>, parts: seq<string>, m: nat)
    requires m <= |parts|
    ensures StartsWith(Selection(rows, parts, m), NullNamed(rows, |rows|))
  {
    if m > 0 {
      SelectionStartsWithNullNamed(rows, parts, m - 1);
      SelectionKeepsPrefix(rows, parts, m, NullNamed(rows, |rows|));
    }
  }

  /** `base` is the front of `s`. */
  predicate StartsWith(s: seq<nat>, base: seq<nat>) {
    |base| <= |s| && s[..|base|] == base
  }

  /** One round of the known-id loop only appends. */
  lemma SelectionKeepsPrefix(rows: seq<NameRow>, parts: seq<string>, m: nat, base: seq<nat>)
    requires 0 < m <= |parts|
    requires StartsWith(Selection(rows, parts, m - 1), base)
    ensures StartsWith(Selection(rows, parts, m), base)
  {
    var sel := Selection(rows, parts, m - 1);
    var more := Matches(rows, |rows|, parts[m - 1], sel);
    assert Selection(rows, parts, m) == sel + more;
    assert (sel + more)[..|base|] == sel[..|base|];
  }

  /**
   * The selection the script fixes: no recipe twice, the falsy-named ones
   * first and in list order, and exactly the recipes with a falsy name or an
   * id containing a known partial id.
   */
  lemma ProblematicFacts(rows: seq<NameRow>)
    ensures var sel := Problematic(rows);
      var base := NullNamed(rows, |rows|);
      Distinct(sel)
      && |base| <= |sel| && sel[..|base|] == base
      && forall j: nat :: j in sel <==>
           j < |rows| && (Falsy(rows[j].name) || IdMatches(rows[j], KnownProblematicIds[0]) || IdMatches(rows[j], KnownProblematicIds[1]))
  {
    var parts := KnownProblematicIds;
    SelectionMembers(rows, parts, |parts|);
    SelectionDistinct(rows, parts, |parts|);
    SelectionStartsWithNullNamed(rows, parts, |parts|);
    forall j: nat
      ensures Picked(rows, parts, |parts|, j) <==>
        j < |rows| && (Falsy(rows[j].name) || IdMatches(rows[j], parts[0]) || IdMatches(rows[j], parts[1]))
    {
      if j < |rows| && IdMatches(rows[j], parts[1]) {
        assert 0 <= 1 < |parts|;
      }
      if j < |rows| && IdMatches(rows[j], parts[0]) {
        assert 0 <= 0 < |parts|;
      }
    }
  }

  /** The two loops that fill `problematicRecipes`. */
  method SelectProblematic(rows: seq<NameRow>) returns (sel: seq<nat>)
    ensures sel == Problematic(rows)
  {
    sel := [];
    for i := 0 to |rows|
      invariant sel == NullNamed(rows, i)
    {
      if Falsy(rows[i].name) {
        sel := sel + [i];
      }
    }
    for k := 0 to |KnownProblematicIds|
      invariant sel == Selection(rows, KnownProblematicIds, k)
    {
      var matches := Matches(rows, |rows|, KnownProblematicIds[k], sel);
      sel := sel + matches;
    }
  }

  // ---------------------------------------------------------------------
  // the name rule
  // ---------------------------------------------------------------------

  /** A string first ingredient, or the truthy `.name` of an object first ingredient, of a non-empty array. */
  function FirstLabel(ingredients: ListField): Option<string> {
    if ingredients.Items? && |ingredients.items| > 0 then
      match ingredients.items[0]
      case Text(s) => Some(s)
      case Named(n) => if n != "" then Some(n) else None
      case Nullish => None
    else None
  }

  /** The name given to a picked recipe. */
  function DerivedName(rec: NameRow): string {
    if IdMatches(rec, MansafMarker) then "Mansaf"
    else if FirstLabel(rec.ingredients).Some? then FirstLabel(rec.ingredients).value + " Recipe"
    else DefaultName
  }

  lemma {:induction false} RecipeSuffixNotMansaf(x: string)
    ensures x + " Recipe" != "Mansaf"
  {
    assert |x + " Recipe"| >= 7;
  }

  /** 'Mansaf' is given exactly to ids containing the marker: every other name ends in " Recipe". */
  lemma DerivedNameMansafIff(rec: NameRow)
    ensures DerivedName(rec) == "Mansaf" <==> IdMatches(rec, MansafMarker)
    ensures !IdMatches(rec, MansafMarker) ==> IsSuffix(" Recipe", DerivedName(rec))
  {
    if !IdMatches(rec, MansafMarker) {
      if FirstLabel(rec.ingredients).Some? {
        RecipeSuffixNotMansaf(FirstLabel(rec.ingredients).value);
        var x := FirstLabel(rec.ingredients).value;
        assert (x + " Recipe")[|x|..] == " Recipe";
      } else {
        assert DefaultName[7..] == " Recipe";
      }
    }
  }

  /**
   * Away from the Mansaf id, the name is the first ingredient's string or
   * truthy name followed by " Recipe", and 'Unknown Recipe' exactly when the
   * column is not a non-empty array or its first element is neither.
   */
  lemma DerivedNameFromFirstIngredient(rec: NameRow)
    requires !IdMatches(rec, MansafMarker)
    ensures rec.ingredients.Items? && |rec.ingredients.items| > 0 && rec.ingredients.items[0].Text? ==>
      DerivedName(rec) == rec.ingredients.items[0].s + " Recipe"
    ensures rec.ingredients.Items? && |rec.ingredients.items| > 0
        && rec.ingredients.items[0].Named? && rec.ingredients.items[0].name != ""
      ==> DerivedName(rec) == rec.ingredients.items[0].name + " Recipe"
    ensures DerivedName(rec) == DefaultName <==> FirstLabel(rec.ingredients) == None || FirstLabel(rec.ingredients) == Some("Unknown")
  {
    if FirstLabel(rec.ingredients).Some? {
      var x := FirstLabel(rec.ingredients).value;
      if x + " Recipe" == DefaultName {
        assert |x| == 7;
        assert x == (x + " Recipe")[..7] == DefaultName[..7];
        assert DefaultName[..7] == "Unknown";
      }
    }
  }

  // ---------------------------------------------------------------------
  // the fix
  // ---------------------------------------------------------------------

  /** What the script sends: one update per picked recipe, or the bulk fallback. */
  datatype Plan = Renames(updates: seq<Rename>) | NullNameFallback(defaultName: string)

  /** Update `k` renames picked recipe `k` with its derived name. */
  predicate RenamesFor(ups: seq<Rename>, rows: seq<NameRow>, sel: seq<nat>) {
    |ups| == |sel|
    && forall k :: 0 <= k < |sel| ==> sel[k] < |rows| && ups[k] == Rename(rows[sel[k]].id, DerivedName(rows[sel[k]]))
  }

  /** The body of the fix loop for one recipe: `recipeName` starts at the default and is overwritten by the branches. */
  method NameRecipe(rec: NameRow) returns (recipeName: string)
    ensures recipeName == DerivedName(rec)
  {
    recipeName := DefaultName;
    if rec.id != "" && Contains(rec.id, MansafMarker) {
      recipeName := "Mansaf";
    } else if rec.ingredients.Items? && |rec.ingredients.items| > 0 {
      var first := rec.ingredients.items[0];
      if first.Text? {
        recipeName := first.s + " Recipe";
      } else if first.Named? && first.name != "" {
        recipeName := first.name + " Recipe";
      }
    }
  }

  /** `fixAllNullNames`: the updates for the picked recipes, or the fallback when none is picked. */
  method FixAllNullNames(rows: seq<NameRow>) returns (plan: Plan)
    ensures Problematic(rows) == [] ==> plan == NullNameFallback(DefaultName)
    ensures Problematic(rows) != [] ==> plan.Renames? && RenamesFor(plan.updates, rows, Problematic(rows))
  {
    var sel := SelectProblematic(rows);
    ProblematicInRange(rows);
    if |sel| == 0 {
      return NullNameFallback(DefaultName);
    }
    var ups: seq<Rename> := [];
    for k := 0 to |sel|
      invariant RenamesFor(ups, rows, sel[..k])
    {
      var recipeName := NameRecipe(rows[sel[k]]);
      ups := ups + [Rename(rows[sel[k]].id, recipeName)];
      assert forall q :: 0 <= q < k ==> sel[..k + 1][q] == sel[..k][q];
    }
    assert sel[..|sel|] == sel;
    plan := Renames(ups);
  }

  /** Every selected position is a row of the list. */
  lemma ProblematicInRange(rows: seq<NameRow>)
    ensures forall k :: 0 <= k < |Problematic(rows)| ==> Problematic(rows)[k] < |rows|
  {
    ProblematicFacts(rows);
    var sel := Problematic(rows);
    forall k | 0 <= k < |sel| ensures sel[k] < |rows| {
      assert sel[k] in sel;
    }
  }

  /** Every recipe with a falsy name gets an update carrying its derived name. */
  lemma FalsyNamesRenamed(rows: seq<NameRow>, ups: seq<Rename>, j: nat)
    requires RenamesFor(ups, rows, Problematic(rows))
    requires j < |rows| && Falsy(rows[j].name)
    ensures exists k :: 0 <= k < |ups| && ups[k] == Rename(rows[j].id, DerivedName(rows[j]))
  {
    ProblematicFacts(rows);
    var sel := Problematic(rows);
    var k :| 0 <= k < |sel| && sel[k] == j;
    assert ups[k] == Rename(rows[j].id, DerivedName(rows[j]));
  }

  /** The fallback runs exactly when no name is falsy and no id contains a known partial id. */
  lemma FallbackIff(rows: seq<NameRow>)
    ensures Problematic(rows) == [] <==>
      forall j :: 0 <= j < |rows| ==>
        !Falsy(rows[j].name) && !IdMatches(rows[j], KnownProblematicIds[0]) && !IdMatches(rows[j], KnownProblematicIds[1])
  {
    ProblematicFacts(rows);
    var sel := Problematic(rows);
    if sel != [] {
      assert sel[0] in sel;
    }
  }
}
