/**
 * `scripts/generate-recipe-update-sql.js`: every recipe's `required_cookware`
 * is classified into the three cookware arrays, and each recipe with a
 * non-empty array yields one `UPDATE` statement. The statements are wrapped
 * in `BEGIN;` / `COMMIT;` under a two-line header comment. A non-string
 * cookware element makes `toLowerCase` throw, and then no SQL text is produced.
 */
module RecipeUpdateSql {
  import opened Wrappers
  import opened Strings
  import opened Records
  import opened Taxonomy
  import opened TagTables

  const CategorySlot: Slot := Slot(Cookware, Category)
  const TypeSlot: Slot := Slot(Cookware, Kind)
  const VarietySlot: Slot := Slot(Cookware, Variety)

  // ---------------------------------------------------------------------
  // classification
  // ---------------------------------------------------------------------

  /** `Array.isArray(recipe.required_cookware) && recipe.required_cookware.length > 0`. */
  predicate HasCookware(rec: RecipeRow) {
    rec.required_cookware.Items? && |rec.required_cookware.items| > 0
  }

  /** The classification loop does not throw: it only reads a non-empty array, and then every element is a string. */
  predicate Classifiable(rec: RecipeRow) {
    HasCookware(rec) ==> AllText(rec.required_cookware.items)
  }

  /**
   * The three cookware arrays of one recipe: 'cookware' once, then for each
   * item the first type whose name or synonyms it contains (all terms
   * lower-cased) and that type's first contained variety, each pushed only
   * if absent. `None` when an element is not a string.
   */
  function CookwareTags(rec: RecipeRow, keys: seq<Keyed>): Option<Tags> {
    if !HasCookware(rec) then Some(NoTags)
    else if !AllText(rec.required_cookware.items) then None
    else Some(KeyedPass(Put(NoTags, CategorySlot, GroupName(Cookware), true), keys, rec.required_cookware.items, false, true, true))
  }

  lemma CookwareName()
    ensures GroupName(Cookware) == "cookware"
  {
  }

  /** A pass whose pushes are guarded leaves a category array that already holds 'cookware' as it is. */
  lemma {:induction false} KeyedPassKeepsCategory(t: Tags, keys: seq<Keyed>, items: seq<Item>, always: bool, lowerTerms: bool)
    requires GroupName(Cookware) in Get(t, CategorySlot)
    ensures Get(KeyedPass(t, keys, items, always, true, lowerTerms), CategorySlot) == Get(t, CategorySlot)
    decreases |items|
  {
    if items != [] {
      var before := KeyedPass(t, keys, items[..|items| - 1], always, true, lowerTerms);
      KeyedPassKeepsCategory(t, keys, items[..|items| - 1], always, lowerTerms);
      var item := items[|items| - 1];
      if item.Text? {
        var text := Lower(item.s);
        var k := FirstKeyed(keys, text, lowerTerms);
        var t1 := Put(before, CategorySlot, GroupName(Cookware), true);
        assert t1 == before;
        if k >= 0 {
          TypedStepFacts(t1, keys[k], text, true, lowerTerms);
        }
      }
    }
  }

  /** The classifier fails exactly on a non-empty array holding a non-string. */
  lemma CookwareTagsFails(rec: RecipeRow, keys: seq<Keyed>)
    ensures CookwareTags(rec, keys).None? <==> !Classifiable(rec)
  {
  }

  /** `cookware_category` is ['cookware'] exactly when `required_cookware` is a non-empty array, and [] otherwise. */
  lemma CategoryExactlyCookware(rec: RecipeRow, keys: seq<Keyed>)
    requires Classifiable(rec)
    ensures var t := CookwareTags(rec, keys).value;
      Get(t, CategorySlot) == (if HasCookware(rec) then ["cookware"] else [])
  {
    CookwareName();
    if HasCookware(rec) {
      var t0 := Put(NoTags, CategorySlot, GroupName(Cookware), true);
      KeyedPassKeepsCategory(t0, keys, rec.required_cookware.items, false, true);
    }
  }

  /** A recipe without a non-empty cookware array gets no type and no variety; one with it touches no other group. */
  lemma OnlyCookwareColumns(rec: RecipeRow, keys: seq<Keyed>)
    requires Classifiable(rec)
    ensures var t := CookwareTags(rec, keys).value;
      (forall s: Slot :: s.group != Cookware ==> Get(t, s) == [])
      && (!HasCookware(rec) ==> Get(t, TypeSlot) == [] && Get(t, VarietySlot) == [])
      && AllDistinct(t)
  {
    NoTagsDistinct();
    if HasCookware(rec) {
      var t0 := Put(NoTags, CategorySlot, GroupName(Cookware), true);
      PutKeepsDistinct(NoTags, CategorySlot, GroupName(Cookware));
      KeyedPassFacts(t0, keys, rec.required_cookware.items, false, true, true);
    }
  }

  /** Each item adds the first type it falls under and that type's first contained variety. */
  lemma EachItemClassified(rec: RecipeRow, keys: seq<Keyed>, i: nat)
    requires Classifiable(rec) && HasCookware(rec) && i < |rec.required_cookware.items|
    ensures var t := CookwareTags(rec, keys).value;
      var item := rec.required_cookware.items[i];
      var k := KeyOfItem(keys, item, true);
      (k >= 0 ==> keys[k].name in Get(t, TypeSlot))
      && (k >= 0 && FirstContained(keys[k].varieties, Lower(item.s), true) >= 0 ==>
            keys[k].varieties[FirstContained(keys[k].varieties, Lower(item.s), true)] in Get(t, VarietySlot))
  {
    var t0 := Put(NoTags, CategorySlot, GroupName(Cookware), true);
    KeyedPassTagsEachItem(t0, keys, rec.required_cookware.items, false, true, true, i);
  }

  /** `cookware_type` is non-empty exactly when some item falls under a type. */
  lemma TypesIffSomeMatch(rec: RecipeRow, keys: seq<Keyed>)
    requires Classifiable(rec)
    ensures var t := CookwareTags(rec, keys).value;
      Get(t, TypeSlot) != [] <==>
        HasCookware(rec) && exists i :: 0 <= i < |rec.required_cookware.items| && KeyOfItem(keys, rec.required_cookware.items[i], true) >= 0
  {
    var t := CookwareTags(rec, keys).value;
    if HasCookware(rec) {
      var items := rec.required_cookware.items;
      var t0 := Put(NoTags, CategorySlot, GroupName(Cookware), true);
      if i :| 0 <= i < |items| && KeyOfItem(keys, items[i], true) >= 0 {
        KeyedPassTagsEachItem(t0, keys, items, false, true, true, i);
      } else {
        KeyedPassUnmatched(t0, keys, items, false, true, true);
      }
    }
  }

  /** Whether `item` falls under a type whose name is `x`. */
  predicate ItemTypeIs(keys: seq<Keyed>, item: Item, lowerTerms: bool, x: string) {
    KeyOfItem(keys, item, lowerTerms) >= 0 && keys[KeyOfItem(keys, item, lowerTerms)].name == x
  }

  /** Whether `item` falls under a type whose first variety contained in the item is `x`. */
  predicate ItemVarietyIs(keys: seq<Keyed>, item: Item, lowerTerms: bool, x: string) {
    item.Text? && KeyOfItem(keys, item, lowerTerms) >= 0
    && var key := keys[KeyOfItem(keys, item, lowerTerms)];
    var c := FirstContained(key.varieties, Lower(item.s), lowerTerms);
    c >= 0 && key.varieties[c] == x
  }

  /** Whether item `i` falls under a type whose name is `x`. */
  predicate TypeOfItemIs(keys: seq<Keyed>, items: seq<Item>, i: int, lowerTerms: bool, x: string) {
    0 <= i < |items| && ItemTypeIs(keys, items[i], lowerTerms, x)
  }

  /** Whether item `i` falls under a type whose first variety contained in the item is `x`. */
  predicate VarietyOfItemIs(keys: seq<Keyed>, items: seq<Item>, i: int, lowerTerms: bool, x: string) {
    0 <= i < |items| && ItemVarietyIs(keys, items[i], lowerTerms, x)
  }

  /** One item adds to the type and variety arrays only its first type and that type's first contained variety. */
  lemma KeyedStepSound(t: Tags, keys: seq<Keyed>, item: Item, always: bool, guarded: bool, lowerTerms: bool, x: string)
    ensures var r := KeyedStep(t, keys, item, always, guarded, lowerTerms);
      (x in Get(r, TypeSlot) ==> x in Get(t, TypeSlot) || ItemTypeIs(keys, item, lowerTerms, x))
      && (x in Get(r, VarietySlot) ==> x in Get(t, VarietySlot) || ItemVarietyIs(keys, item, lowerTerms, x))
  {
    if item.Text? {
      var text := Lower(item.s);
      var k := FirstKeyed(keys, text, lowerTerms);
      assert k == KeyOfItem(keys, item, lowerTerms);
      PutFacts(t, CategorySlot, GroupName(Cookware), guarded);
      if k >= 0 {
        var t1 := Put(t, CategorySlot, GroupName(Cookware), guarded);
        TypedStepSound(t1, keys[k], text, guarded, lowerTerms, x);
      }
    }
  }

  /** The type push and the variety push of one matched item. */
  lemma TypedStepSound(t: Tags, key: Keyed, text: string, guarded: bool, lowerTerms: bool, x: string)
    ensures var r := TypedStep(t, key, text, guarded, lowerTerms);
      var c := FirstContained(key.varieties, text, lowerTerms);
      (x in Get(r, TypeSlot) ==> x in Get(t, TypeSlot) || x == key.name)
      && (x in Get(r, VarietySlot) ==> x in Get(t, VarietySlot) || (c >= 0 && key.varieties[c] == x))
  {
    var t1 := Put(t, TypeSlot, key.name, guarded);
    PutFacts(t, TypeSlot, key.name, guarded);
    var c := FirstContained(key.varieties, text, lowerTerms);
    if c >= 0 {
      PutFacts(t1, VarietySlot, key.varieties[c], guarded);
    }
  }

  /** A pass adds to the type and variety arrays only the first type of an item and that type's first contained variety. */
  lemma {:induction false} KeyedPassSound(t: Tags, keys: seq<Keyed>, items: seq<Item>, always: bool, guarded: bool, lowerTerms: bool, x: string)
    ensures var r := KeyedPass(t, keys, items, always, guarded, lowerTerms);
      (x in Get(r, TypeSlot) ==> x in Get(t, TypeSlot) || exists i :: TypeOfItemIs(keys, items, i, lowerTerms, x))
      && (x in Get(r, VarietySlot) ==> x in Get(t, VarietySlot) || exists i :: VarietyOfItemIs(keys, items, i, lowerTerms, x))
    decreases |items|
  {
    if items != [] {
      var n := |items| - 1;
      var init := items[..n];
      var before := KeyedPass(t, keys, init, always, guarded, lowerTerms);
      KeyedPassSound(t, keys, init, always, guarded, lowerTerms, x);
      assert KeyedPass(t, keys, items, always, guarded, lowerTerms) == KeyedStep(before, keys, items[n], always, guarded, lowerTerms);
      KeyedStepSound(before, keys, items[n], always, guarded, lowerTerms, x);
      forall i | TypeOfItemIs(keys, init, i, lowerTerms, x)
        ensures TypeOfItemIs(keys, items, i, lowerTerms, x)
      {
        assert init[i] == items[i];
      }
      forall i | VarietyOfItemIs(keys, init, i, lowerTerms, x)
        ensures VarietyOfItemIs(keys, items, i, lowerTerms, x)
      {
        assert init[i] == items[i];
      }
      if ItemTypeIs(keys, items[n], lowerTerms, x) {
        assert TypeOfItemIs(keys, items, n, lowerTerms, x);
      }
      if ItemVarietyIs(keys, items[n], lowerTerms, x) {
        assert VarietyOfItemIs(keys, items, n, lowerTerms, x);
      }
    }
  }

  /** Every type and every variety the classifier records is the first match of some item. */
  lemma OnlyFirstMatches(rec: RecipeRow, keys: seq<Keyed>, x: string)
    requires Classifiable(rec)
    ensures var t := CookwareTags(rec, keys).value;
      var items := ArrayItems(rec.required_cookware);
      (x in Get(t, TypeSlot) ==> exists i :: TypeOfItemIs(keys, items, i, true, x))
      && (x in Get(t, VarietySlot) ==> exists i :: VarietyOfItemIs(keys, items, i, true, x))
  {
    if HasCookware(rec) {
      var t0 := Put(NoTags, CategorySlot, GroupName(Cookware), true);
      var items := rec.required_cookware.items;
      assert ArrayItems(rec.required_cookware) == items;
      assert Get(t0, TypeSlot) == [] && Get(t0, VarietySlot) == [];
      assert CookwareTags(rec, keys).value == KeyedPass(t0, keys, items, false, true, true);
      KeyedPassSound(t0, keys, items, false, true, true, x);
    }
  }

  lemma KeyedPassSnoc(t: Tags, keys: seq<Keyed>, items: seq<Item>, always: bool, guarded: bool, lowerTerms: bool, i: nat)
    requires i < |items|
    ensures KeyedPass(t, keys, items[..i + 1], always, guarded, lowerTerms)
         == KeyedStep(KeyedPass(t, keys, items[..i], always, guarded, lowerTerms), keys, items[i], always, guarded, lowerTerms)
  {
    var pre := items[..i + 1];
    assert |pre| - 1 == i;
    assert pre[..|pre| - 1] == items[..i];
    assert pre[|pre| - 1] == items[i];
    assert KeyedPass(t, keys, pre, always, guarded, lowerTerms)
        == KeyedStep(KeyedPass(t, keys, pre[..|pre| - 1], always, guarded, lowerTerms), keys, pre[|pre| - 1], always, guarded, lowerTerms);
  }

  /** The loop over `required_cookware` for one recipe. */
  method ClassifyCookware(rec: RecipeRow, keys: seq<Keyed>) returns (r: Option<Tags>)
    ensures r == CookwareTags(rec, keys)
  {
    if !HasCookware(rec) {
      return Some(NoTags);
    }
    var items := rec.required_cookware.items;
    var t := Put(NoTags, CategorySlot, GroupName(Cookware), true);
    var t0 := t;
    var i := 0;
    while i < |items|
      invariant 0 <= i <= |items|
      invariant forall k :: 0 <= k < i ==> items[k].Text?
      invariant t == KeyedPass(t0, keys, items[..i], false, true, true)
      decreases |items| - i
    {
      if !items[i].Text? {
        assert !AllText(items);
        return None;
      }
      t := ScanKeyedItem(t, keys, items[i], false, true, true);
      KeyedPassSnoc(t0, keys, items, false, true, true, i);
      i := i + 1;
    }
    assert items[..|items|] == items;
    r := Some(t);
  }

  // ---------------------------------------------------------------------
  // `formatArray` and its inverse
  // ---------------------------------------------------------------------

  /** No single quote occurs in `x`. */
  predicate QuoteFree(x: string) {
    forall i :: 0 <= i < |x| ==> x[i] != '\''
  }

  function Quote(x: string): string {
    "'" + x + "'"
  }

  function QuoteAll(xs: seq<string>): (r: seq<string>)
    ensures |r| == |xs|
    decreases |xs|
  {
    if xs == [] then [] else [Quote(xs[0])] + QuoteAll(xs[1..])
  }

  /** `ARRAY[${arr.map(item => `'${item}'`).join(', ')}]`: no quote inside an item is escaped. */
  function FormatArray(xs: seq<string>): string {
    "ARRAY[" + Join(QuoteAll(xs), ", ") + "]"
  }

  /** The index of the first `c` in `s`, or `|s|`. */
  function IndexOf(s: string, c: char): (r: nat)
    ensures r <= |s|
    ensures r < |s| ==> s[r] == c
    ensures forall k :: 0 <= k < r ==> s[k] != c
    decreases |s|
  {
    if s == [] then 0 else if s[0] == c then 0 else 1 + IndexOf(s[1..], c)
  }

  lemma IndexOfAfter(x: string, c: char, rest: string)
    requires c !in x
    ensures IndexOf(x + [c] + rest, c) == |x|
  {
    var s := x + [c] + rest;
    assert s[|x|] == c;
    assert forall k :: 0 <= k < |x| ==> s[k] == x[k];
  }

  /** Reads back the items of a `'a', 'b'` list: an item runs up to the next quote. */
  function ParseItems(s: string): Option<seq<string>>
    decreases |s|
  {
    if s == [] || s[0] != '\'' then None
    else
      var j := IndexOf(s[1..], '\'');
      if j == |s| - 1 then None
      else
        var item := s[1..j + 1];
        var rest := s[j + 2..];
        if rest == [] then Some([item])
        else if |rest| >= 2 && rest[..2] == ", " then
          match ParseItems(rest[2..])
          case None => None
          case Some(more) => Some([item] + more)
        else None
  }

  /** Reads back the items of an `ARRAY[...]` literal. */
  function ParseArray(s: string): Option<seq<string>> {
    if |s| >= 7 && s[..6] == "ARRAY[" && s[|s| - 1] == ']' then
      var inner := s[6..|s| - 1];
      if inner == [] then Some([]) else ParseItems(inner)
    else None
  }

  lemma JoinQuoted(xs: seq<string>)
    requires |xs| > 0
    ensures Join(QuoteAll(xs), ", ")
      == "'" + xs[0] + "'" + (if |xs| == 1 then "" else ", " + Join(QuoteAll(xs[1..]), ", "))
  {
    var q := QuoteAll(xs);
    assert q == [Quote(xs[0])] + QuoteAll(xs[1..]);
    assert q[1..] == QuoteAll(xs[1..]);
    if |xs| == 1 {
      assert Join(q, ", ") == Quote(xs[0]);
      assert Quote(xs[0]) + "" == Quote(xs[0]);
    } else {
      assert Join(q, ", ") == Quote(xs[0]) + ", " + Join(q[1..], ", ");
    }
  }

  lemma ParseItemsLast(x: string)
    requires QuoteFree(x)
    ensures ParseItems("'" + x + "'") == Some([x])
  {
    var s := "'" + x + "'";
    assert s[1..] == x + ['\''] + "";
    IndexOfAfter(x, '\'', "");
    assert s[1..|x| + 1] == x;
    assert s[|x| + 2..] == [];
  }

  lemma ParseItemsCons(x: string, tail: string)
    requires QuoteFree(x)
    ensures ParseItems("'" + x + "'" + ", " + tail)
      == match ParseItems(tail) case None => None case Some(more) => Some([x] + more)
  {
    var s := "'" + x + "'" + ", " + tail;
    var rest := ", " + tail;
    assert s[1..] == x + ['\''] + rest;
    IndexOfAfter(x, '\'', rest);
    assert s[1..|x| + 1] == x;
    assert s[|x| + 2..] == rest;
    assert rest[..2] == ", " && rest[2..] == tail;
  }

  lemma {:induction false} ParseQuoted(xs: seq<string>)
    requires |xs| > 0 && forall k :: 0 <= k < |xs| ==> QuoteFree(xs[k])
    ensures ParseItems(Join(QuoteAll(xs), ", ")) == Some(xs)
    decreases |xs|
  {
    JoinQuoted(xs);
    if |xs| == 1 {
      ParseItemsLast(xs[0]);
      assert xs == [xs[0]];
    } else {
      ParseQuoted(xs[1..]);
      ParseItemsCons(xs[0], Join(QuoteAll(xs[1..]), ", "));
      assert [xs[0]] + xs[1..] == xs;
    }
  }

  /** Without quotes inside the items, the literal reads back as exactly the array. */
  lemma FormatArrayRoundTrip(xs: seq<string>)
    requires forall k :: 0 <= k < |xs| ==> QuoteFree(xs[k])
    ensures ParseArray(FormatArray(xs)) == Some(xs)
  {
    var inner := Join(QuoteAll(xs), ", ");
    var s := FormatArray(xs);
    assert s[..6] == "ARRAY[" && s[6..|s| - 1] == inner;
    if xs != [] {
      ParseQuoted(xs);
      JoinQuoted(xs);
    }
  }

  /** An item holding a quote is written as is, and the literal no longer reads back as the array. */
  lemma FormatArrayUnescaped()
    ensures FormatArray(["it's"]) == "ARRAY['it's']"
    ensures ParseArray(FormatArray(["it's"])) != Some(["it's"])
  {
    var s := FormatArray(["it's"]);
    assert ["it's"][1..] == [];
    assert QuoteAll(["it's"]) == [Quote("it's")];
    assert s == "ARRAY['it's']";
    var inner := s[6..|s| - 1];
    assert inner == "'it's'";
    assert inner[1..] == "it's'";
    IndexOfAfter("it", '\'', "s'");
    assert inner[1..] == "it" + ['\''] + "s'";
    assert inner[4..] == "s'";
  }

  predicate AllQuoteFree(xs: seq<string>)
    decreases |xs|
  {
    xs == [] || (QuoteFree(xs[0]) && AllQuoteFree(xs[1..]))
  }

  /** Every name and variety of the table is quote-free. */
  predicate KeysQuoteFree(keys: seq<Keyed>)
    decreases |keys|
  {
    keys == [] || (QuoteFree(keys[0].name) && AllQuoteFree(keys[0].varieties) && KeysQuoteFree(keys[1..]))
  }

  lemma {:induction false} AllQuoteFreeAt(xs: seq<string>, c: nat)
    requires AllQuoteFree(xs) && c < |xs|
    ensures QuoteFree(xs[c])
    decreases c
  {
    if c > 0 {
      AllQuoteFreeAt(xs[1..], c - 1);
    }
  }

  lemma {:induction false} KeysQuoteFreeAt(keys: seq<Keyed>, k: nat)
    requires KeysQuoteFree(keys) && k < |keys|
    ensures QuoteFree(keys[k].name) && AllQuoteFree(keys[k].varieties)
    decreases k
  {
    if k > 0 {
      KeysQuoteFreeAt(keys[1..], k - 1);
    }
  }

  /** All three cookware arrays hold only quote-free strings. */
  ghost predicate TagsQuoteFree(t: Tags) {
    forall l: Level, x :: x in Get(t, Slot(Cookware, l)) ==> QuoteFree(x)
  }

  lemma PutQuoteFree(t: Tags, s: Slot, x: string)
    requires TagsQuoteFree(t) && QuoteFree(x)
    ensures TagsQuoteFree(Put(t, s, x, true))
  {
  }

  lemma {:induction false} KeyedPassQuoteFree(t: Tags, keys: seq<Keyed>, items: seq<Item>, lowerTerms: bool)
    requires TagsQuoteFree(t) && KeysQuoteFree(keys) && "cookware" in Get(t, CategorySlot)
    ensures TagsQuoteFree(KeyedPass(t, keys, items, false, true, lowerTerms))
    decreases |items|
  {
    if items != [] {
      var before := KeyedPass(t, keys, items[..|items| - 1], false, true, lowerTerms);
      KeyedPassQuoteFree(t, keys, items[..|items| - 1], lowerTerms);
      var item := items[|items| - 1];
      if item.Text? {
        var text := Lower(item.s);
        var k := FirstKeyed(keys, text, lowerTerms);
        if k >= 0 {
          CookwareName();
          KeyedPassKeepsCategory(t, keys, items[..|items| - 1], false, lowerTerms);
          var t1 := Put(before, CategorySlot, GroupName(Cookware), true);
          assert t1 == before;
          KeysQuoteFreeAt(keys, k);
          var t2 := Put(t1, TypeSlot, keys[k].name, true);
          PutQuoteFree(t1, TypeSlot, keys[k].name);
          var c := FirstContained(keys[k].varieties, text, lowerTerms);
          if c >= 0 {
            AllQuoteFreeAt(keys[k].varieties, c);
            PutQuoteFree(t2, VarietySlot, keys[k].varieties[c]);
          }
        }
      }
    }
  }

  /** The script's cookware table is quote-free, type by type. */
  lemma FullCookwareKeysQuoteFree()
    ensures KeysQuoteFree(FullCookwareKeys)
  {
    forall k | 0 <= k < |FullCookwareKeys|
      ensures QuoteFree(FullCookwareKeys[k].name) && AllQuoteFree(FullCookwareKeys[k].varieties)
    {
      if k == 0 {
        PotsQuoteFree();
      } else if k == 1 {
        PansQuoteFree();
      } else if k == 2 {
        BakewareQuoteFree();
      } else if k == 3 {
        UtensilsQuoteFree();
      } else if k == 4 {
        AppliancesQuoteFree();
      } else {
        KnivesQuoteFree();
      }
    }
    KeysQuoteFreeAll(FullCookwareKeys);
  }

  lemma {:induction false} KeysQuoteFreeAll(keys: seq<Keyed>)
    requires forall k :: 0 <= k < |keys| ==> QuoteFree(keys[k].name) && AllQuoteFree(keys[k].varieties)
    ensures KeysQuoteFree(keys)
    decreases |keys|
  {
    if keys != [] {
      KeysQuoteFreeAll(keys[1..]);
    }
  }

  lemma PotsQuoteFree()
    ensures QuoteFree(FullCookwareKeys[0].name) && AllQuoteFree(FullCookwareKeys[0].varieties)
  {
    assert FullCookwareKeys[0].name == "pots";
    assert FullCookwareKeys[0].varieties == ["stock", "sauce", "dutch", "pressure", "slow", "multi"];
    assert AllQuoteFree(["stock", "sauce", "dutch", "pressure", "slow", "multi"]);
  }

  lemma PansQuoteFree()
    ensures QuoteFree(FullCookwareKeys[1].name) && AllQuoteFree(FullCookwareKeys[1].varieties)
  {
    assert FullCookwareKeys[1].name == "pans";
    assert FullCookwareKeys[1].varieties == ["frying", "saute", "grill", "griddle", "wok", "crepe"];
    assert AllQuoteFree(["frying", "saute", "grill", "griddle", "wok", "crepe"]);
  }

  lemma BakewareQuoteFree()
    ensures QuoteFree(FullCookwareKeys[2].name) && AllQuoteFree(FullCookwareKeys[2].varieties)
  {
    assert FullCookwareKeys[2].name == "bakeware";
    assert FullCookwareKeys[2].varieties == ["sheet", "cake", "muffin", "loaf", "casserole", "pie"];
    assert AllQuoteFree(["sheet", "cake", "muffin", "loaf", "casserole", "pie"]);
  }

  lemma UtensilsQuoteFree()
    ensures QuoteFree(FullCookwareKeys[3].name) && AllQuoteFree(FullCookwareKeys[3].varieties)
  {
    assert FullCookwareKeys[3].name == "utensils";
    assert FullCookwareKeys[3].varieties == ["spatula", "whisk", "tongs", "ladle", "spoon", "turner"];
    assert AllQuoteFree(["spatula", "whisk", "tongs", "ladle", "spoon", "turner"]);
  }

  lemma AppliancesQuoteFree()
    ensures QuoteFree(FullCookwareKeys[4].name) && AllQuoteFree(FullCookwareKeys[4].varieties)
  {
    assert FullCookwareKeys[4].name == "appliances";
    assert FullCookwareKeys[4].varieties == ["blender", "mixer", "processor", "toaster", "microwave", "airfryer"];
    assert AllQuoteFree(["blender", "mixer", "processor", "toaster", "microwave", "airfryer"]);
  }

  lemma KnivesQuoteFree()
    ensures QuoteFree(FullCookwareKeys[5].name) && AllQuoteFree(FullCookwareKeys[5].varieties)
  {
    assert FullCookwareKeys[5].name == "knives";
    assert FullCookwareKeys[5].varieties == ["chef", "paring", "bread", "utility", "santoku", "cleaver"];
    assert AllQuoteFree(["chef", "paring", "bread", "utility", "santoku", "cleaver"]);
  }

  /** With a quote-free table every cookware array the classifier produces is quote-free. */
  lemma CookwareTagsQuoteFree(rec: RecipeRow, keys: seq<Keyed>)
    requires Classifiable(rec) && KeysQuoteFree(keys)
    ensures TagsQuoteFree(CookwareTags(rec, keys).value)
  {
    if HasCookware(rec) {
      CookwareName();
      var t0 := Put(NoTags, CategorySlot, GroupName(Cookware), true);
      PutQuoteFree(NoTags, CategorySlot, GroupName(Cookware));
      KeyedPassQuoteFree(t0, keys, rec.required_cookware.items, true);
    }
  }

  /** With the script's table, each array written into a statement reads back as exactly that array. */
  lemma ScriptArraysReadBack(rec: RecipeRow, l: Level)
    requires Classifiable(rec)
    ensures var xs := Get(CookwareTags(rec, FullCookwareKeys).value, Slot(Cookware, l));
      ParseArray(FormatArray(xs)) == Some(xs)
  {
    var keys := FullCookwareKeys;
    FullCookwareKeysQuoteFree();
    CookwareTagsQuoteFree(rec, keys);
    var xs := Get(CookwareTags(rec, keys).value, Slot(Cookware, l));
    forall k | 0 <= k < |xs|
      ensures QuoteFree(xs[k])
    {
      assert xs[k] in xs;
    }
    FormatArrayRoundTrip(xs);
  }

  // ---------------------------------------------------------------------
  // the statement text
  // ---------------------------------------------------------------------

  /** `  column = ARRAY[...]`, only for a non-empty array. */
  function Clause(column: string, xs: seq<string>): seq<string> {
    if xs == [] then [] else ["  " + column + " = " + FormatArray(xs)]
  }

  /** The `updates` list: category, type, variety, each only if non-empty. */
  function Clauses(t: Tags): seq<string> {
    Clause("cookware_category", Get(t, CategorySlot))
    + Clause("cookware_type", Get(t, TypeSlot))
    + Clause("cookware_variety", Get(t, VarietySlot))
  }

  /** One recipe's `UPDATE`, or nothing when all three arrays are empty. */
  function Statement(rec: RecipeRow, t: Tags): string {
    if Get(t, CategorySlot) != [] || Get(t, TypeSlot) != [] || Get(t, VarietySlot) != [] then
      StatementHead(rec) + Join(Clauses(t), ",\n") + StatementTail(rec)
    else ""
  }

  /** The comment naming the recipe (its name, or its id when the name is empty) and the `UPDATE` line. */
  function StatementHead(rec: RecipeRow): string {
    "-- Recipe: " + OrElse(rec.name, rec.id) + "\n" + "UPDATE recipes SET\n"
  }

  function StatementTail(rec: RecipeRow): string {
    "\nWHERE id = '" + rec.id + "';\n\n"
  }

  lemma FormatCookware()
    ensures FormatArray(["cookware"]) == "ARRAY['cookware']"
  {
    assert ["cookware"][1..] == [];
    assert QuoteAll(["cookware"]) == [Quote("cookware")];
    assert Join([Quote("cookware")], ", ") == Quote("cookware");
    assert Quote("cookware") == "'cookware'";
    assert FormatArray(["cookware"]) == "ARRAY[" + "'cookware'" + "]";
  }

  lemma CategoryClause()
    ensures Clause("cookware_category", ["cookware"]) == ["  cookware_category = ARRAY['cookware']"]
  {
    FormatCookware();
    assert "  " + "cookware_category" + " = " + "ARRAY['cookware']" == "  cookware_category = ARRAY['cookware']";
  }

  lemma PrefixAfter(a: string, b: string, c: string, d: string)
    requires IsPrefix(b, c)
    ensures IsPrefix(a + b, a + c + d)
  {
    assert (a + c + d)[..|a + b|] == a + b;
  }

  lemma SuffixAfter(a: string, b: string)
    ensures IsSuffix(b, a + b)
  {
    assert (a + b)[|a + b| - |b|..] == b;
  }

  /** An `UPDATE` is emitted exactly for recipes with a non-empty cookware array; its first clause sets the category to ['cookware']. */
  lemma StatementIffCookware(rec: RecipeRow, keys: seq<Keyed>)
    requires Classifiable(rec)
    ensures var st := Statement(rec, CookwareTags(rec, keys).value);
      (st != "" <==> HasCookware(rec))
      && (HasCookware(rec) ==>
            IsPrefix(StatementHead(rec) + "  cookware_category = ARRAY['cookware']", st)
            && IsSuffix(StatementTail(rec), st))
  {
    var t := CookwareTags(rec, keys).value;
    CategoryExactlyCookware(rec, keys);
    OnlyCookwareColumns(rec, keys);
    if HasCookware(rec) {
      FormatCookware();
      var cs := Clauses(t);
      CategoryClause();
      assert cs[0] == "  cookware_category = ARRAY['cookware']";
      JoinStartsWithFirst(cs, ",\n");
      PrefixAfter(StatementHead(rec), cs[0], Join(cs, ",\n"), StatementTail(rec));
      SuffixAfter(StatementHead(rec) + Join(cs, ",\n"), StatementTail(rec));
    }
  }

  // ---------------------------------------------------------------------
  // the whole file
  // ---------------------------------------------------------------------

  /** The two comment lines and `BEGIN;`; `iso` is the generation time, `new Date().toISOString()`. */
  function Header(iso: string): string {
    "-- SQL update statements for recipes with three-level tagging for cookware\n"
    + "-- Generated on " + iso + "\n\n"
    + "BEGIN;\n\n"
  }

  const Footer: string := "COMMIT;\n"

  /** The statements of the recipes in order, or `None` once one classification throws. */
  function Statements(recipes: seq<RecipeRow>, keys: seq<Keyed>): Option<string>
    decreases |recipes|
  {
    if recipes == [] then Some("")
    else
      var rest := Statements(recipes[..|recipes| - 1], keys);
      var last := RecipeStatement(recipes[|recipes| - 1], keys);
      if rest.None? || last.None? then None
      else Some(rest.value + last.value)
  }

  /** One recipe's contribution: its statement (possibly empty), or `None` when its classification throws. */
  function RecipeStatement(rec: RecipeRow, keys: seq<Keyed>): Option<string> {
    match CookwareTags(rec, keys)
    case None => None
    case Some(t) => Some(Statement(rec, t))
  }

  /** The text written to `recipe-cookware-updates.sql`, or `None` when the script throws and writes nothing. */
  function SqlOf(recipes: seq<RecipeRow>, iso: string, keys: seq<Keyed>): Option<string> {
    match Statements(recipes, keys)
    case None => None
    case Some(body) => Some(Header(iso) + body + Footer)
  }

  /** Some text is produced exactly when no recipe's cookware array holds a non-string. */
  lemma {:induction false} StatementsSomeIff(recipes: seq<RecipeRow>, keys: seq<Keyed>)
    ensures Statements(recipes, keys).Some? <==> forall k :: 0 <= k < |recipes| ==> Classifiable(recipes[k])
    decreases |recipes|
  {
    if recipes != [] {
      var init := recipes[..|recipes| - 1];
      StatementsSomeIff(init, keys);
      CookwareTagsFails(recipes[|recipes| - 1], keys);
      assert RecipeStatement(recipes[|recipes| - 1], keys).None? <==> CookwareTags(recipes[|recipes| - 1], keys).None?;
      assert forall k :: 0 <= k < |init| ==> init[k] == recipes[k];
    }
  }

  lemma SqlOfSomeIff(recipes: seq<RecipeRow>, iso: string, keys: seq<Keyed>)
    ensures SqlOf(recipes, iso, keys).Some? <==> forall k :: 0 <= k < |recipes| ==> Classifiable(recipes[k])
  {
    StatementsSomeIff(recipes, keys);
  }

  /** The text begins with the header comments and `BEGIN;` and ends with `COMMIT;`. */
  lemma SqlFramed(recipes: seq<RecipeRow>, iso: string, keys: seq<Keyed>)
    requires SqlOf(recipes, iso, keys).Some?
    ensures var sql := SqlOf(recipes, iso, keys).value;
      IsPrefix(Header(iso), sql) && IsSuffix(Footer, sql)
  {
    var sql := SqlOf(recipes, iso, keys).value;
    var body := Statements(recipes, keys).value;
    assert sql == Header(iso) + (body + Footer);
  }

  /** A recipe that throws leaves no text, whatever follows it. */
  lemma StatementsNone(recipes: seq<RecipeRow>, keys: seq<Keyed>, i: nat)
    requires i < |recipes| && RecipeStatement(recipes[i], keys).None?
    ensures Statements(recipes, keys).None?
  {
    CookwareTagsFails(recipes[i], keys);
    StatementsSomeIff(recipes, keys);
  }

  /** Appending a recipe appends its statement. */
  lemma StatementsSnoc(recipes: seq<RecipeRow>, keys: seq<Keyed>, i: nat)
    requires i < |recipes| && Statements(recipes[..i], keys).Some? && RecipeStatement(recipes[i], keys).Some?
    ensures Statements(recipes[..i + 1], keys) == Some(Statements(recipes[..i], keys).value + RecipeStatement(recipes[i], keys).value)
  {
    assert recipes[..i + 1][..i] == recipes[..i];
  }

  lemma AppendAssoc(a: string, b: string, c: string)
    ensures a + b + c == a + (b + c)
  {
  }

  /** The body of the main loop for one recipe. */
  method EmitRecipe(rec: RecipeRow, keys: seq<Keyed>) returns (r: Option<string>)
    ensures r == RecipeStatement(rec, keys)
  {
    var tags := ClassifyCookware(rec, keys);
    if tags.None? {
      return None;
    }
    r := Some(Statement(rec, tags.value));
  }

  /** The main loop: `sqlStatements +=` per recipe. */
  method GenerateSql(recipes: seq<RecipeRow>, iso: string, keys: seq<Keyed>) returns (r: Option<string>)
    ensures r == SqlOf(recipes, iso, keys)
  {
    var sql := Header(iso);
    var i := 0;
    while i < |recipes|
      invariant 0 <= i <= |recipes|
      invariant Statements(recipes[..i], keys).Some?
      invariant sql == Header(iso) + Statements(recipes[..i], keys).value
      decreases |recipes| - i
    {
      var st := EmitRecipe(recipes[i], keys);
      if st.None? {
        StatementsNone(recipes, keys, i);
        return None;
      }
      ghost var before := Statements(recipes[..i], keys).value;
      StatementsSnoc(recipes, keys, i);
      AppendAssoc(Header(iso), before, st.value);
      sql := sql + st.value;
      i := i + 1;
    }
    assert recipes[..|recipes|] == recipes;
    sql := sql + Footer;
    r := Some(sql);
  }

  /** `generateRecipeUpdateSQL` over the fetched rows, with the script's cookware table. */
  method GenerateRecipeUpdateSql(recipes: seq<RecipeRow>, iso: string) returns (r: Option<string>)
    ensures r == SqlOf(recipes, iso, FullCookwareKeys)
  {
    r := GenerateSql(recipes, iso, FullCookwareKeys);
  }
}
