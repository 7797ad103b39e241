/**
 * The three-level tag vocabulary shared by the tag classifiers: six groups
 * (protein, veggies, pantry, dairy, fruit, cookware), each with a category,
 * a type and a variety (or cut) array, eighteen arrays in all. A table row is
 * one type of a group with its varieties; a classifier scans the rows of a
 * table in declaration order and matches terms by substring containment.
 */
module Taxonomy {
  import opened Strings
  import opened Records

  datatype Group = Protein | Veggie | Pantry | Dairy | Fruit | Cookware

  /** `Kind` is the middle level, called "type" in the column names. */
  datatype Level = Category | Kind | Variety

  datatype Slot = Slot(group: Group, level: Level)

  /** The category name a group pushes into its `_category` array. */
  function GroupName(g: Group): string {
    match g
    case Protein => "protein"
    case Veggie => "veggies"
    case Pantry => "pantry"
    case Dairy => "dairy"
    case Fruit => "fruit"
    case Cookware => "cookware"
  }

  /** The eighteen arrays in the order the result objects declare them. */
  const AllSlots: seq<Slot> := [
    Slot(Protein, Category), Slot(Protein, Kind), Slot(Protein, Variety),
    Slot(Veggie, Category), Slot(Veggie, Kind), Slot(Veggie, Variety),
    Slot(Pantry, Category), Slot(Pantry, Kind), Slot(Pantry, Variety),
    Slot(Dairy, Category), Slot(Dairy, Kind), Slot(Dairy, Variety),
    Slot(Fruit, Category), Slot(Fruit, Kind), Slot(Fruit, Variety),
    Slot(Cookware, Category), Slot(Cookware, Kind), Slot(Cookware, Variety)]

  lemma SlotListed(s: Slot)
    ensures s in AllSlots
  {
    match s.group
    case Protein => match s.level { case Category => assert AllSlots[0] == s; case Kind => assert AllSlots[1] == s; case Variety => assert AllSlots[2] == s; }
    case Veggie => match s.level { case Category => assert AllSlots[3] == s; case Kind => assert AllSlots[4] == s; case Variety => assert AllSlots[5] == s; }
    case Pantry => match s.level { case Category => assert AllSlots[6] == s; case Kind => assert AllSlots[7] == s; case Variety => assert AllSlots[8] == s; }
    case Dairy => match s.level { case Category => assert AllSlots[9] == s; case Kind => assert AllSlots[10] == s; case Variety => assert AllSlots[11] == s; }
    case Fruit => match s.level { case Category => assert AllSlots[12] == s; case Kind => assert AllSlots[13] == s; case Variety => assert AllSlots[14] == s; }
    case Cookware => match s.level { case Category => assert AllSlots[15] == s; case Kind => assert AllSlots[16] == s; case Variety => assert AllSlots[17] == s; }
  }

  /** The eighteen tag arrays; a slot missing from the map is an empty array. */
  type Tags = map<Slot, seq<string>>

  function Get(t: Tags, s: Slot): seq<string> {
    if s in t then t[s] else []
  }

  /** The freshly initialised result object: every array empty. */
  const NoTags: Tags := map[]

  /** Every array of `u` extends the same array of `t`. */
  ghost predicate Grows(t: Tags, u: Tags) {
    forall s :: Get(t, s) <= Get(u, s)
  }

  predicate Distinct(xs: seq<string>) {
    forall i, j :: 0 <= i < j < |xs| ==> xs[i] != xs[j]
  }

  ghost predicate AllDistinct(t: Tags) {
    forall s :: Distinct(Get(t, s))
  }

  lemma NoTagsDistinct()
    ensures AllDistinct(NoTags)
  {
    forall s: Slot
      ensures Distinct(Get(NoTags, s))
    {
    }
  }

  /** `arr.push(x)`, or with `guarded` the `if (!arr.includes(x)) arr.push(x)` idiom. */
  function Put(t: Tags, s: Slot, x: string, guarded: bool): (r: Tags)
    ensures Get(r, s) == if guarded && x in Get(t, s) then Get(t, s) else Get(t, s) + [x]
    ensures forall s' :: s' != s ==> Get(r, s') == Get(t, s')
  {
    if guarded && x in Get(t, s) then t else t[s := Get(t, s) + [x]]
  }

  lemma PutGrows(t: Tags, s: Slot, x: string, guarded: bool)
    ensures Grows(t, Put(t, s, x, guarded)) && x in Get(Put(t, s, x, guarded), s)
  {
  }

  /** A guarded push never introduces a duplicate. */
  lemma PutKeepsDistinct(t: Tags, s: Slot, x: string)
    requires AllDistinct(t)
    ensures AllDistinct(Put(t, s, x, true))
  {
    var r := Put(t, s, x, true);
    if x !in Get(t, s) {
      var xs := Get(r, s);
      assert forall i :: 0 <= i < |xs| - 1 ==> xs[i] == Get(t, s)[i];
      assert Distinct(xs);
    }
  }

  /** One term of a table found in an already lower-cased text, the term lower-cased too when `lowerTerms`. */
  predicate Hit(text: string, term: string, lowerTerms: bool) {
    Contains(text, if lowerTerms then Lower(term) else term)
  }

  /** The index of the first term found in `text`, or -1: what a `for … of` loop with `break` picks. */
  function FirstContained(terms: seq<string>, text: string, lowerTerms: bool): (k: int)
    ensures -1 <= k < |terms|
    ensures k >= 0 ==> Hit(text, terms[k], lowerTerms)
    ensures forall j :: 0 <= j < |terms| && (k < 0 || j < k) ==> !Hit(text, terms[j], lowerTerms)
    decreases |terms|
  {
    if terms == [] then -1
    else if Hit(text, terms[0], lowerTerms) then 0
    else
      var k := FirstContained(terms[1..], text, lowerTerms);
      if k < 0 then -1 else k + 1
  }

  /** The search loop that breaks at the first term found. */
  method FindFirst(terms: seq<string>, text: string, lowerTerms: bool) returns (k: int)
    ensures k == FirstContained(terms, text, lowerTerms)
  {
    k := -1;
    var i := 0;
    while i < |terms|
      invariant 0 <= i <= |terms|
      invariant forall j :: 0 <= j < i ==> !Hit(text, terms[j], lowerTerms)
      decreases |terms| - i
    {
      if Hit(text, terms[i], lowerTerms) {
        k := i;
        break;
      }
      i := i + 1;
    }
  }

  /** A table entry recognised by its own name or by any of its synonyms. */
  datatype Keyed = Keyed(name: string, synonyms: seq<string>, varieties: seq<string>)

  predicate KeyHit(text: string, key: Keyed, lowerTerms: bool) {
    Hit(text, key.name, lowerTerms) || FirstContained(key.synonyms, text, lowerTerms) >= 0
  }

  /** The first entry whose name or synonyms occur in `text`, or -1. */
  function FirstKeyed(keys: seq<Keyed>, text: string, lowerTerms: bool): (k: int)
    ensures -1 <= k < |keys|
    ensures k >= 0 ==> KeyHit(text, keys[k], lowerTerms)
    ensures forall j :: 0 <= j < |keys| && (k < 0 || j < k) ==> !KeyHit(text, keys[j], lowerTerms)
    decreases |keys|
  {
    if keys == [] then -1
    else if KeyHit(text, keys[0], lowerTerms) then 0
    else
      var k := FirstKeyed(keys[1..], text, lowerTerms);
      if k < 0 then -1 else k + 1
  }

  method FindFirstKeyed(keys: seq<Keyed>, text: string, lowerTerms: bool) returns (k: int)
    ensures k == FirstKeyed(keys, text, lowerTerms)
  {
    k := -1;
    var i := 0;
    while i < |keys|
      invariant 0 <= i <= |keys|
      invariant forall j :: 0 <= j < i ==> !KeyHit(text, keys[j], lowerTerms)
      decreases |keys| - i
    {
      if KeyHit(text, keys[i], lowerTerms) {
        k := i;
        break;
      }
      i := i + 1;
    }
  }

  /** One type of a group with its varieties (or cuts), in declaration order. */
  datatype Row = Row(group: Group, name: string, varieties: seq<string>)

  function Names(rows: seq<Row>): (r: seq<string>)
    ensures |r| == |rows|
    ensures forall k :: 0 <= k < |rows| ==> r[k] == rows[k].name
  {
    seq(|rows|, k requires 0 <= k < |rows| => rows[k].name)
  }

  // ---------------------------------------------------------------------
  // protein_tags / veggie_tags: category, first type, its first variety
  // ---------------------------------------------------------------------

  /** The type a tag names (the first type contained in it), or -1; a non-string tag names none. */
  function TypeOfTag(types: seq<Row>, tag: Item): (k: int)
    ensures -1 <= k < |types|
  {
    if tag.Text? then FirstContained(Names(types), Lower(tag.s), true) else -1
  }

  /** The variety of type `k` a tag names, or -1. */
  function VarietyOfTag(types: seq<Row>, k: int, tag: Item): (c: int)
    requires 0 <= k < |types|
    ensures -1 <= c < |types[k].varieties|
  {
    if tag.Text? then FirstContained(types[k].varieties, Lower(tag.s), true) else -1
  }

  /** One iteration of a `protein_tags.forEach` (or `veggie_tags`) loop. */
  function TagStep(t: Tags, g: Group, types: seq<Row>, tag: Item, guarded: bool): Tags {
    var t1 := Put(t, Slot(g, Category), GroupName(g), guarded);
    var k := TypeOfTag(types, tag);
    if k < 0 then t1
    else
      var t2 := Put(t1, Slot(g, Kind), types[k].name, guarded);
      var c := VarietyOfTag(types, k, tag);
      if c < 0 then t2 else Put(t2, Slot(g, Variety), types[k].varieties[c], guarded)
  }

  /**
   * A tag adds the group's category; when it names a type, that type and the
   * first variety of it the tag names, and nothing else; other groups are untouched.
   */
  lemma TagStepFacts(t: Tags, g: Group, types: seq<Row>, tag: Item, guarded: bool)
    ensures var r := TagStep(t, g, types, tag, guarded);
      Grows(t, r)
      && GroupName(g) in Get(r, Slot(g, Category))
      && (forall s: Slot :: s.group != g ==> Get(r, s) == Get(t, s))
      && (guarded && AllDistinct(t) ==> AllDistinct(r))
    ensures var r := TagStep(t, g, types, tag, guarded);
      var k := TypeOfTag(types, tag);
      (k < 0 ==> Get(r, Slot(g, Kind)) == Get(t, Slot(g, Kind)) && Get(r, Slot(g, Variety)) == Get(t, Slot(g, Variety)))
      && (k >= 0 ==> types[k].name in Get(r, Slot(g, Kind))
                     && (VarietyOfTag(types, k, tag) < 0 ==> Get(r, Slot(g, Variety)) == Get(t, Slot(g, Variety)))
                     && (VarietyOfTag(types, k, tag) >= 0 ==>
                           types[k].varieties[VarietyOfTag(types, k, tag)] in Get(r, Slot(g, Variety))))
  {
    var t1 := Put(t, Slot(g, Category), GroupName(g), guarded);
    PutFacts(t, Slot(g, Category), GroupName(g), guarded);
    var k := TypeOfTag(types, tag);
    if k >= 0 {
      TypedTagFacts(t, t1, g, types, k, tag, guarded);
    }
  }

  /** A push changes only its own slot and adds the pushed string; a guarded push keeps arrays duplicate-free. */
  lemma PutFacts(t: Tags, s: Slot, x: string, guarded: bool)
    ensures var r := Put(t, s, x, guarded);
      Grows(t, r) && x in Get(r, s)
      && (forall s' :: s' != s ==> Get(r, s') == Get(t, s'))
      && (guarded && AllDistinct(t) ==> AllDistinct(r))
  {
    PutGrows(t, s, x, guarded);
    if guarded && AllDistinct(t) {
      PutKeepsDistinct(t, s, x);
    }
  }

  /** The type and variety pushes of a tag that names type `k`. */
  lemma TypedTagFacts(t: Tags, t1: Tags, g: Group, types: seq<Row>, k: int, tag: Item, guarded: bool)
    requires 0 <= k < |types| && k == TypeOfTag(types, tag)
    requires Grows(t, t1) && GroupName(g) in Get(t1, Slot(g, Category))
    requires forall s: Slot :: s != Slot(g, Category) ==> Get(t1, s) == Get(t, s)
    requires guarded && AllDistinct(t) ==> AllDistinct(t1)
    ensures var r := (var t2 := Put(t1, Slot(g, Kind), types[k].name, guarded);
                      var c := VarietyOfTag(types, k, tag);
                      if c < 0 then t2 else Put(t2, Slot(g, Variety), types[k].varieties[c], guarded));
      Grows(t, r)
      && GroupName(g) in Get(r, Slot(g, Category))
      && (forall s: Slot :: s.group != g ==> Get(r, s) == Get(t, s))
      && (guarded && AllDistinct(t) ==> AllDistinct(r))
      && types[k].name in Get(r, Slot(g, Kind))
      && (VarietyOfTag(types, k, tag) < 0 ==> Get(r, Slot(g, Variety)) == Get(t, Slot(g, Variety)))
      && (VarietyOfTag(types, k, tag) >= 0 ==> types[k].varieties[VarietyOfTag(types, k, tag)] in Get(r, Slot(g, Variety)))
  {
    var t2 := Put(t1, Slot(g, Kind), types[k].name, guarded);
    PutFacts(t1, Slot(g, Kind), types[k].name, guarded);
    Grows3(t, t1, t2);
    assert GroupName(g) in Get(t2, Slot(g, Category));
    assert forall s: Slot :: s.group != g ==> Get(t2, s) == Get(t, s);
    var c := VarietyOfTag(types, k, tag);
    if c >= 0 {
      var t3 := Put(t2, Slot(g, Variety), types[k].varieties[c], guarded);
      PutFacts(t2, Slot(g, Variety), types[k].varieties[c], guarded);
      Grows3(t, t2, t3);
      assert GroupName(g) in Get(t3, Slot(g, Category)) && types[k].name in Get(t3, Slot(g, Kind));
      assert forall s: Slot :: s.group != g ==> Get(t3, s) == Get(t, s);
    } else {
      assert Get(t2, Slot(g, Variety)) == Get(t, Slot(g, Variety));
    }
  }

  /** `t` and `u` hold the same three arrays of group `g`. */
  ghost predicate SameGroup(t: Tags, u: Tags, g: Group) {
    forall l :: Get(t, Slot(g, l)) == Get(u, Slot(g, l))
  }

  /** A tag step reads and writes only its own group, so it agrees on inputs that agree there. */
  lemma TagStepSameGroup(t: Tags, u: Tags, g: Group, types: seq<Row>, tag: Item, guarded: bool)
    requires SameGroup(t, u, g)
    ensures SameGroup(TagStep(t, g, types, tag, guarded), TagStep(u, g, types, tag, guarded), g)
  {
    var t1 := Put(t, Slot(g, Category), GroupName(g), guarded);
    var u1 := Put(u, Slot(g, Category), GroupName(g), guarded);
    PutSameGroup(t, u, Slot(g, Category), GroupName(g), guarded);
    var k := TypeOfTag(types, tag);
    if k >= 0 {
      var t2 := Put(t1, Slot(g, Kind), types[k].name, guarded);
      var u2 := Put(u1, Slot(g, Kind), types[k].name, guarded);
      PutSameGroup(t1, u1, Slot(g, Kind), types[k].name, guarded);
      var c := VarietyOfTag(types, k, tag);
      if c >= 0 {
        PutSameGroup(t2, u2, Slot(g, Variety), types[k].varieties[c], guarded);
      }
    }
  }

  lemma PutSameGroup(t: Tags, u: Tags, s: Slot, x: string, guarded: bool)
    requires SameGroup(t, u, s.group)
    ensures SameGroup(Put(t, s, x, guarded), Put(u, s, x, guarded), s.group)
  {
    assert Get(t, s) == Get(u, s);
    forall l
      ensures Get(Put(t, s, x, guarded), Slot(s.group, l)) == Get(Put(u, s, x, guarded), Slot(s.group, l))
    {
      assert Get(t, Slot(s.group, l)) == Get(u, Slot(s.group, l));
    }
  }

  /** The tag loop's own group depends only on that group of its input. */
  lemma {:induction false} TagPassSameGroup(t: Tags, u: Tags, g: Group, types: seq<Row>, tags: seq<Item>, guarded: bool)
    requires SameGroup(t, u, g)
    ensures SameGroup(TagPass(t, g, types, tags, guarded), TagPass(u, g, types, tags, guarded), g)
    decreases |tags|
  {
    if tags != [] {
      TagPassSameGroup(t, u, g, types, tags[..|tags| - 1], guarded);
      TagStepSameGroup(TagPass(t, g, types, tags[..|tags| - 1], guarded), TagPass(u, g, types, tags[..|tags| - 1], guarded),
                       g, types, tags[|tags| - 1], guarded);
    }
  }

  /** The whole tag loop, defined on prefixes: the step for the last tag after the loop over the others. */
  function TagPass(t: Tags, g: Group, types: seq<Row>, tags: seq<Item>, guarded: bool): Tags
    decreases |tags|
  {
    if tags == [] then t
    else TagStep(TagPass(t, g, types, tags[..|tags| - 1], guarded), g, types, tags[|tags| - 1], guarded)
  }

  /** The tag loop only adds to the arrays, touches only its own group, and with guarded pushes keeps them duplicate-free. */
  lemma {:induction false} TagPassFacts(t: Tags, g: Group, types: seq<Row>, tags: seq<Item>, guarded: bool)
    ensures var r := TagPass(t, g, types, tags, guarded);
      Grows(t, r)
      && (forall s: Slot :: s.group != g ==> Get(r, s) == Get(t, s))
      && (guarded && AllDistinct(t) ==> AllDistinct(r))
    decreases |tags|
  {
    if tags != [] {
      var before := TagPass(t, g, types, tags[..|tags| - 1], guarded);
      TagPassFacts(t, g, types, tags[..|tags| - 1], guarded);
      TagStepFacts(before, g, types, tags[|tags| - 1], guarded);
      Grows3(t, before, TagPass(t, g, types, tags, guarded));
    }
  }

  /** The body of the tag loop for one tag. */
  method ProcessTag(t: Tags, g: Group, types: seq<Row>, tag: Item, guarded: bool) returns (r: Tags)
    ensures r == TagStep(t, g, types, tag, guarded)
  {
    var t1 := Put(t, Slot(g, Category), GroupName(g), guarded);
    r := t1;
    if tag.Text? {
      var lower := Lower(tag.s);
      var k := FindFirst(Names(types), lower, true);
      assert k == TypeOfTag(types, tag);
      if k >= 0 {
        var t2 := Put(t1, Slot(g, Kind), types[k].name, guarded);
        r := t2;
        var c := FindFirst(types[k].varieties, lower, true);
        assert c == VarietyOfTag(types, k, tag);
        if c >= 0 {
          r := Put(t2, Slot(g, Variety), types[k].varieties[c], guarded);
        }
      } else {
        assert TagStep(t, g, types, tag, guarded) == t1;
      }
    } else {
      assert TypeOfTag(types, tag) == -1;
      assert TagStep(t, g, types, tag, guarded) == t1;
    }
  }

  method ProcessTags(t: Tags, g: Group, types: seq<Row>, tags: seq<Item>, guarded: bool) returns (r: Tags)
    ensures r == TagPass(t, g, types, tags, guarded)
  {
    r := t;
    var i := 0;
    while i < |tags|
      invariant 0 <= i <= |tags|
      invariant r == TagPass(t, g, types, tags[..i], guarded)
      decreases |tags| - i
    {
      TagPassSnoc(t, g, types, tags, guarded, i);
      r := ProcessTag(r, g, types, tags[i], guarded);
      i := i + 1;
    }
    assert tags[..|tags|] == tags;
  }

  lemma TagPassSnoc(t: Tags, g: Group, types: seq<Row>, tags: seq<Item>, guarded: bool, i: nat)
    requires i < |tags|
    ensures TagPass(t, g, types, tags[..i + 1], guarded)
         == TagStep(TagPass(t, g, types, tags[..i], guarded), g, types, tags[i], guarded)
  {
    var pre := tags[..i + 1];
    assert |pre| - 1 == i;
    assert pre[..|pre| - 1] == tags[..i];
    assert pre[|pre| - 1] == tags[i];
    assert TagPass(t, g, types, pre, guarded)
        == TagStep(TagPass(t, g, types, pre[..|pre| - 1], guarded), g, types, pre[|pre| - 1], guarded);
  }

  lemma GrowsIn(a: Tags, b: Tags, s: Slot, x: string)
    requires Grows(a, b) && x in Get(a, s)
    ensures x in Get(b, s)
  {
    assert Get(a, s) <= Get(b, s);
  }

  lemma Grows3(a: Tags, b: Tags, c: Tags)
    requires Grows(a, b) && Grows(b, c)
    ensures Grows(a, c)
  {
    forall s
      ensures Get(a, s) <= Get(c, s)
    {
      assert Get(a, s) <= Get(b, s) && Get(b, s) <= Get(c, s);
    }
  }

  /** The tag loop over a prefix gives arrays that the loop over all tags extends. */
  lemma {:induction false} TagPassExtendsPrefix(t: Tags, g: Group, types: seq<Row>, tags: seq<Item>, guarded: bool, n: nat)
    requires n <= |tags|
    ensures Grows(TagPass(t, g, types, tags[..n], guarded), TagPass(t, g, types, tags, guarded))
    decreases |tags| - n
  {
    if n < |tags| {
      var init := tags[..|tags| - 1];
      assert init[..n] == tags[..n];
      TagPassExtendsPrefix(t, g, types, init, guarded, n);
      TagStepFacts(TagPass(t, g, types, init, guarded), g, types, tags[|tags| - 1], guarded);
      Grows3(TagPass(t, g, types, tags[..n], guarded), TagPass(t, g, types, init, guarded), TagPass(t, g, types, tags, guarded));
    } else {
      assert tags[..n] == tags;
    }
  }

  /**
   * Every tag leaves its mark: the category, and when the tag names a type,
   * that type and the first variety of it the tag names.
   */
  lemma TagPassRecordsEachTag(t: Tags, g: Group, types: seq<Row>, tags: seq<Item>, guarded: bool, i: nat)
    requires i < |tags|
    ensures var r := TagPass(t, g, types, tags, guarded);
      var k := TypeOfTag(types, tags[i]);
      GroupName(g) in Get(r, Slot(g, Category))
      && (k >= 0 ==> types[k].name in Get(r, Slot(g, Kind)))
      && (k >= 0 && VarietyOfTag(types, k, tags[i]) >= 0 ==>
            types[k].varieties[VarietyOfTag(types, k, tags[i])] in Get(r, Slot(g, Variety)))
  {
    assert tags[..i + 1][..i] == tags[..i];
    TagStepFacts(TagPass(t, g, types, tags[..i], guarded), g, types, tags[i], guarded);
    TagPassExtendsPrefix(t, g, types, tags, guarded, i + 1);
    var step := TagPass(t, g, types, tags[..i + 1], guarded);
    var r := TagPass(t, g, types, tags, guarded);
    GrowsIn(step, r, Slot(g, Category), GroupName(g));
    var k := TypeOfTag(types, tags[i]);
    if k >= 0 {
      GrowsIn(step, r, Slot(g, Kind), types[k].name);
      var c := VarietyOfTag(types, k, tags[i]);
      if c >= 0 {
        GrowsIn(step, r, Slot(g, Variety), types[k].varieties[c]);
      }
    }
  }

  // ---------------------------------------------------------------------
  // ingredients: a scan over the rows of a table
  // ---------------------------------------------------------------------

  /**
   * How an ingredient matches a row: by its first contained variety (the
   * term lower-cased too when `lowerTerms`), or by containing the type name,
   * after which the first contained variety is added when there is one.
   */
  datatype RowRule = ByVariety(lowerTerms: bool) | ByType

  /** The variety of a row an ingredient names, or -1. */
  function RowVariety(row: Row, text: string, rule: RowRule): (c: int)
    ensures -1 <= c < |row.varieties|
  {
    FirstContained(row.varieties, text, rule.ByVariety? && rule.lowerTerms)
  }

  /** Whether a row tags an ingredient at all. */
  predicate RowMatches(row: Row, text: string, rule: RowRule) {
    if rule.ByType? then Contains(text, row.name) else RowVariety(row, text, rule) >= 0
  }

  /** One row of the scan for a lower-cased ingredient; every push is guarded. */
  function RowStep(t: Tags, row: Row, text: string, rule: RowRule): Tags {
    if !RowMatches(row, text, rule) then t
    else
      var t1 := Put(t, Slot(row.group, Category), GroupName(row.group), true);
      var t2 := Put(t1, Slot(row.group, Kind), row.name, true);
      var c := RowVariety(row, text, rule);
      if c < 0 then t2 else Put(t2, Slot(row.group, Variety), row.varieties[c], true)
  }

  /** A matching row adds its category, its type and its first contained variety, and touches no other group. */
  lemma RowStepFacts(t: Tags, row: Row, text: string, rule: RowRule)
    ensures var r := RowStep(t, row, text, rule);
      Grows(t, r)
      && (AllDistinct(t) ==> AllDistinct(r))
      && (forall s: Slot :: s.group != row.group ==> Get(r, s) == Get(t, s))
      && (!RowMatches(row, text, rule) ==> r == t)
      && (RowMatches(row, text, rule) ==>
            GroupName(row.group) in Get(r, Slot(row.group, Category)) && row.name in Get(r, Slot(row.group, Kind)))
      && (RowMatches(row, text, rule) && RowVariety(row, text, rule) >= 0 ==>
            row.varieties[RowVariety(row, text, rule)] in Get(r, Slot(row.group, Variety)))
  {
    if RowMatches(row, text, rule) {
      MatchedRowFacts(t, row, text, rule);
    }
  }

  /** The three guarded pushes of a matching row. */
  lemma MatchedRowFacts(t: Tags, row: Row, text: string, rule: RowRule)
    requires RowMatches(row, text, rule)
    ensures var r := RowStep(t, row, text, rule);
      Grows(t, r)
      && (AllDistinct(t) ==> AllDistinct(r))
      && (forall s: Slot :: s.group != row.group ==> Get(r, s) == Get(t, s))
      && GroupName(row.group) in Get(r, Slot(row.group, Category)) && row.name in Get(r, Slot(row.group, Kind))
      && (RowVariety(row, text, rule) >= 0 ==> row.varieties[RowVariety(row, text, rule)] in Get(r, Slot(row.group, Variety)))
  {
    var g := row.group;
    var t1 := Put(t, Slot(g, Category), GroupName(g), true);
    var t2 := Put(t1, Slot(g, Kind), row.name, true);
    PutGrows(t, Slot(g, Category), GroupName(g), true);
    PutGrows(t1, Slot(g, Kind), row.name, true);
    Grows3(t, t1, t2);
    if AllDistinct(t) {
      PutKeepsDistinct(t, Slot(g, Category), GroupName(g));
      PutKeepsDistinct(t1, Slot(g, Kind), row.name);
    }
    GrowsIn(t1, t2, Slot(g, Category), GroupName(g));
    var c := RowVariety(row, text, rule);
    if c >= 0 {
      var t3 := Put(t2, Slot(g, Variety), row.varieties[c], true);
      PutGrows(t2, Slot(g, Variety), row.varieties[c], true);
      Grows3(t, t2, t3);
      if AllDistinct(t) {
        PutKeepsDistinct(t2, Slot(g, Variety), row.varieties[c]);
      }
      GrowsIn(t2, t3, Slot(g, Category), GroupName(g));
      GrowsIn(t2, t3, Slot(g, Kind), row.name);
    }
  }

  function RowsPass(t: Tags, rows: seq<Row>, text: string, rule: RowRule): Tags
    decreases |rows|
  {
    if rows == [] then t
    else RowStep(RowsPass(t, rows[..|rows| - 1], text, rule), rows[|rows| - 1], text, rule)
  }

  lemma {:induction false} RowsPassFacts(t: Tags, rows: seq<Row>, text: string, rule: RowRule)
    ensures Grows(t, RowsPass(t, rows, text, rule))
    ensures AllDistinct(t) ==> AllDistinct(RowsPass(t, rows, text, rule))
    decreases |rows|
  {
    if rows != [] {
      var before := RowsPass(t, rows[..|rows| - 1], text, rule);
      RowsPassFacts(t, rows[..|rows| - 1], text, rule);
      RowStepFacts(before, rows[|rows| - 1], text, rule);
      Grows3(t, before, RowsPass(t, rows, text, rule));
    }
  }

  /** The body of the type loop: one row's test and its three guarded pushes. */
  method ScanRow(t: Tags, row: Row, text: string, rule: RowRule) returns (r: Tags)
    ensures r == RowStep(t, row, text, rule)
  {
    r := t;
    var matches: bool;
    var c := FindFirst(row.varieties, text, rule.ByVariety? && rule.lowerTerms);
    if rule.ByType? {
      matches := Contains(text, row.name);
    } else {
      matches := c >= 0;
    }
    assert c == RowVariety(row, text, rule) && matches == RowMatches(row, text, rule);
    if matches {
      r := Put(r, Slot(row.group, Category), GroupName(row.group), true);
      r := Put(r, Slot(row.group, Kind), row.name, true);
      if c >= 0 {
        r := Put(r, Slot(row.group, Variety), row.varieties[c], true);
      }
    }
  }

  /** The nested category/type loops for one (lower-cased) ingredient. */
  method ScanRows(t: Tags, rows: seq<Row>, text: string, rule: RowRule) returns (r: Tags)
    ensures r == RowsPass(t, rows, text, rule)
  {
    r := t;
    var i := 0;
    while i < |rows|
      invariant 0 <= i <= |rows|
      invariant r == RowsPass(t, rows[..i], text, rule)
      decreases |rows| - i
    {
      r := ScanRow(r, rows[i], text, rule);
      RowsPassSnoc(t, rows, text, rule, i);
      i := i + 1;
    }
    assert rows[..|rows|] == rows;
  }

  lemma RowsPassSnoc(t: Tags, rows: seq<Row>, text: string, rule: RowRule, i: nat)
    requires i < |rows|
    ensures RowsPass(t, rows[..i + 1], text, rule) == RowStep(RowsPass(t, rows[..i], text, rule), rows[i], text, rule)
  {
    var pre := rows[..i + 1];
    assert |pre| - 1 == i;
    assert pre[..|pre| - 1] == rows[..i];
    assert pre[|pre| - 1] == rows[i];
    assert RowsPass(t, pre, text, rule) == RowStep(RowsPass(t, pre[..|pre| - 1], text, rule), pre[|pre| - 1], text, rule);
  }

  lemma {:induction false} RowsPassExtendsPrefix(t: Tags, rows: seq<Row>, text: string, rule: RowRule, n: nat)
    requires n <= |rows|
    ensures Grows(RowsPass(t, rows[..n], text, rule), RowsPass(t, rows, text, rule))
    decreases |rows| - n
  {
    if n < |rows| {
      var init := rows[..|rows| - 1];
      assert init[..n] == rows[..n];
      RowsPassExtendsPrefix(t, init, text, rule, n);
      RowStepFacts(RowsPass(t, init, text, rule), rows[|rows| - 1], text, rule);
      Grows3(RowsPass(t, rows[..n], text, rule), RowsPass(t, init, text, rule), RowsPass(t, rows, text, rule));
    } else {
      assert rows[..n] == rows;
    }
  }

  /** Every matching row is tagged, however many rows of other types and groups match too. */
  lemma RowsPassTagsEveryRow(t: Tags, rows: seq<Row>, text: string, rule: RowRule, j: nat)
    requires j < |rows| && RowMatches(rows[j], text, rule)
    ensures var r := RowsPass(t, rows, text, rule);
      var g := rows[j].group;
      GroupName(g) in Get(r, Slot(g, Category)) && rows[j].name in Get(r, Slot(g, Kind))
      && (RowVariety(rows[j], text, rule) >= 0 ==>
            rows[j].varieties[RowVariety(rows[j], text, rule)] in Get(r, Slot(g, Variety)))
  {
    assert rows[..j + 1][..j] == rows[..j];
    RowStepFacts(RowsPass(t, rows[..j], text, rule), rows[j], text, rule);
    RowsPassExtendsPrefix(t, rows, text, rule, j + 1);
    var step := RowsPass(t, rows[..j + 1], text, rule);
    var r := RowsPass(t, rows, text, rule);
    var g := rows[j].group;
    assert Get(step, Slot(g, Category)) <= Get(r, Slot(g, Category));
    assert Get(step, Slot(g, Kind)) <= Get(r, Slot(g, Kind));
    assert Get(step, Slot(g, Variety)) <= Get(r, Slot(g, Variety));
  }

  /** Rows of other groups leave a group's arrays alone. */
  lemma {:induction false} RowsPassOtherGroups(t: Tags, rows: seq<Row>, text: string, rule: RowRule, g: Group)
    requires forall j :: 0 <= j < |rows| ==> rows[j].group != g
    ensures forall l :: Get(RowsPass(t, rows, text, rule), Slot(g, l)) == Get(t, Slot(g, l))
    decreases |rows|
  {
    if rows != [] {
      RowsPassOtherGroups(t, rows[..|rows| - 1], text, rule, g);
      RowStepFacts(RowsPass(t, rows[..|rows| - 1], text, rule), rows[|rows| - 1], text, rule);
    }
  }

  /** Rows that none of them tags the text leave every array as it was. */
  lemma {:induction false} RowsPassNoMatch(t: Tags, rows: seq<Row>, text: string, rule: RowRule)
    requires forall j :: 0 <= j < |rows| ==> !RowMatches(rows[j], text, rule)
    ensures RowsPass(t, rows, text, rule) == t
    decreases |rows|
  {
    if rows != [] {
      RowsPassNoMatch(t, rows[..|rows| - 1], text, rule);
    }
  }

  /** One ingredient: non-strings are skipped, strings are lower-cased and scanned. */
  function IngredientStep(t: Tags, rows: seq<Row>, item: Item, rule: RowRule): Tags {
    if item.Text? then RowsPass(t, rows, Lower(item.s), rule) else t
  }

  function IngredientsPass(t: Tags, rows: seq<Row>, items: seq<Item>, rule: RowRule): Tags
    decreases |items|
  {
    if items == [] then t
    else IngredientStep(IngredientsPass(t, rows, items[..|items| - 1], rule), rows, items[|items| - 1], rule)
  }

  lemma {:induction false} IngredientsPassFacts(t: Tags, rows: seq<Row>, items: seq<Item>, rule: RowRule)
    ensures Grows(t, IngredientsPass(t, rows, items, rule))
    ensures AllDistinct(t) ==> AllDistinct(IngredientsPass(t, rows, items, rule))
    decreases |items|
  {
    if items != [] {
      var before := IngredientsPass(t, rows, items[..|items| - 1], rule);
      IngredientsPassFacts(t, rows, items[..|items| - 1], rule);
      var last := items[|items| - 1];
      if last.Text? {
        RowsPassFacts(before, rows, Lower(last.s), rule);
      }
      Grows3(t, before, IngredientsPass(t, rows, items, rule));
    }
  }

  /** An ingredient list of rows of other groups leaves a group's arrays alone. */
  lemma {:induction false} IngredientsPassOtherGroups(t: Tags, rows: seq<Row>, items: seq<Item>, rule: RowRule, g: Group)
    requires forall j :: 0 <= j < |rows| ==> rows[j].group != g
    ensures SameGroup(IngredientsPass(t, rows, items, rule), t, g)
    decreases |items|
  {
    if items != [] {
      var before := IngredientsPass(t, rows, items[..|items| - 1], rule);
      IngredientsPassOtherGroups(t, rows, items[..|items| - 1], rule, g);
      var last := items[|items| - 1];
      if last.Text? {
        RowsPassOtherGroups(before, rows, Lower(last.s), rule, g);
      }
    }
  }

  /** The ingredient loop over `a + b` is the loop over `b` started where the loop over `a` ends. */
  lemma {:induction false} IngredientsPassConcat(t: Tags, rows: seq<Row>, a: seq<Item>, b: seq<Item>, rule: RowRule)
    ensures IngredientsPass(t, rows, a + b, rule) == IngredientsPass(IngredientsPass(t, rows, a, rule), rows, b, rule)
    decreases |b|
  {
    if b == [] {
      assert a + b == a;
    } else {
      assert (a + b)[..|a + b| - 1] == a + b[..|b| - 1];
      IngredientsPassConcat(t, rows, a, b[..|b| - 1], rule);
    }
  }

  /** An ingredient that no row tags can be left out of the list without changing the result. */
  lemma IngredientsPassSkipsUnmatched(t: Tags, rows: seq<Row>, items: seq<Item>, rule: RowRule, i: nat)
    requires i < |items|
    requires items[i].Text? ==> forall j :: 0 <= j < |rows| ==> !RowMatches(rows[j], Lower(items[i].s), rule)
    ensures IngredientsPass(t, rows, items, rule) == IngredientsPass(t, rows, items[..i] + items[i + 1..], rule)
  {
    var a := items[..i];
    var b := items[i + 1..];
    assert items == (a + [items[i]]) + b;
    IngredientsPassConcat(t, rows, a + [items[i]], b, rule);
    IngredientsPassConcat(t, rows, a, b, rule);
    var mid := IngredientsPass(t, rows, a, rule);
    assert (a + [items[i]])[..|a + [items[i]]| - 1] == a;
    if items[i].Text? {
      RowsPassNoMatch(mid, rows, Lower(items[i].s), rule);
    }
  }

  method ScanIngredients(t: Tags, rows: seq<Row>, items: seq<Item>, rule: RowRule) returns (r: Tags)
    ensures r == IngredientsPass(t, rows, items, rule)
  {
    r := t;
    var i := 0;
    while i < |items|
      invariant 0 <= i <= |items|
      invariant r == IngredientsPass(t, rows, items[..i], rule)
      decreases |items| - i
    {
      if items[i].Text? {
        r := ScanRows(r, rows, Lower(items[i].s), rule);
      }
      assert items[..i + 1][..i] == items[..i];
      i := i + 1;
    }
    assert items[..|items|] == items;
  }

  lemma {:induction false} IngredientsPassExtendsPrefix(t: Tags, rows: seq<Row>, items: seq<Item>, rule: RowRule, n: nat)
    requires n <= |items|
    ensures Grows(IngredientsPass(t, rows, items[..n], rule), IngredientsPass(t, rows, items, rule))
    decreases |items| - n
  {
    if n < |items| {
      var init := items[..|items| - 1];
      assert init[..n] == items[..n];
      IngredientsPassExtendsPrefix(t, rows, init, rule, n);
      IngredientsPassFacts(IngredientsPass(t, rows, init, rule), rows, [items[|items| - 1]], rule);
      var before := IngredientsPass(t, rows, init, rule);
      if items[|items| - 1].Text? {
        RowsPassFacts(before, rows, Lower(items[|items| - 1].s), rule);
      }
      Grows3(IngredientsPass(t, rows, items[..n], rule), before, IngredientsPass(t, rows, items, rule));
    } else {
      assert items[..n] == items;
    }
  }

  /**
   * For each string ingredient and each row it matches, the row's category,
   * type and first contained variety end up in the result.
   */
  lemma IngredientsPassTagsEveryMatch(t: Tags, rows: seq<Row>, items: seq<Item>, rule: RowRule, i: nat, j: nat)
    requires i < |items| && items[i].Text? && j < |rows| && RowMatches(rows[j], Lower(items[i].s), rule)
    ensures var r := IngredientsPass(t, rows, items, rule);
      var g := rows[j].group;
      var c := RowVariety(rows[j], Lower(items[i].s), rule);
      GroupName(g) in Get(r, Slot(g, Category)) && rows[j].name in Get(r, Slot(g, Kind))
      && (c >= 0 ==> rows[j].varieties[c] in Get(r, Slot(g, Variety)))
  {
    var before := IngredientsPass(t, rows, items[..i], rule);
    assert items[..i + 1][..i] == items[..i];
    RowsPassTagsEveryRow(before, rows, Lower(items[i].s), rule, j);
    IngredientsPassExtendsPrefix(t, rows, items, rule, i + 1);
    var step := IngredientsPass(t, rows, items[..i + 1], rule);
    var r := IngredientsPass(t, rows, items, rule);
    var g := rows[j].group;
    assert Get(step, Slot(g, Category)) <= Get(r, Slot(g, Category));
    assert Get(step, Slot(g, Kind)) <= Get(r, Slot(g, Kind));
    assert Get(step, Slot(g, Variety)) <= Get(r, Slot(g, Variety));
  }

  // ---------------------------------------------------------------------
  // required_cookware against a table of keyed cookware types
  // ---------------------------------------------------------------------

  /**
   * One cookware item: non-strings are skipped; 'cookware' is pushed always
   * (`always`) or only once a type matches; then the first type whose name or
   * synonyms occur in the lower-cased item, and that type's first contained variety.
   */
  function KeyedStep(t: Tags, keys: seq<Keyed>, item: Item, always: bool, guarded: bool, lowerTerms: bool): Tags {
    if item.Text? then KeyedText(t, keys, Lower(item.s), always, guarded, lowerTerms) else t
  }

  /** A string item, already lower-cased. */
  function KeyedText(t: Tags, keys: seq<Keyed>, text: string, always: bool, guarded: bool, lowerTerms: bool): Tags {
    var k := FirstKeyed(keys, text, lowerTerms);
    if k < 0 then
      if always then Put(t, Slot(Cookware, Category), GroupName(Cookware), guarded) else t
    else TypedStep(Put(t, Slot(Cookware, Category), GroupName(Cookware), guarded), keys[k], text, guarded, lowerTerms)
  }

  /** The type found and its first contained variety. */
  function TypedStep(t: Tags, key: Keyed, text: string, guarded: bool, lowerTerms: bool): Tags {
    var t1 := Put(t, Slot(Cookware, Kind), key.name, guarded);
    var c := FirstContained(key.varieties, text, lowerTerms);
    if c < 0 then t1 else Put(t1, Slot(Cookware, Variety), key.varieties[c], guarded)
  }

  lemma TypedStepFacts(t: Tags, key: Keyed, text: string, guarded: bool, lowerTerms: bool)
    ensures Grows(t, TypedStep(t, key, text, guarded, lowerTerms))
    ensures forall s: Slot :: s.group != Cookware ==> Get(TypedStep(t, key, text, guarded, lowerTerms), s) == Get(t, s)
    ensures forall x :: x in Get(t, Slot(Cookware, Category)) ==> x in Get(TypedStep(t, key, text, guarded, lowerTerms), Slot(Cookware, Category))
    ensures guarded && AllDistinct(t) ==> AllDistinct(TypedStep(t, key, text, guarded, lowerTerms))
    ensures key.name in Get(TypedStep(t, key, text, guarded, lowerTerms), Slot(Cookware, Kind))
    ensures FirstContained(key.varieties, text, lowerTerms) >= 0 ==>
      key.varieties[FirstContained(key.varieties, text, lowerTerms)] in Get(TypedStep(t, key, text, guarded, lowerTerms), Slot(Cookware, Variety))
  {
    var t1 := Put(t, Slot(Cookware, Kind), key.name, guarded);
    PutGrows(t, Slot(Cookware, Kind), key.name, guarded);
    if guarded && AllDistinct(t) {
      PutKeepsDistinct(t, Slot(Cookware, Kind), key.name);
    }
    var c := FirstContained(key.varieties, text, lowerTerms);
    if c >= 0 {
      var t2 := Put(t1, Slot(Cookware, Variety), key.varieties[c], guarded);
      PutGrows(t1, Slot(Cookware, Variety), key.varieties[c], guarded);
      Grows3(t, t1, t2);
      if guarded && AllDistinct(t) {
        PutKeepsDistinct(t1, Slot(Cookware, Variety), key.varieties[c]);
      }
    }
  }

  /** The type an item falls under, or -1 (also for a non-string item). */
  function KeyOfItem(keys: seq<Keyed>, item: Item, lowerTerms: bool): (k: int)
    ensures -1 <= k < |keys|
  {
    if item.Text? then FirstKeyed(keys, Lower(item.s), lowerTerms) else -1
  }

  /** A string adds 'cookware' (always, or when a type matches), its type and that type's first contained variety. */
  lemma KeyedTextFacts(t: Tags, keys: seq<Keyed>, text: string, always: bool, guarded: bool, lowerTerms: bool)
    ensures var r := KeyedText(t, keys, text, always, guarded, lowerTerms);
      var k := FirstKeyed(keys, text, lowerTerms);
      Grows(t, r)
      && (forall s: Slot :: s.group != Cookware ==> Get(r, s) == Get(t, s))
      && (guarded && AllDistinct(t) ==> AllDistinct(r))
      && (always || k >= 0 ==> GroupName(Cookware) in Get(r, Slot(Cookware, Category)))
      && (k < 0 && !always ==> r == t)
      && (k >= 0 ==> keys[k].name in Get(r, Slot(Cookware, Kind)))
      && (k >= 0 && FirstContained(keys[k].varieties, text, lowerTerms) >= 0 ==>
            keys[k].varieties[FirstContained(keys[k].varieties, text, lowerTerms)] in Get(r, Slot(Cookware, Variety)))
  {
    var k := FirstKeyed(keys, text, lowerTerms);
    var cat := Slot(Cookware, Category);
    if always || k >= 0 {
      var t1 := Put(t, cat, GroupName(Cookware), guarded);
      PutGrows(t, cat, GroupName(Cookware), guarded);
      if guarded && AllDistinct(t) {
        PutKeepsDistinct(t, cat, GroupName(Cookware));
      }
      if k >= 0 {
        TypedStepFacts(t1, keys[k], text, guarded, lowerTerms);
        Grows3(t, t1, TypedStep(t1, keys[k], text, guarded, lowerTerms));
      }
    }
  }

  /** The same for any item: a non-string item changes nothing. */
  lemma KeyedStepFacts(t: Tags, keys: seq<Keyed>, item: Item, always: bool, guarded: bool, lowerTerms: bool)
    ensures var r := KeyedStep(t, keys, item, always, guarded, lowerTerms);
      var k := KeyOfItem(keys, item, lowerTerms);
      Grows(t, r)
      && (forall s: Slot :: s.group != Cookware ==> Get(r, s) == Get(t, s))
      && (guarded && AllDistinct(t) ==> AllDistinct(r))
      && (item.Text? && (always || k >= 0) ==> GroupName(Cookware) in Get(r, Slot(Cookware, Category)))
      && (k < 0 && !(item.Text? && always) ==> r == t)
      && (k >= 0 ==> keys[k].name in Get(r, Slot(Cookware, Kind)))
      && (k >= 0 && FirstContained(keys[k].varieties, Lower(item.s), lowerTerms) >= 0 ==>
            keys[k].varieties[FirstContained(keys[k].varieties, Lower(item.s), lowerTerms)] in Get(r, Slot(Cookware, Variety)))
  {
    if item.Text? {
      KeyedTextFacts(t, keys, Lower(item.s), always, guarded, lowerTerms);
    }
  }

  function KeyedPass(t: Tags, keys: seq<Keyed>, items: seq<Item>, always: bool, guarded: bool, lowerTerms: bool): Tags
    decreases |items|
  {
    if items == [] then t
    else KeyedStep(KeyedPass(t, keys, items[..|items| - 1], always, guarded, lowerTerms), keys, items[|items| - 1], always, guarded, lowerTerms)
  }

  lemma {:induction false} KeyedPassFacts(t: Tags, keys: seq<Keyed>, items: seq<Item>, always: bool, guarded: bool, lowerTerms: bool)
    ensures var r := KeyedPass(t, keys, items, always, guarded, lowerTerms);
      Grows(t, r)
      && (forall s: Slot :: s.group != Cookware ==> Get(r, s) == Get(t, s))
      && (guarded && AllDistinct(t) ==> AllDistinct(r))
    decreases |items|
  {
    if items != [] {
      var before := KeyedPass(t, keys, items[..|items| - 1], always, guarded, lowerTerms);
      KeyedPassFacts(t, keys, items[..|items| - 1], always, guarded, lowerTerms);
      KeyedStepFacts(before, keys, items[|items| - 1], always, guarded, lowerTerms);
      Grows3(t, before, KeyedPass(t, keys, items, always, guarded, lowerTerms));
    }
  }

  /** Items that fall under no type (and, unless `always`, strings too) leave the arrays alone. */
  lemma {:induction false} KeyedPassUnmatched(t: Tags, keys: seq<Keyed>, items: seq<Item>, always: bool, guarded: bool, lowerTerms: bool)
    requires forall i :: 0 <= i < |items| ==> KeyOfItem(keys, items[i], lowerTerms) < 0 && !(items[i].Text? && always)
    ensures KeyedPass(t, keys, items, always, guarded, lowerTerms) == t
    decreases |items|
  {
    if items != [] {
      KeyedPassUnmatched(t, keys, items[..|items| - 1], always, guarded, lowerTerms);
      KeyedStepFacts(t, keys, items[|items| - 1], always, guarded, lowerTerms);
    }
  }

  /** The body of the cookware loop for one item. */
  method ScanType(t: Tags, key: Keyed, text: string, guarded: bool, lowerTerms: bool) returns (r: Tags)
    ensures r == TypedStep(t, key, text, guarded, lowerTerms)
  {
    r := Put(t, Slot(Cookware, Kind), key.name, guarded);
    var c := FindFirst(key.varieties, text, lowerTerms);
    if c >= 0 {
      r := Put(r, Slot(Cookware, Variety), key.varieties[c], guarded);
    }
  }

  method ScanKeyedItem(t: Tags, keys: seq<Keyed>, item: Item, always: bool, guarded: bool, lowerTerms: bool) returns (r: Tags)
    ensures r == KeyedStep(t, keys, item, always, guarded, lowerTerms)
  {
    r := t;
    if item.Text? {
      var text := Lower(item.s);
      var k := FindFirstKeyed(keys, text, lowerTerms);
      if always || k >= 0 {
        r := Put(r, Slot(Cookware, Category), GroupName(Cookware), guarded);
      }
      if k >= 0 {
        r := ScanType(r, keys[k], text, guarded, lowerTerms);
      }
    }
  }

  method ScanKeyed(t: Tags, keys: seq<Keyed>, items: seq<Item>, always: bool, guarded: bool, lowerTerms: bool) returns (r: Tags)
    ensures r == KeyedPass(t, keys, items, always, guarded, lowerTerms)
  {
    r := t;
    var i := 0;
    while i < |items|
      invariant 0 <= i <= |items|
      invariant r == KeyedPass(t, keys, items[..i], always, guarded, lowerTerms)
      decreases |items| - i
    {
      r := ScanKeyedItem(r, keys, items[i], always, guarded, lowerTerms);
      assert items[..i + 1][..i] == items[..i];
      i := i + 1;
    }
    assert items[..|items|] == items;
  }

  lemma {:induction false} KeyedPassExtendsPrefix(t: Tags, keys: seq<Keyed>, items: seq<Item>, always: bool, guarded: bool, lowerTerms: bool, n: nat)
    requires n <= |items|
    ensures Grows(KeyedPass(t, keys, items[..n], always, guarded, lowerTerms), KeyedPass(t, keys, items, always, guarded, lowerTerms))
    decreases |items| - n
  {
    if n < |items| {
      var init := items[..|items| - 1];
      assert init[..n] == items[..n];
      KeyedPassExtendsPrefix(t, keys, init, always, guarded, lowerTerms, n);
      KeyedStepFacts(KeyedPass(t, keys, init, always, guarded, lowerTerms), keys, items[|items| - 1], always, guarded, lowerTerms);
      Grows3(KeyedPass(t, keys, items[..n], always, guarded, lowerTerms), KeyedPass(t, keys, init, always, guarded, lowerTerms),
             KeyedPass(t, keys, items, always, guarded, lowerTerms));
    } else {
      assert items[..n] == items;
    }
  }

  /** Each item's type and first contained variety are recorded, and 'cookware' with them. */
  lemma KeyedPassTagsEachItem(t: Tags, keys: seq<Keyed>, items: seq<Item>, always: bool, guarded: bool, lowerTerms: bool, i: nat)
    requires i < |items|
    ensures var r := KeyedPass(t, keys, items, always, guarded, lowerTerms);
      var k := KeyOfItem(keys, items[i], lowerTerms);
      (items[i].Text? && (always || k >= 0) ==> GroupName(Cookware) in Get(r, Slot(Cookware, Category)))
      && (k >= 0 ==> keys[k].name in Get(r, Slot(Cookware, Kind)))
      && (k >= 0 && FirstContained(keys[k].varieties, Lower(items[i].s), lowerTerms) >= 0 ==>
            keys[k].varieties[FirstContained(keys[k].varieties, Lower(items[i].s), lowerTerms)] in Get(r, Slot(Cookware, Variety)))
  {
    assert items[..i + 1][..i] == items[..i];
    KeyedStepFacts(KeyedPass(t, keys, items[..i], always, guarded, lowerTerms), keys, items[i], always, guarded, lowerTerms);
    KeyedPassExtendsPrefix(t, keys, items, always, guarded, lowerTerms, i + 1);
    var step := KeyedPass(t, keys, items[..i + 1], always, guarded, lowerTerms);
    var r := KeyedPass(t, keys, items, always, guarded, lowerTerms);
    var k := KeyOfItem(keys, items[i], lowerTerms);
    if items[i].Text? && (always || k >= 0) {
      GrowsIn(step, r, Slot(Cookware, Category), GroupName(Cookware));
    }
    if k >= 0 {
      GrowsIn(step, r, Slot(Cookware, Kind), keys[k].name);
      var c := FirstContained(keys[k].varieties, Lower(items[i].s), lowerTerms);
      if c >= 0 {
        GrowsIn(step, r, Slot(Cookware, Variety), keys[k].varieties[c]);
      }
    }
  }

  // ---------------------------------------------------------------------
  // `[...new Set(arr)]`
  // ---------------------------------------------------------------------

  /** The distinct elements in order of first occurrence, as a `Set` iterates them. */
  function Dedup(xs: seq<string>): (r: seq<string>)
    ensures Distinct(r)
    ensures forall x :: x in r <==> x in xs
    ensures |r| <= |xs|
    decreases |xs|
  {
    if xs == [] then []
    else
      var d := Dedup(xs[..|xs| - 1]);
      var x := xs[|xs| - 1];
      assert forall y :: y in xs <==> y in xs[..|xs| - 1] || y == x;
      if x in d then d
      else
        var r := d + [x];
        assert forall i :: 0 <= i < |d| ==> r[i] == d[i];
        r
  }

  /** The index of the first occurrence of `x` in `xs`. */
  function FirstIndex(xs: seq<string>, x: string): (i: nat)
    requires x in xs
    ensures i < |xs| && xs[i] == x && x !in xs[..i]
    decreases |xs|
  {
    if xs[0] == x then 0
    else
      var j := FirstIndex(xs[1..], x);
      assert xs[..j + 1] == [xs[0]] + xs[1..][..j];
      j + 1
  }

  /** Appending an element does not move the first occurrence of one already present. */
  lemma FirstIndexSnoc(xs: seq<string>, x: string, y: string)
    requires y in xs
    ensures FirstIndex(xs + [x], y) == FirstIndex(xs, y)
  {
    var a := FirstIndex(xs + [x], y);
    var b := FirstIndex(xs, y);
    assert (xs + [x])[b] == y;
  }

  /**
   * `[...new Set(xs)]` keeps the order of first occurrence: its elements
   * appear in the order in which they first occur in `xs`. With its
   * distinctness and membership this determines the result completely.
   */
  lemma {:induction false} DedupInOrder(xs: seq<string>)
    ensures forall i, j :: 0 <= i < j < |Dedup(xs)| ==>
      FirstIndex(xs, Dedup(xs)[i]) < FirstIndex(xs, Dedup(xs)[j])
    decreases |xs|
  {
    if xs != [] {
      var init := xs[..|xs| - 1];
      var x := xs[|xs| - 1];
      var d := Dedup(init);
      DedupInOrder(init);
      assert xs == init + [x];
      forall y | y in d
        ensures FirstIndex(xs, y) == FirstIndex(init, y) < |init|
      {
        FirstIndexSnoc(init, x, y);
      }
      if x !in d {
        assert x !in init;
        assert FirstIndex(xs, x) == |init| by {
          assert xs[|init|] == x;
          assert forall k :: 0 <= k < |init| ==> xs[k] == init[k];
        }
        var r := d + [x];
        forall i, j | 0 <= i < j < |r|
          ensures FirstIndex(xs, r[i]) < FirstIndex(xs, r[j])
        {
          assert r[i] == d[i] && r[i] in d;
          if j < |d| {
            assert r[j] == d[j] && r[j] in d;
          }
        }
      }
    }
  }

  /** An array that already has no duplicates is left as it is. */
  lemma {:induction false} DedupDistinct(xs: seq<string>)
    requires Distinct(xs)
    ensures Dedup(xs) == xs
    decreases |xs|
  {
    if xs != [] {
      var init := xs[..|xs| - 1];
      assert Distinct(init);
      DedupDistinct(init);
      assert xs[|xs| - 1] !in init;
      assert init + [xs[|xs| - 1]] == xs;
    }
  }

  /** After the first `i` keys of the loop: those arrays deduplicated, the others as they were. */
  ghost predicate DedupedPrefix(r: Tags, t: Tags, i: nat)
    requires i <= |AllSlots|
  {
    forall s :: Get(r, s) == if s in AllSlots[..i] then Dedup(Get(t, s)) else Get(t, s)
  }

  lemma DedupSlotStep(r: Tags, t: Tags, i: nat)
    requires i < |AllSlots| && DedupedPrefix(r, t, i)
    ensures DedupedPrefix(r[AllSlots[i] := Dedup(Get(r, AllSlots[i]))], t, i + 1)
  {
    var x := AllSlots[i];
    var u := r[x := Dedup(Get(r, x))];
    assert AllSlots[..i + 1] == AllSlots[..i] + [x];
    if x in AllSlots[..i] {
      DedupDistinct(Dedup(Get(t, x)));
    }
    forall s
      ensures Get(u, s) == if s in AllSlots[..i + 1] then Dedup(Get(t, s)) else Get(t, s)
    {
      if s != x {
        assert Get(u, s) == Get(r, s);
      }
    }
  }

  /** `for (const key in detailedTags) detailedTags[key] = [...new Set(detailedTags[key])]`. */
  method DedupAll(t: Tags) returns (r: Tags)
    ensures forall s :: Get(r, s) == Dedup(Get(t, s))
    ensures AllDistinct(r)
  {
    r := t;
    for i := 0 to |AllSlots|
      invariant DedupedPrefix(r, t, i)
    {
      DedupSlotStep(r, t, i);
      r := r[AllSlots[i] := Dedup(Get(r, AllSlots[i]))];
    }
    assert AllSlots[..|AllSlots|] == AllSlots;
    forall s
      ensures Get(r, s) == Dedup(Get(t, s))
    {
      SlotListed(s);
    }
  }

  /** The deduplicated arrays as a value, for use in specifications. */
  ghost predicate IsDedupOf(r: Tags, t: Tags) {
    forall s :: Get(r, s) == Dedup(Get(t, s))
  }

  /** Deduplication keeps every tag that was pushed and adds none. */
  lemma DedupKeepsTags(r: Tags, t: Tags, s: Slot, x: string)
    requires IsDedupOf(r, t)
    ensures x in Get(r, s) <==> x in Get(t, s)
    ensures AllDistinct(t) ==> Get(r, s) == Get(t, s)
  {
    if AllDistinct(t) {
      DedupDistinct(Get(t, s));
    }
  }
}
