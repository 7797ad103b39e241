/**
 * The dynamically typed values the recipe records carry in their list columns.
 * A list column (ingredients, steps, required_cookware, protein_tags, ...) holds
 * an array, a comma-separated string, nothing at all, or some other truthy value.
 */
module Records {
  import opened Strings
  import opened Wrappers

  /** One element of a list column: a string, an object with a `name`, or `null`/`undefined`. */
  datatype Item = Text(s: string) | Named(name: string) | Nullish

  /**
   * A list column. `Absent` covers every falsy value (missing, null, 0, false);
   * `Opaque` is a truthy value that is neither a string nor an array (a number,
   * a plain object), on which `.split` throws.
   */
  datatype ListField = Absent | Csv(s: string) | Items(items: seq<Item>) | Opaque

  /** A list column before any item is read: every element is a string. */
  predicate AllText(items: seq<Item>) {
    forall k :: 0 <= k < |items| ==> items[k].Text?
  }

  /** The string elements of an array field, or nothing when the field is not an array. */
  predicate TextColumn(f: ListField) {
    f.Items? ==> AllText(f.items)
  }

  function TextItems(xs: seq<string>): (r: seq<Item>)
    ensures |r| == |xs|
    ensures forall k :: 0 <= k < |xs| ==> r[k] == Text(xs[k])
  {
    seq(|xs|, k requires 0 <= k < |xs| => Text(xs[k]))
  }

  /** The strings of an all-string array, in order. */
  function Strs(items: seq<Item>): (r: seq<string>)
    requires AllText(items)
    ensures |r| == |items|
    ensures forall k :: 0 <= k < |items| ==> r[k] == items[k].s
  {
    seq(|items|, k requires 0 <= k < |items| => items[k].s)
  }

  /** `Array.isArray(f) ? f : []`: what a guarded `forEach` over the column visits. */
  function ArrayItems(f: ListField): seq<Item> {
    if f.Items? then f.items else []
  }

  /** A row of the recipes table as the tag scripts read it; a null name is "". */
  datatype RecipeRow = RecipeRow(
    id: string, name: string, ingredients: ListField, protein_tags: ListField,
    veggie_tags: ListField, required_cookware: ListField)

  /** A row of the recipes table as the name-repair scripts read it: a null name is `None`. */
  datatype NameRow = NameRow(id: string, name: Option<string>, ingredients: ListField)

  /** One `update({ name }).eq('id', id)` call. */
  datatype Rename = Rename(id: string, name: string)
}
