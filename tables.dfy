/**
 * The classification tables of the tag scripts, each written once. Several
 * scripts carry literally the same table; where they differ, each distinct
 * table has its own constant. Rows keep the declaration order of the source
 * objects, which is the order `Object.entries` visits them.
 */
module TagTables {
  import opened Taxonomy

  // ---------------------------------------------------------------------
  // the table of api-server.js (also the supabase script and the archive scripts)
  // ---------------------------------------------------------------------

  const StandardProtein: seq<Row> := [
    Row(Protein, "beef", ["ground", "steak", "roast", "ribs", "brisket", "other"]),
    Row(Protein, "chicken", ["breast", "thigh", "drumstick", "wing", "whole", "ground"]),
    Row(Protein, "pork", ["chop", "loin", "shoulder", "belly", "ground", "ribs"]),
    Row(Protein, "fish", ["salmon", "tuna", "cod", "tilapia", "halibut", "other"]),
    Row(Protein, "tofu", ["firm", "silken", "extra-firm", "smoked", "fried", "other"]),
    Row(Protein, "eggs", ["whole", "white", "yolk", "boiled", "poached", "other"])]

  /** The vegetable table: the same in every script. */
  const Veggies: seq<Row> := [
    Row(Veggie, "leafy", ["spinach", "kale", "lettuce", "arugula", "chard", "cabbage"]),
    Row(Veggie, "root", ["carrot", "potato", "onion", "radish", "beet", "turnip"]),
    Row(Veggie, "cruciferous", ["broccoli", "cauliflower", "brussels", "kohlrabi", "bokchoy", "collard"]),
    Row(Veggie, "squash", ["zucchini", "butternut", "acorn", "spaghetti", "pumpkin", "yellow"]),
    Row(Veggie, "peppers", ["bell", "jalapeno", "habanero", "serrano", "poblano", "cayenne"]),
    Row(Veggie, "alliums", ["onion", "garlic", "shallot", "leek", "scallion", "chive"])]

  const StandardPantry: seq<Row> := [
    Row(Pantry, "grains", ["rice", "quinoa", "barley", "farro", "oats", "bulgur"]),
    Row(Pantry, "pasta", ["spaghetti", "penne", "fettuccine", "macaroni", "lasagna", "orzo"]),
    Row(Pantry, "canned", ["beans", "tomatoes", "corn", "tuna", "soup", "coconut_milk"]),
    Row(Pantry, "spices", ["paprika", "cumin", "cinnamon", "turmeric", "oregano", "basil"]),
    Row(Pantry, "oils", ["olive", "vegetable", "coconut", "sesame", "avocado", "peanut"]),
    Row(Pantry, "baking", ["flour", "sugar", "baking_powder", "baking_soda", "yeast", "vanilla"])]

  const StandardDairy: seq<Row> := [
    Row(Dairy, "milk", ["whole", "skim", "almond", "soy", "oat", "coconut"]),
    Row(Dairy, "cheese", ["cheddar", "mozzarella", "parmesan", "feta", "gouda", "blue"]),
    Row(Dairy, "yogurt", ["greek", "regular", "coconut", "almond", "kefir", "skyr"]),
    Row(Dairy, "butter", ["salted", "unsalted", "clarified", "plant-based", "whipped", "cultured"]),
    Row(Dairy, "cream", ["heavy", "light", "sour", "whipped", "half-and-half", "creme_fraiche"]),
    Row(Dairy, "alternatives", ["almond", "soy", "oat", "coconut", "cashew", "rice"])]

  const StandardFruit: seq<Row> := [
    Row(Fruit, "berries", ["strawberry", "blueberry", "raspberry", "blackberry", "cranberry", "acai"]),
    Row(Fruit, "citrus", ["orange", "lemon", "lime", "grapefruit", "tangerine", "kumquat"]),
    Row(Fruit, "tropical", ["banana", "pineapple", "mango", "papaya", "kiwi", "passion_fruit"]),
    Row(Fruit, "pome", ["apple", "pear", "quince", "crabapple", "medlar", "loquat"]),
    Row(Fruit, "stone", ["peach", "plum", "cherry", "apricot", "nectarine", "mango"]),
    Row(Fruit, "melons", ["watermelon", "cantaloupe", "honeydew", "casaba", "crenshaw", "galia"])]

  /** The two-level cookware table of api-server.js, the archive scripts and the SQL generator. */
  const StandardCookware: seq<Row> := [
    Row(Cookware, "pots", ["stock", "sauce", "dutch", "pressure", "slow", "multi"]),
    Row(Cookware, "pans", ["frying", "saute", "grill", "griddle", "wok", "crepe"]),
    Row(Cookware, "bakeware", ["sheet", "cake", "muffin", "loaf", "casserole", "pie"]),
    Row(Cookware, "utensils", ["spatula", "whisk", "tongs", "ladle", "spoon", "turner"]),
    Row(Cookware, "appliances", ["blender", "mixer", "processor", "toaster", "microwave", "airfryer"]),
    Row(Cookware, "knives", ["chef", "paring", "bread", "utility", "santoku", "cleaver"])]

  /** The whole table in category order: protein, veggies, pantry, dairy, fruit, cookware. */
  const StandardRows: seq<Row> :=
    StandardProtein + Veggies + StandardPantry + StandardDairy + StandardFruit + StandardCookware

  /** The cookware table of update-supabase-tagging.js. */
  const SupabaseCookware: seq<Row> := [
    Row(Cookware, "pots", ["stock_pot", "sauce_pan", "dutch_oven", "pressure_cooker", "slow_cooker", "multi_cooker"]),
    Row(Cookware, "pans", ["frying_pan", "saute_pan", "grill_pan", "sheet_pan", "roasting_pan", "wok"]),
    Row(Cookware, "bakeware", ["baking_dish", "cake_pan", "muffin_tin", "loaf_pan", "pie_dish", "casserole"]),
    Row(Cookware, "tools", ["knife", "cutting_board", "spatula", "whisk", "tongs", "measuring_cups"]),
    Row(Cookware, "appliances", ["blender", "food_processor", "mixer", "toaster", "air_fryer", "microwave"]),
    Row(Cookware, "specialty", ["mortar_pestle", "mandoline", "zester", "thermometer", "scale", "strainer"])]

  /** The supabase script's table: the standard food rows and its own cookware rows. */
  const SupabaseRows: seq<Row> :=
    StandardProtein + Veggies + StandardPantry + StandardDairy + StandardFruit + SupabaseCookware

  // ---------------------------------------------------------------------
  // the revised table of update-recipe-tags-enhanced.js
  // (its protein rows are also those of update-recipe-tags-improved.js)
  // ---------------------------------------------------------------------

  const RevisedProtein: seq<Row> := [
    Row(Protein, "beef", ["ground", "steak", "roast", "ribs", "brisket", "other"]),
    Row(Protein, "chicken", ["breast", "thigh", "drumstick", "wing", "whole", "ground"]),
    Row(Protein, "pork", ["chop", "ground", "loin", "shoulder", "belly", "ribs"]),
    Row(Protein, "fish", ["fillet", "steak", "whole", "smoked", "canned", "ground"]),
    Row(Protein, "tofu", ["extra_firm", "firm", "soft", "silken", "smoked", "fried"]),
    Row(Protein, "eggs", ["chicken", "duck", "quail", "free_range", "organic", "egg_whites"])]

  const RevisedPantry: seq<Row> := [
    Row(Pantry, "grains", ["white_rice", "brown_rice", "wild_rice", "jasmine", "basmati", "arborio"]),
    Row(Pantry, "pasta", ["dried", "fresh", "whole_wheat", "gluten_free", "egg", "stuffed"]),
    Row(Pantry, "canned", ["black", "kidney", "chickpeas", "diced", "crushed", "paste"]),
    Row(Pantry, "spices", ["whole", "ground", "dried_herbs", "blends", "seeds", "peppercorns"]),
    Row(Pantry, "oils", ["extra_virgin", "virgin", "pure", "refined", "infused", "spray"]),
    Row(Pantry, "baking", ["all_purpose", "bread", "cake", "whole_wheat", "gluten_free", "self_rising"])]

  const RevisedDairy: seq<Row> := [
    Row(Dairy, "milk", ["whole", "reduced", "skim", "almond", "soy", "oat"]),
    Row(Dairy, "cheese", ["cheddar", "mozzarella", "parmesan", "swiss", "blue", "cream"]),
    Row(Dairy, "yogurt", ["greek", "regular", "lowfat", "nonfat", "flavored", "plant"]),
    Row(Dairy, "butter", ["salted", "unsalted", "clarified", "whipped", "plant", "compound"]),
    Row(Dairy, "cream", ["heavy", "light", "half", "whipping", "sour", "clotted"]),
    Row(Dairy, "alternatives", ["almond", "soy", "oat", "coconut", "cashew", "rice"])]

  const RevisedFruit: seq<Row> := [
    Row(Fruit, "berries", ["strawberry", "blueberry", "raspberry", "blackberry", "cranberry", "mixed"]),
    Row(Fruit, "citrus", ["orange", "lemon", "lime", "grapefruit", "tangerine", "kumquat"]),
    Row(Fruit, "tropical", ["pineapple", "mango", "banana", "kiwi", "papaya", "passion"]),
    Row(Fruit, "pome", ["apple", "pear", "quince", "crabapple", "medlar", "loquat"]),
    Row(Fruit, "stone", ["peach", "plum", "cherry", "apricot", "nectarine", "mango"]),
    Row(Fruit, "melons", ["watermelon", "cantaloupe", "honeydew", "casaba", "galia", "canary"])]

  // ---------------------------------------------------------------------
  // cookware types recognised by name or synonym
  // ---------------------------------------------------------------------

  /** The standard cookware types matched by their own name only, as api-server.js does. */
  const PlainCookwareKeys: seq<Keyed> := [
    Keyed("pots", [],
          ["stock", "sauce", "dutch", "pressure", "slow", "multi"]),
    Keyed("pans", [],
          ["frying", "saute", "grill", "griddle", "wok", "crepe"]),
    Keyed("bakeware", [],
          ["sheet", "cake", "muffin", "loaf", "casserole", "pie"]),
    Keyed("utensils", [],
          ["spatula", "whisk", "tongs", "ladle", "spoon", "turner"]),
    Keyed("appliances", [],
          ["blender", "mixer", "processor", "toaster", "microwave", "airfryer"]),
    Keyed("knives", [],
          ["chef", "paring", "bread", "utility", "santoku", "cleaver"])]

  /** The standard cookware types with the synonym chain of the archived script and the SQL generator. */
  const FullCookwareKeys: seq<Keyed> := [
    Keyed("pots", ["pot", "dutch", "cooker"],
          ["stock", "sauce", "dutch", "pressure", "slow", "multi"]),
    Keyed("pans", ["pan", "skillet"],
          ["frying", "saute", "grill", "griddle", "wok", "crepe"]),
    Keyed("bakeware", ["dish", "sheet", "tin"],
          ["sheet", "cake", "muffin", "loaf", "casserole", "pie"]),
    Keyed("utensils", ["spoon", "spatula", "tongs"],
          ["spatula", "whisk", "tongs", "ladle", "spoon", "turner"]),
    Keyed("appliances", ["blender", "processor", "mixer"],
          ["blender", "mixer", "processor", "toaster", "microwave", "airfryer"]),
    Keyed("knives", ["knife", "cutter"],
          ["chef", "paring", "bread", "utility", "santoku", "cleaver"])]

  /** The standard cookware types with the shorter synonym chain of the improved script. */
  const ShortCookwareKeys: seq<Keyed> := [
    Keyed("pots", ["pot", "dutch"],
          ["stock", "sauce", "dutch", "pressure", "slow", "multi"]),
    Keyed("pans", ["pan", "skillet"],
          ["frying", "saute", "grill", "griddle", "wok", "crepe"]),
    Keyed("bakeware", ["dish", "sheet"],
          ["sheet", "cake", "muffin", "loaf", "casserole", "pie"]),
    Keyed("utensils", ["spoon", "spatula"],
          ["spatula", "whisk", "tongs", "ladle", "spoon", "turner"]),
    Keyed("appliances", ["blender", "processor"],
          ["blender", "mixer", "processor", "toaster", "microwave", "airfryer"]),
    Keyed("knives", ["knife"],
          ["chef", "paring", "bread", "utility", "santoku", "cleaver"])]
}
