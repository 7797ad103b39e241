# PorkChop recipe core, modelled in Dafny

PorkChop is a recipe web application: a React front end with a kitchen, a
cookbook, a chef assistant and a sign-up page; a small Express API over a
recipe database; and a set of maintenance scripts that repair and re-tag the
rows of the Supabase `recipes` table. This project models the decision logic
of that core and proves what it promises:

- the recipe service: normalising a raw record, the catalogue and lookup by
  id, scoring recipes against the selected ingredients and cookware with a
  stable sort by score, and free-text search (`src/services/recipeService.js`);
- the kitchen context: the ingredient and cookware inventory, pagination in
  pages of three, and the matching with its mock-data fallback and
  Fisher–Yates shuffle (`src/contexts/KitchenContext.jsx`);
- the cookbook context: saved recipes, collections whose counts follow their
  members, ratings and the recipe of the week (`src/contexts/CookbookContext.jsx`);
- the API server's tagging of imported records, its per-record import mapping
  and the empty-selection rule of its match route (`api-server.js`);
- the five tagging variants that classify ingredient, protein, veggie and
  cookware strings into category, type and variety arrays and upsert them in
  batches (`scripts/update-supabase-tagging.js`,
  `scripts/update-recipe-tags-enhanced.js`,
  `scripts/archive/update-recipe-tags-improved.js`,
  `scripts/archive/update-recipe-tags.js`), and the SQL generator that
  classifies cookware and writes the `UPDATE` statements
  (`scripts/generate-recipe-update-sql.js`);
- the two null-name repair scripts (`scripts/fix-all-null-names.js`,
  `scripts/fix-recipe-names.js`);
- the chef title ladder and level of the auth context, the chef quote of the
  day, the chef assistant's quota, answers, prompts and tips, and the sign-up
  form's checks.

Shared pieces sit in their own modules: `Wrappers` (Option and Result, and
JavaScript's `||` on strings), `Strings` (JavaScript string operations on
`seq<char>`: ASCII case folding, `includes`, `trim`, `split`, `join`,
white-space replacement), `Records` (the dynamically typed list columns of a
record), `Taxonomy` (the eighteen tag arrays and the table scans shared by the
classifiers), `TagTables` (the classification tables, each written once),
`Filters` (`Array.prototype.filter` and its order facts) and
`Batching` (the fixed-size batch loop). Every other module is named after the
source file it models. State the source updates in place (React state, the
sign-up page, the assistant, the record `processRecipeData` writes to) is a
`class` whose methods state the whole new state; loops are `method`s proved
against the function that specifies them; everything else is functions and
lemmas. Scores are exact reals.

The database, local storage, the clock, `Math.random`, uuid generation, the
network and the file system are not modelled as effects: what a call to them
returns (or whether a write succeeds) is a parameter of the operation that
makes it.

## Model

| member | source | states |
|---|---|---|
| Signup.ValidateOrder | src/pages/Signup.jsx:18-28 | each message is reported exactly when its check is the first to fail (empty field, then differing passwords, then a password under six characters); the form passes exactly when no check fails |
| Signup.PassingForm | src/pages/Signup.jsx:18-28 | a form that passes has every field filled, equal passwords and a password of at least six characters |
| Signup.SignupPage.constructor | src/pages/Signup.jsx:10-11 | the page starts with no error and not loading |
| Signup.SignupPage.HandleSubmit | src/pages/Signup.jsx:15-46 | `signup` is called exactly when the form passes; a failed check shows its message and leaves loading and navigation alone; a successful call navigates to the dashboard; a failed or throwing call shows its message; loading ends after the call |
| Signup.FailureMessageNonEmpty | src/pages/Signup.jsx:36-43 | a failed call always shows a non-empty message, the service's own error when it gives one |
| Auth.Qualifying | src/contexts/AuthContext.jsx:50-52 | the levels kept are thresholds of the table at or below the level, and every threshold at or below the level is kept |
| Auth.QualifyingShape | src/contexts/AuthContext.jsx:50-52 | on an ascending ladder the thresholds a level reaches are exactly the first ones, in order, and every later threshold lies above the level |
| Auth.HighestIsLast | src/contexts/AuthContext.jsx:53 | the first element after the descending sort (the largest) of an ascending list is its last element |
| Auth.TitleOfAt | src/contexts/AuthContext.jsx:55 | looking up a threshold of an ascending ladder finds that threshold's title |
| Auth.TitleIsLastReached | src/contexts/AuthContext.jsx:49-55 | on an ascending ladder starting at 1 the title is that of the last threshold at or below the level, the next threshold lies above the level, and a level below every threshold gets the first title |
| Auth.RankIndexMonotone | src/contexts/AuthContext.jsx:50-53 | a higher level never reaches fewer thresholds |
| Auth.ChefRanksAscending | src/contexts/AuthContext.jsx:35-47 | the eleven thresholds strictly increase from 1 |
| Auth.ChefTitleLargestThreshold | src/contexts/AuthContext.jsx:34-56 | for a level of at least 1 the title is that of the largest threshold at or below it, with the next threshold above the level |
| Auth.ChefTitleBelowOne | src/contexts/AuthContext.jsx:55 | a level below 1 reaches no threshold and `\|\| 1` gives "Apprentice Chef" |
| Auth.ChefTitleLegion | src/contexts/AuthContext.jsx:46-55 | every level from 50 on is "Legion Chef" |
| Auth.ChefTitleMonotone | src/contexts/AuthContext.jsx:34-56 | titles climb with the level: a higher level's title is never earlier on the ladder |
| Auth.ChefStanding.constructor | src/contexts/AuthContext.jsx:10-11 | the provider starts at level 1 as "Apprentice Chef", a title consistent with the level |
| Auth.ChefStanding.UpdateChefLevel | src/contexts/AuthContext.jsx:147-151 | the new level is stored together with the title it earns, so level and title stay consistent |
| ChefQuotes.AllChefQuotes | src/data/chefQuotes.js:153-155 | the collection has five chefs, each with at least one quote |
| ChefQuotes.QuoteOfDayFromOneEntry | src/data/chefQuotes.js:127-147 | both rotation indices stay in bounds, and the chef, image and quote of the day come from one entry |
| ChefQuotes.SameChefNextQuote | src/data/chefQuotes.js:134-140 | days one rotation apart feature the same chef, with that chef's next quote, cyclically |
| ChefQuotes.EveryQuoteHasADay | src/data/chefQuotes.js:134-140 | every quote of every chef is the quote of some day, namely day `j * chefs + k` |
| ChefQuotes.ChefQuotesRotatable | src/data/chefQuotes.js:12-121 | the table has five chefs and none has an empty quote list |
| ChefQuotes.TodaysChefRepeatsEveryFiveDays | src/data/chefQuotes.js:127-147 | day `d` and day `d + 5` show the same chef and caricature, and the quote shown is one of that chef's quotes |
| ChefQuotes.QuotesByChefFirstMatch | src/data/chefQuotes.js:162-165 | the lookup misses exactly when no chef's name matches ignoring case, and a hit is the first matching entry |
| ChefQuotes.QuotesByChefFindsEach | src/data/chefQuotes.js:162-165 | when names differ ignoring case, looking up an entry's own name in any case finds that entry |
| ChefFreddie.ResponsePriority | src/contexts/ChefFreddieContext.jsx:128-138 | each canned answer is given exactly when its keyword is the first of temperature, substitute, knife that the lower-cased question contains; the general answer when it contains none |
| ChefFreddie.ResponseIgnoresCase | src/contexts/ChefFreddieContext.jsx:130-134 | questions that agree after lower-casing get the same answer |
| ChefFreddie.PromptsFromTableFirst | src/contexts/ChefFreddieContext.jsx:177-215 | a lookup in the page table finds the first entry for the page, and the defaults when no entry lists it |
| ChefFreddie.SuggestedPromptsFacts | src/contexts/ChefFreddieContext.jsx:168-216 | always three prompts; the if-chain agrees with the page table, so a listed page gets its own prompts and any other page the defaults |
| ChefFreddie.PageNamesDistinct | src/contexts/ChefFreddieContext.jsx:177-207 | the six pages the chain tests are distinct, so no branch shadows another |
| ChefFreddie.TipsCount | src/contexts/ChefFreddieContext.jsx:83-94 | there are ten tips |
| ChefFreddie.DailyTipFacts | src/contexts/ChefFreddieContext.jsx:82-103 | the tip is one of the ten, repeats every ten days, and tip `j` is the one shown on day `j` |
| ChefFreddie.Assistant.constructor | src/contexts/ChefFreddieContext.jsx:10-20 | the assistant starts with ten prompts, no conversations, the default tip and the placeholder quote |
| ChefFreddie.Assistant.Load | src/contexts/ChefFreddieContext.jsx:28-69 | a reset date other than today restores the full quota and today's quote; on the same day a saved count is taken back, with the saved quote or today's; saved conversations are restored and the tip is that of the day |
| ChefFreddie.Assistant.AskChefFreddie | src/contexts/ChefFreddieContext.jsx:106-165 | with no prompts left the question is refused with the limit message and nothing changes; otherwise one prompt fewer, the new conversation in front of the history, and the answer with the count left |
| ChefFreddie.Assistant.ClearConversations | src/contexts/ChefFreddieContext.jsx:219-221 | the history is emptied and nothing else changes |
| RecipeNameRepair.AsWrittenNeverMatchesUuid | scripts/fix-recipe-names.js:59-61 | as written, no 36-character id can ever get the name 'Mansaf' |
| RecipeNameRepair.AsWrittenMissesMansaf | scripts/fix-recipe-names.js:50-61 | a uuid ending in the fragment with one ingredient 'lamb' is named 'lamb Recipe' as written and 'Mansaf' with the containment test |
| RecipeNameRepair.RepairedNameMansafIff | scripts/fix-recipe-names.js:50-61 | with the containment test, 'Mansaf' is given exactly to ids containing the fragment, and every other name ends in " Recipe" |
| RecipeNameRepair.RepairedNameFromIngredients | scripts/fix-recipe-names.js:50-56 | away from Mansaf, a non-empty ingredient array gives its first (at most) three ingredients joined with ", " plus " Recipe", starting with the first ingredient; anything else gives 'Unknown Recipe' |
| RecipeNameRepair.NullNameRowsMembers | scripts/fix-recipe-names.js:33-36 | the rows fetched are exactly the rows whose name is null |
| RecipeNameRepair.NameAsWritten | scripts/fix-recipe-names.js:50-61 | the script's rule: 'Mansaf' exactly for an id equal to the fragment; otherwise a non-empty ingredient array gives a name starting with the first ingredient and ending in " Recipe", and anything else 'Unknown Recipe' |
| RecipeNameRepair.AsWrittenDiffersOnlyOnLongerIds | scripts/fix-recipe-names.js:59-61 | the script's `===` test and the containment test name a row differently exactly when its id contains the fragment without being equal to it |
| RecipeNameRepair.IngredientNameFacts | scripts/fix-recipe-names.js:53-56 | a name made from the ingredients starts with the first ingredient as `join` renders it and ends in " Recipe", so it is never 'Mansaf' |
| RecipeNameRepair.NameRecipe | scripts/fix-recipe-names.js:49-61 | one loop round (default, then ingredients, then the `===` Mansaf override) computes the script's name for the row |
| RecipeNameRepair.FixRecipeNames | scripts/fix-recipe-names.js:46-67 | one update per fetched row, in fetch order, each setting the name the script's rule gives that row |
| RecipeNameRepair.RenamedExactlyNullNames | scripts/fix-recipe-names.js:33-67 | every null-named row and no other row is renamed, to the name the script's rule gives it |
| NullNameRepair.NullNamedFacts | scripts/fix-all-null-names.js:49-53 | the first loop keeps exactly the positions whose name is falsy, in list order |
| NullNameRepair.MatchesFacts | scripts/fix-all-null-names.js:65-67 | the `filter` keeps exactly the rows whose id contains the partial id and that are not selected yet, in list order |
| NullNameRepair.SelectionMembers | scripts/fix-all-null-names.js:49-73 | after each round of the known-id loop a row is selected exactly when its name is falsy or its id contains one of the partial ids seen so far |
| NullNameRepair.SelectionDistinct | scripts/fix-all-null-names.js:63-73 | no row is ever selected twice |
| NullNameRepair.SelectionStartsWithNullNamed | scripts/fix-all-null-names.js:49-73 | the falsy-named rows stay at the front of the selection, in list order |
| NullNameRepair.SelectionKeepsPrefix | scripts/fix-all-null-names.js:69-72 | a round of the known-id loop only appends to the selection |
| NullNameRepair.ProblematicFacts | scripts/fix-all-null-names.js:45-73 | the selection holds no row twice, starts with the falsy-named rows in list order, and holds exactly the rows with a falsy name or an id containing one of the two partial ids |
| NullNameRepair.ProblematicInRange | scripts/fix-all-null-names.js:45-73 | every selected position is a row of the fetched list |
| NullNameRepair.SelectProblematic | scripts/fix-all-null-names.js:45-73 | the two loops build exactly the selection specified above |
| NullNameRepair.DerivedNameMansafIff | scripts/fix-all-null-names.js:81-95 | 'Mansaf' is given exactly to ids containing 'b3918562-3038'; every other name ends in " Recipe" |
| NullNameRepair.DerivedNameFromFirstIngredient | scripts/fix-all-null-names.js:87-95 | away from Mansaf, a string first ingredient or the truthy name of an object first ingredient, followed by " Recipe"; 'Unknown Recipe' exactly when the column is not a non-empty array or its first element is neither (or is literally 'Unknown') |
| NullNameRepair.NameRecipe | scripts/fix-all-null-names.js:80-95 | the branch chain for one recipe computes its derived name |
| NullNameRepair.FixAllNullNames | scripts/fix-all-null-names.js:75-139 | with recipes selected, one update per selected recipe, in selection order, carrying its derived name; with none selected, the bulk update to 'Unknown Recipe' |
| NullNameRepair.FalsyNamesRenamed | scripts/fix-all-null-names.js:49-110 | every recipe with a falsy name receives an update with its derived name |
| NullNameRepair.FallbackIff | scripts/fix-all-null-names.js:75-139 | the fallback runs exactly when no name is falsy and no id contains a known partial id |
| RecipeUpdateSql.CookwareTagsFails | scripts/generate-recipe-update-sql.js:77-107 | the classification throws exactly when a non-empty cookware array holds a non-string |
| RecipeUpdateSql.CategoryExactlyCookware | scripts/generate-recipe-update-sql.js:77-78 | `cookware_category` is ['cookware'] exactly when `required_cookware` is a non-empty array, and empty otherwise |
| RecipeUpdateSql.KeyedPassKeepsCategory | scripts/generate-recipe-update-sql.js:80-107 | classifying the items never changes the category array once it holds 'cookware' |
| RecipeUpdateSql.OnlyCookwareColumns | scripts/generate-recipe-update-sql.js:70-108 | only the three cookware arrays are filled, none holds a value twice, and without a non-empty array type and variety stay empty |
| RecipeUpdateSql.EachItemClassified | scripts/generate-recipe-update-sql.js:80-107 | each item adds the first type whose name or synonyms it contains, and that type's first variety it contains |
| RecipeUpdateSql.TypesIffSomeMatch | scripts/generate-recipe-update-sql.js:80-107 | `cookware_type` is non-empty exactly when some item falls under a type |
| RecipeUpdateSql.KeyedStepSound | scripts/generate-recipe-update-sql.js:82-105 | one item adds to the type and variety arrays only its first type and that type's first contained variety |
| RecipeUpdateSql.TypedStepSound | scripts/generate-recipe-update-sql.js:91-103 | the pushes for a matched type add only its name and its first contained variety |
| RecipeUpdateSql.KeyedPassSound | scripts/generate-recipe-update-sql.js:80-107 | a pass over the items adds only first types of items and their first contained varieties |
| RecipeUpdateSql.OnlyFirstMatches | scripts/generate-recipe-update-sql.js:80-107 | every recorded type and variety is the first match of some item |
| RecipeUpdateSql.ClassifyCookware | scripts/generate-recipe-update-sql.js:70-108 | the classification loop for one recipe computes its cookware arrays, or fails exactly where the script throws |
| RecipeUpdateSql.IndexOf | scripts/generate-recipe-update-sql.js:116 | the reader's helper finds the first occurrence of a character, or the end |
| RecipeUpdateSql.FormatArrayRoundTrip | scripts/generate-recipe-update-sql.js:116 | an array of quote-free strings, written as an `ARRAY[...]` literal, reads back as exactly that array |
| RecipeUpdateSql.ParseQuoted | scripts/generate-recipe-update-sql.js:116 | the quoted, comma-joined items of a non-empty quote-free array read back as the array |
| RecipeUpdateSql.FormatArrayUnescaped | scripts/generate-recipe-update-sql.js:116 | an item holding a quote is written unescaped, and the literal no longer reads back as the array |
| RecipeUpdateSql.FullCookwareKeysQuoteFree | scripts/generate-recipe-update-sql.js:47-89 | no type name, synonym source or variety of the script's table holds a quote |
| RecipeUpdateSql.CookwareTagsQuoteFree | scripts/generate-recipe-update-sql.js:77-107 | with a quote-free table every array the classifier produces is quote-free |
| RecipeUpdateSql.ScriptArraysReadBack | scripts/generate-recipe-update-sql.js:116-131 | with the script's table each array written into a statement reads back as exactly that array |
| RecipeUpdateSql.StatementIffCookware | scripts/generate-recipe-update-sql.js:110-135 | an `UPDATE` is emitted exactly for recipes with a non-empty cookware array; it opens with the recipe comment and the category clause and closes with the `WHERE id` line |
| RecipeUpdateSql.StatementsSomeIff | scripts/generate-recipe-update-sql.js:69-136 | the statements are produced exactly when no recipe's cookware array holds a non-string |
| RecipeUpdateSql.StatementsNone | scripts/generate-recipe-update-sql.js:69-149 | one recipe that throws leaves no output at all, whatever follows it |
| RecipeUpdateSql.StatementsSnoc | scripts/generate-recipe-update-sql.js:69-136 | each further recipe appends its own statement |
| RecipeUpdateSql.SqlOfSomeIff | scripts/generate-recipe-update-sql.js:17-149 | the file text exists exactly when every recipe classifies |
| RecipeUpdateSql.SqlFramed | scripts/generate-recipe-update-sql.js:62-139 | the text starts with the two comment lines and `BEGIN;` and ends with `COMMIT;` |
| RecipeUpdateSql.EmitRecipe | scripts/generate-recipe-update-sql.js:69-135 | one round of the main loop appends the recipe's statement, or fails |
| RecipeUpdateSql.GenerateSql | scripts/generate-recipe-update-sql.js:61-139 | the loop builds the specified text: header, each recipe's statement in order, footer; no text once a recipe throws |
| RecipeUpdateSql.GenerateRecipeUpdateSql | scripts/generate-recipe-update-sql.js:17-149 | the script over the fetched rows, with its own cookware table, gives the specified text |
| Strings.LowerChar | scripts/generate-recipe-update-sql.js:58 | an upper-case ASCII letter becomes a lower-case letter and every other character is kept |
| Strings.LowerCharShift | scripts/generate-recipe-update-sql.js:58 | an upper-case letter becomes the lower-case letter 32 code points above it, so distinct letters stay distinct |
| Strings.Lower | scripts/generate-recipe-update-sql.js:58 | `toLowerCase` keeps the length and folds each character on its own |
| Strings.LowerIdempotent | src/data/chefQuotes.js:163 | lower-casing twice gives the same as once |
| Strings.LowerConcat | src/contexts/ChefFreddieContext.jsx:130 | lower-casing distributes over concatenation |
| Strings.ContainsAt | src/services/recipeService.js:199 | `includes` holds whenever the needle occurs at some position |
| Strings.ContainsWitness | src/services/recipeService.js:199 | whenever `includes` holds, the needle occurs at some position |
| Strings.ContainsEmpty | src/services/recipeService.js:245-251 | every string includes the empty string |
| Strings.ContainsSelf | src/data/chefQuotes.js:163 | every string includes itself |
| Strings.TrimStart | src/services/recipeService.js:30 | the leading white space is dropped: what is left is a suffix starting with a non-space, empty exactly for an all-space string |
| Strings.TrimStartDropsSpace | src/services/recipeService.js:30 | everything the leading trim drops is white space |
| Strings.TrimEnd | src/services/recipeService.js:30 | the trailing white space is dropped: what is left is a prefix ending in a non-space, empty exactly for an all-space string |
| Strings.TrimEndDropsSpace | src/services/recipeService.js:30 | everything the trailing trim drops is white space |
| Strings.Trim | src/services/recipeService.js:240 | `trim()` leaves no white space at either end, and is empty exactly for an all-space string |
| Strings.TrimMiddle | src/services/recipeService.js:240 | `trim()` gives a slice of the string with only white space before it and only white space after it |
| Strings.TrimKeepsOut | src/services/recipeService.js:30 | trimming introduces no character that was not there |
| Strings.TrimEndStart | src/services/recipeService.js:30 | trimming the end after the start keeps a non-space first character |
| Strings.TrimEndKeepsFirst | src/services/recipeService.js:30 | trimming the end never changes a non-space first character |
| Strings.Split | src/services/recipeService.js:30 | `split` always gives at least one piece |
| Strings.SplitPiecesAvoidSeparator | src/services/recipeService.js:90 | no piece of a split holds the separator |
| Strings.JoinSplit | src/services/recipeService.js:90 | joining the pieces with the separator rebuilds the original string |
| Strings.SplitWithoutSeparator | src/services/recipeService.js:90 | a string without the separator splits into itself alone |
| Strings.JoinStartsWithFirst | scripts/fix-recipe-names.js:55 | a joined list starts with its first part |
| Strings.TrimAll | src/services/recipeService.js:30 | `map(i => i.trim())` trims each piece in place |
| Strings.SplitTrim | src/services/recipeService.js:30-34 | `split(',').map(trim)` has one trimmed piece per comma-separated piece |
| Strings.ReplaceSpaceRunsNoSpace | scripts/update-supabase-tagging.js:326 | after `replace(/\s+/g, c)` with a non-space `c` no white space is left |
| Strings.ReplaceSpaceRunsIdentity | src/services/recipeService.js:18 | a string without white space is left as it is |
| Strings.NatToString | src/contexts/ChefFreddieContext.jsx:142 | the decimal rendering of a number is a non-empty run of digits without a leading zero that denotes the number again, so different numbers give different ids |
| Records.TextItems | src/services/recipeService.js:30 | the pieces of a split as array elements, one string element per piece |
| Records.Strs | scripts/generate-recipe-update-sql.js:80 | the strings of an all-string array, one per element, in order |
| Wrappers.OrElse | src/contexts/CookbookContext.jsx:273-279 | a present value is kept and a missing one replaced by the default |
| Batching.FlattenConcat | scripts/update-supabase-tagging.js:375-377 | laying batches end to end distributes over concatenation of batch lists |
| Batching.FlattenBatches | scripts/update-supabase-tagging.js:375-377 | the batches laid end to end are the whole list, in order, each element once |
| Batching.BatchSizes | scripts/update-supabase-tagging.js:375-377 | no batch is empty or larger than the batch size, and every batch but the last is full |
| Batching.BatchCount | scripts/archive/update-recipe-tags.js:290 | there are `ceil(n / size)` batches, the count the scripts log |
| Batching.BatchesSameShape | scripts/update-supabase-tagging.js:375-380 | lists of equal length are cut into the same number of batches |
| Batching.BatchAt | scripts/update-supabase-tagging.js:375-377 | batch `k` is the slice starting at `k * size`, cut at the end of the list |
| Batching.MakeBatches | scripts/update-supabase-tagging.js:372-377 | the index-stepping loop pushes exactly the specified batches |
| Taxonomy.SlotListed | scripts/update-supabase-tagging.js:156-177 | every tag array is one of the eighteen the result object declares |
| Taxonomy.NoTagsDistinct | scripts/update-supabase-tagging.js:156-177 | the freshly initialised arrays hold no duplicate |
| Taxonomy.Put | scripts/update-supabase-tagging.js:198-200 | a push appends to its own array only, and a guarded push of a present value changes nothing |
| Taxonomy.PutFacts | scripts/update-supabase-tagging.js:198-200 | a push only adds, holds the pushed value afterwards, touches no other array, and a guarded push keeps arrays duplicate-free |
| Taxonomy.PutGrows | scripts/update-supabase-tagging.js:198-200 | a push extends every array and holds the pushed value afterwards |
| Taxonomy.PutKeepsDistinct | scripts/update-supabase-tagging.js:198-200 | a guarded push never introduces a duplicate |
| Taxonomy.FirstContained | scripts/update-supabase-tagging.js:254-261 | a `for … of` loop with `break` picks the first term contained in the text, or none when no term is |
| Taxonomy.FindFirst | scripts/update-supabase-tagging.js:254-261 | the search loop returns exactly that first term |
| Taxonomy.FirstKeyed | scripts/generate-recipe-update-sql.js:82-89 | the type loop stops at the first type whose name or one of whose synonyms the item contains, or finds none |
| Taxonomy.FindFirstKeyed | scripts/generate-recipe-update-sql.js:82-89 | the type loop returns exactly that first type |
| Taxonomy.Names | scripts/update-recipe-tags-enhanced.js:292-293 | the type names of a table, in table order |
| Taxonomy.TypeOfTag | scripts/update-supabase-tagging.js:247-248 | the type a tag names is a position of the table or none |
| Taxonomy.VarietyOfTag | scripts/update-supabase-tagging.js:254-255 | the variety a tag names is a position of the type's varieties or none |
| Taxonomy.RowVariety | scripts/update-recipe-tags-enhanced.js:229-230 | the variety an ingredient names is a position of the row's varieties or none |
| Taxonomy.TagStepFacts | scripts/update-supabase-tagging.js:240-266 | one tag adds its group's category; when it names a type, that type and the first variety of it the tag names; nothing else; no other group changes; guarded pushes keep arrays duplicate-free |
| Taxonomy.TypedTagFacts | scripts/update-supabase-tagging.js:247-262 | the type and variety pushes of a tag naming a type add that type and its first named variety and keep the other arrays |
| Taxonomy.TagPassFacts | scripts/update-supabase-tagging.js:240-266 | the tag loop only adds to arrays, touches only its own group, and with guarded pushes keeps arrays duplicate-free |
| Taxonomy.PutSameGroup | scripts/update-recipe-tags-enhanced.js:176-196 | a push agrees on two inputs that hold the same arrays of its group |
| Taxonomy.TagStepSameGroup | scripts/update-recipe-tags-enhanced.js:176-196 | one tag's step reads and writes only its own group |
| Taxonomy.TagPassSameGroup | scripts/update-recipe-tags-enhanced.js:175-219 | the tag loop's own group depends only on that group of its input |
| Taxonomy.ProcessTag | scripts/update-supabase-tagging.js:241-265 | the loop body for one tag computes the specified step |
| Taxonomy.ProcessTags | scripts/update-supabase-tagging.js:240-266 | the tag loop computes the specified pass over all tags |
| Taxonomy.TagPassExtendsPrefix | scripts/update-supabase-tagging.js:240-266 | what the loop has recorded after some tags is kept by the rest of the loop |
| Taxonomy.TagPassRecordsEachTag | scripts/update-supabase-tagging.js:240-266 | every tag leaves the category, and when it names a type that type and its first named variety, in the result |
| Taxonomy.RowStepFacts | scripts/update-recipe-tags-enhanced.js:228-237 | a row that matches an ingredient adds its category, type and first contained variety; a row that does not changes nothing; no other group is touched; arrays stay duplicate-free |
| Taxonomy.MatchedRowFacts | scripts/update-recipe-tags-enhanced.js:228-237 | a matching row's guarded pushes add its category, type and first variety, only add, touch only its own group and keep arrays duplicate-free |
| Taxonomy.RowsPassFacts | scripts/update-recipe-tags-enhanced.js:228-261 | the scan over all rows only adds and keeps arrays duplicate-free |
| Taxonomy.ScanRow | scripts/update-recipe-tags-enhanced.js:228-237 | the body of the type loop equals the row step |
| Taxonomy.ScanRows | scripts/update-recipe-tags-enhanced.js:228-261 | the nested row loops for one ingredient compute the specified scan |
| Taxonomy.RowsPassSnoc | scripts/update-recipe-tags-enhanced.js:228-261 | the row scan over one more row is one more row step |
| Taxonomy.RowsPassExtendsPrefix | scripts/update-recipe-tags-enhanced.js:228-261 | what the first rows add is kept by the later rows |
| Taxonomy.RowsPassTagsEveryRow | scripts/update-recipe-tags-enhanced.js:228-261 | every matching row is tagged, however many other rows match too (no early exit across types) |
| Taxonomy.RowsPassOtherGroups | scripts/update-recipe-tags-enhanced.js:228-261 | rows of other groups leave a group's arrays alone |
| Taxonomy.RowsPassNoMatch | scripts/archive/update-recipe-tags-improved.js:137-244 | rows none of which tags the text leave every array as it was |
| Taxonomy.IngredientsPassFacts | scripts/update-recipe-tags-enhanced.js:221-263 | the ingredient loop only adds and keeps arrays duplicate-free |
| Taxonomy.IngredientsPassOtherGroups | scripts/update-recipe-tags-enhanced.js:221-263 | an ingredient loop over rows of other groups leaves a group's arrays alone |
| Taxonomy.IngredientsPassConcat | scripts/archive/update-recipe-tags-improved.js:131-245 | the loop over two lists is the loop over the second started where the first ends |
| Taxonomy.IngredientsPassSkipsUnmatched | scripts/archive/update-recipe-tags-improved.js:131-245 | an ingredient no row tags can be left out of the list without changing the result |
| Taxonomy.ScanIngredients | scripts/update-recipe-tags-enhanced.js:221-263 | the ingredient loop (non-strings skipped, strings lower-cased) computes the specified pass |
| Taxonomy.IngredientsPassExtendsPrefix | scripts/update-recipe-tags-enhanced.js:221-263 | what earlier ingredients add is kept by later ones |
| Taxonomy.IngredientsPassTagsEveryMatch | scripts/update-recipe-tags-enhanced.js:221-263 | for each string ingredient and each row it matches, the row's category, type and first contained variety end up in the result |
| Taxonomy.TypedStepFacts | scripts/generate-recipe-update-sql.js:91-103 | a recognised type adds its name and its first contained variety, keeps 'cookware', and touches no other group |
| Taxonomy.KeyOfItem | scripts/generate-recipe-update-sql.js:82-89 | the type an item falls under is a position of the table or none |
| Taxonomy.KeyedTextFacts | scripts/generate-recipe-update-sql.js:80-106 | a string item adds 'cookware' (always, or when a type matches), its first type and that type's first contained variety, touching no other group; an unmatched item with no unconditional push changes nothing |
| Taxonomy.KeyedStepFacts | scripts/update-recipe-tags-enhanced.js:266-268 | the same for any element: a non-string element changes nothing |
| Taxonomy.KeyedPassFacts | scripts/generate-recipe-update-sql.js:80-107 | the cookware loop only adds, touches only the cookware arrays, and with guarded pushes keeps them duplicate-free |
| Taxonomy.KeyedPassUnmatched | scripts/generate-recipe-update-sql.js:80-107 | items that fall under no type (and get no unconditional push) leave the arrays as they were |
| Taxonomy.ScanType | scripts/generate-recipe-update-sql.js:91-103 | the pushes for a recognised type compute the specified step |
| Taxonomy.ScanKeyedItem | scripts/generate-recipe-update-sql.js:80-106 | the loop body for one item computes the specified step |
| Taxonomy.ScanKeyed | scripts/generate-recipe-update-sql.js:80-107 | the cookware loop computes the specified pass |
| Taxonomy.KeyedPassExtendsPrefix | scripts/generate-recipe-update-sql.js:80-107 | what earlier items add is kept by later ones |
| Taxonomy.KeyedPassTagsEachItem | scripts/generate-recipe-update-sql.js:80-107 | each item's first type and that type's first contained variety are recorded, and 'cookware' with them |
| Taxonomy.Dedup | scripts/update-recipe-tags-enhanced.js:319 | `[...new Set(xs)]` holds no duplicate, exactly the elements of `xs`, and is no longer than `xs` |
| Taxonomy.DedupInOrder | scripts/update-recipe-tags-enhanced.js:319 | `[...new Set(xs)]` lists the elements in the order of their first occurrence in `xs` |
| Taxonomy.DedupDistinct | scripts/update-recipe-tags-enhanced.js:319 | an array without duplicates is left exactly as it is |
| Taxonomy.DedupAll | scripts/update-recipe-tags-enhanced.js:318-320 | the loop over the keys deduplicates every array and leaves no duplicate anywhere |
| Taxonomy.DedupKeepsTags | scripts/update-recipe-tags-enhanced.js:318-320 | deduplication keeps every pushed tag and adds none, and leaves duplicate-free arrays unchanged |
| SupabaseTagging.FirstRowHit | scripts/update-supabase-tagging.js:192-225 | the triple loop stops at the first row, in table order, one of whose varieties the ingredient contains, or finds none |
| SupabaseTagging.FindFirstRowHit | scripts/update-supabase-tagging.js:189-225 | the three nested loops with their `matched` flag find exactly that row and its first contained variety |
| SupabaseTagging.RowTagsFacts | scripts/update-supabase-tagging.js:197-217 | a hit adds its group's category, its type and the variety, at most one entry per array, in its own group only, keeping arrays duplicate-free |
| SupabaseTagging.IngredientStepAtMostOne | scripts/update-supabase-tagging.js:186-237 | each string ingredient adds at most one entry to each array, all in the one group it matched first |
| SupabaseTagging.IngredientStepOutcome | scripts/update-supabase-tagging.js:186-237 | an ingredient no variety matches becomes a custom ingredient and touches no array; a first hit among cookware rows changes nothing; any other first hit records its group, type and the contained variety |
| SupabaseTagging.IngredientsPassFacts | scripts/update-supabase-tagging.js:185-238 | the ingredient loop only adds, keeps arrays duplicate-free, and appends exactly the unmatched strings to the custom list |
| SupabaseTagging.ScanIngredient | scripts/update-supabase-tagging.js:186-237 | the loop body for one ingredient computes the specified step |
| SupabaseTagging.ScanIngredients | scripts/update-supabase-tagging.js:185-238 | the ingredient loop computes the specified pass |
| SupabaseTagging.FirstNamed | scripts/update-supabase-tagging.js:307-308 | the cookware type loop stops at the first type whose name the item contains, or finds none |
| SupabaseTagging.FindFirstNamed | scripts/update-supabase-tagging.js:307-335 | the type loop returns exactly that first type |
| SupabaseTagging.CookwareStepFacts | scripts/update-supabase-tagging.js:299-347 | every item adds 'cookware', its type (or 'other') and its variety (or the derived default), touching no other group and keeping arrays duplicate-free |
| SupabaseTagging.CookwarePassFacts | scripts/update-supabase-tagging.js:298-349 | the cookware loop only adds, keeps arrays duplicate-free, and touches only the cookware arrays |
| SupabaseTagging.CookwarePassExtendsPrefix | scripts/update-supabase-tagging.js:298-349 | what earlier items add is kept by later ones |
| SupabaseTagging.CookwarePassRecordsEachItem | scripts/update-supabase-tagging.js:298-349 | every item leaves 'cookware', its type and its variety in the result |
| SupabaseTagging.UntypedCookware | scripts/update-supabase-tagging.js:338-346 | an item of no type gets 'other' and its own name lower-cased with white-space runs as '_', which holds no white space |
| SupabaseTagging.ScanCookwareItem | scripts/update-supabase-tagging.js:299-347 | the loop body for one item computes the specified step |
| SupabaseTagging.ScanCookware | scripts/update-supabase-tagging.js:298-349 | the cookware loop computes the specified pass |
| SupabaseTagging.GenerateDetailedTags | scripts/update-supabase-tagging.js:155-352 | ingredients, then protein tags, veggie tags and cookware, against the given tables, give the specified result |
| SupabaseTagging.TaggedDistinct | scripts/update-supabase-tagging.js:155-352 | no tag array of the result repeats an entry, and the custom list holds, in order, exactly the string ingredients no variety matches |
| SupabaseTagging.TaggedCookware | scripts/update-supabase-tagging.js:298-349 | every required-cookware element leaves 'cookware', its type and its variety in the result |
| SupabaseTagging.UpsertRows | scripts/update-supabase-tagging.js:382-393 | one row per recipe, in order, carrying its id and its generated tags |
| SupabaseTagging.BatchesTaggable | scripts/update-supabase-tagging.js:375-377 | every batch of taggable recipes is taggable |
| SupabaseTagging.MapBatch | scripts/update-supabase-tagging.js:382-393 | the `map` over a batch builds exactly its upsert rows |
| SupabaseTagging.UpsertBatches | scripts/update-supabase-tagging.js:371-405 | one upsert payload per batch of ten recipes, payload `k` being batch `k` tagged |
| SupabaseTagging.UpdateRecipesWithDetailedTags | scripts/update-supabase-tagging.js:355-411 | the script's batches with its own tables |
| SupabaseTagging.UpsertRowsConcat | scripts/update-supabase-tagging.js:382-393 | tagging two lists one after the other gives the rows of both, in order |
| SupabaseTagging.SliceTaggable | scripts/update-supabase-tagging.js:375-377 | every slice of taggable recipes is taggable |
| SupabaseTagging.UpsertRowsSlice | scripts/update-supabase-tagging.js:375-393 | tagging a slice of the recipes gives the same slice of the tagged rows |
| SupabaseTagging.UpsertBatchAt | scripts/update-supabase-tagging.js:375-393 | the rows upserted for batch `k` are batch `k` of the rows for all recipes |
| SupabaseTagging.UpsertsCoverAll | scripts/update-supabase-tagging.js:371-405 | laid end to end, the payloads upsert one row per recipe, in order, between one and ten at a time |
| EnhancedTagging.FirstFamily | scripts/update-recipe-tags-enhanced.js:274-313 | the family loop stops at the first family whose name or keywords the item contains, or finds none |
| EnhancedTagging.FindFamily | scripts/update-recipe-tags-enhanced.js:274-313 | the loop with its `categoryMatch` flag finds exactly that family |
| EnhancedTagging.FamilyTypeStepFacts | scripts/update-recipe-tags-enhanced.js:292-309 | within a family, the first type named in the item and that type's first variety both go into `cookware_variety`, and no other array changes |
| EnhancedTagging.FamilyStepFacts | scripts/update-recipe-tags-enhanced.js:270-313 | every string item adds 'cookware'; a recognised family adds its name to `cookware_type`; an unrecognised item leaves type and variety alone; no other group is touched |
| EnhancedTagging.FamilyKindFacts | scripts/update-recipe-tags-enhanced.js:286-309 | the family push and the type step after it keep 'cookware' and add the family name |
| EnhancedTagging.FamilyPassFacts | scripts/update-recipe-tags-enhanced.js:266-315 | the cookware loop only adds and touches only the cookware arrays |
| EnhancedTagging.FamilyPassExtendsPrefix | scripts/update-recipe-tags-enhanced.js:266-315 | what earlier items add is kept by later ones |
| EnhancedTagging.FamilyPassRecordsEachItem | scripts/update-recipe-tags-enhanced.js:266-315 | each string item leaves 'cookware', and the family it is recognised as, in the result |
| EnhancedTagging.ScanFamilyType | scripts/update-recipe-tags-enhanced.js:292-309 | the type loop within a family computes the specified step |
| EnhancedTagging.ScanFamilyItem | scripts/update-recipe-tags-enhanced.js:267-314 | the loop body for one item computes the specified step |
| EnhancedTagging.ScanFamilies | scripts/update-recipe-tags-enhanced.js:266-315 | the cookware loop computes the specified pass |
| EnhancedTagging.AnalyzeRecipeIngredients | scripts/update-recipe-tags-enhanced.js:144-323 | the result is the protein, veggie, ingredient and cookware arrays with duplicates removed, so no array repeats an entry |
| EnhancedTagging.AnalyzedProteinTag | scripts/update-recipe-tags-enhanced.js:175-195 | each protein tag leaves 'protein', and the type and cut it names, in the result |
| EnhancedTagging.AnalyzedCookware | scripts/update-recipe-tags-enhanced.js:266-315 | each string cookware item leaves 'cookware', and its family, in the result |
| EnhancedTagging.AnalyzedIngredient | scripts/update-recipe-tags-enhanced.js:221-263 | a pantry, dairy or fruit row an ingredient names leaves its group, type and variety in the result |
| EnhancedTagging.ScriptRowsAreFoodGroups | scripts/update-recipe-tags-enhanced.js:221-263 | the ingredient scan visits only pantry, dairy and fruit rows |
| EnhancedTagging.AnalyzedTagGroupsScope | scripts/update-recipe-tags-enhanced.js:175-263 | with ingredient rows of other groups, the protein and veggie arrays are exactly the deduplicated protein-tag and veggie-tag loops on their own |
| EnhancedTagging.AnalyzedScriptTagGroups | scripts/update-recipe-tags-enhanced.js:175-263 | with the script's tables, ingredients never reach the protein or veggie arrays, which come from their tag lists alone |
| EnhancedTagging.NamedMembers | scripts/update-recipe-tags-enhanced.js:327-332 | the loop skips exactly the recipes without a name and keeps every named one |
| EnhancedTagging.NamedConcat | scripts/update-recipe-tags-enhanced.js:327-332 | skipping keeps table order: the named recipes of two consecutive stretches are those of the first followed by those of the second |
| EnhancedTagging.BuildUpdates | scripts/update-recipe-tags-enhanced.js:326-344 | one update per named recipe, in order, with its id and its analysed, deduplicated arrays |
| EnhancedTagging.Tally | scripts/update-recipe-tags-enhanced.js:348-372 | successes and errors add up to the number of updates, nothing is ever counted as skipped, and there are no errors exactly when every update succeeds |
| EnhancedTagging.CountOutcomes | scripts/update-recipe-tags-enhanced.js:348-372 | the counting loop computes exactly those counts |
| EnhancedTagging.UpdateRecipeTags | scripts/update-recipe-tags-enhanced.js:18-344 | the script over its own tables builds the specified updates, none holding a duplicate tag |
| ImprovedTagging.RawTagsDistinct | scripts/archive/update-recipe-tags-improved.js:128-346 | with every push guarded, no array of the raw result repeats an entry |
| ImprovedTagging.AnalyzeRecipeIngredients | scripts/archive/update-recipe-tags-improved.js:99-353 | the final `new Set` pass leaves every array exactly as pushed, and none has a duplicate |
| ImprovedTagging.IngredientRecorded | scripts/archive/update-recipe-tags-improved.js:129-247 | an ingredient containing a type name leaves that group, the type and its first contained variety in the result |
| ImprovedTagging.UnmatchedIngredientIgnored | scripts/archive/update-recipe-tags-improved.js:137-244 | only a contained type name tags an ingredient: one containing none can be dropped from the recipe without changing any array |
| ImprovedTagging.CookwareRecorded | scripts/archive/update-recipe-tags-improved.js:249-286 | each string cookware item adds 'cookware', and the type it is recognised as with that type's first contained variety |
| ImprovedTagging.ProteinTagRecorded | scripts/archive/update-recipe-tags-improved.js:290-316 | each protein tag, string or not, adds 'protein'; one naming a type adds the type and its first named cut |
| ImprovedTagging.BuildUpdates | scripts/archive/update-recipe-tags-improved.js:355-372 | one update per recipe, in order, with its id and its analysed arrays |
| ImprovedTagging.UpdateRecipeTags | scripts/archive/update-recipe-tags-improved.js:355-395 | the batches sent to `upsert`, laid end to end, are the updates, between one and ten per batch |
| ArchiveTagging.AnalyzeRecipeIngredients | scripts/archive/update-recipe-tags.js:100-261 | the raw protein, veggie, ingredient and cookware arrays with duplicates removed |
| ArchiveTagging.ProteinTagRecorded | scripts/archive/update-recipe-tags.js:131-152 | each protein tag leaves 'protein', and the type and cut it names, in the result |
| ArchiveTagging.IngredientRecorded | scripts/archive/update-recipe-tags.js:177-221 | every row one of whose varieties an ingredient contains leaves its group, type and variety in the result |
| ArchiveTagging.CookwareRecorded | scripts/archive/update-recipe-tags.js:223-253 | each string cookware item leaves 'cookware', its type and that type's first contained variety in the result |
| ArchiveTagging.BuildUpdates | scripts/archive/update-recipe-tags.js:263-275 | one update per recipe, in order, with its id and its deduplicated arrays, none repeating an entry |
| ArchiveTagging.UpdateRecipeTags | scripts/archive/update-recipe-tags.js:263-292 | the batches sent to `upsert`, laid end to end, are the updates, between one and twenty per batch |
| ApiServer.GenerateDetailedTags | api-server.js:231-476 | the protein, veggie, ingredient and cookware loops give the specified arrays, whatever `herbTags` holds |
| ApiServer.StagesGrow | api-server.js:311-473 | each later loop only adds to the arrays left by the earlier ones |
| ApiServer.DetailedTagsDistinct | api-server.js:285-473 | every one of the eighteen arrays is free of duplicates, every push being guarded |
| ApiServer.ProteinTagRecorded | api-server.js:312-339 | each protein tag adds 'protein', the first protein type it contains and that type's first contained cut |
| ApiServer.VeggieTagRecorded | api-server.js:341-367 | each veggie tag adds 'veggies', the first veggie type it contains and that type's first contained variety |
| ApiServer.IngredientRowRecorded | api-server.js:370-445 | for every ingredient and every row of any category, cookware included, one of whose varieties it contains, the category, type and first such variety are recorded |
| ApiServer.CookwareItemRecorded | api-server.js:448-473 | a cookware item containing a type name adds 'cookware', the first such type and that type's first contained variety |
| ApiServer.UnmatchedCookwareAddsNothing | api-server.js:448-473 | cookware naming no type adds nothing, not even 'cookware' |
| ApiServer.CsvList | api-server.js:177-182 | an empty column gives no items; otherwise one trimmed item per comma-separated piece |
| ApiServer.CsvListPieces | api-server.js:177-182 | no item holds a comma or begins or ends in white space, and a comma-free trimmed column is a single item |
| ApiServer.ImportRecordFields | api-server.js:175-200 | the name falls back from `name` to `title` to "", the image from `image_url` to `image`; an empty list column gives []; description and cuisine are copied; the tags are free of duplicates |
| ApiServer.ImportRecords | api-server.js:175 | one imported recipe per parsed record, in order |
| ApiServer.MatchRouteWithoutSelection | api-server.js:119-135 | with both selections empty or missing the route answers every recipe, not an empty list, and that is also what `matchRecipes` answers |
| ApiServer.MatchRouteAgrees | api-server.js:119-135 | the route fails with status 500 exactly when `matchRecipes` fails, and otherwise answers what `matchRecipes` answers |
| RecipeService.ListValue | src/services/recipeService.js:29-34 | an array column passes unchanged, a non-empty string becomes its trimmed comma-separated pieces, a missing or empty column becomes [], and any other value makes `split` throw |
| RecipeService.ProcessRecipeData | src/services/recipeService.js:10-37 | `null` for a missing record; a throw exactly when a list column is neither an array nor a string; otherwise a stable record keeping `cuisine_type` and `image`, whose missing `image_url` becomes the `image`, else the path derived from the name, else the placeholder |
| RecipeService.ProcessKeepsPresentFields | src/services/recipeService.js:14-34 | fields the record already has (id, name, title, description, image path, array columns) are never replaced |
| RecipeService.ProcessFillsMissingFields | src/services/recipeService.js:14-27 | a missing id takes the first uuid; a missing name falls back to the title and vice versa, both to 'Untitled Recipe'; a missing description to 'A delicious recipe'; a missing `image_url` to the `image`, or to the placeholder picture when there is no image and no name |
| RecipeService.ProcessDerivesImagePath | src/services/recipeService.js:17-20 | a named record with neither image nor image path gets a derived path whose file name holds no white space and no upper-case letter |
| RecipeService.ProcessSplitsCsvIngredients | src/services/recipeService.js:29-30 | a comma-separated ingredient string becomes one trimmed item per piece |
| RecipeService.ProcessFixedPoints | src/services/recipeService.js:10-37 | a record is left unchanged by processing exactly when it is stable |
| RecipeService.ProcessIdempotent | src/services/recipeService.js:10-37 | processing a processed record again changes nothing, whatever uuids it draws |
| RecipeService.RecipeObject.constructor | src/services/recipeService.js:10 | the object holds the record it was given |
| RecipeService.ProcessInPlace | src/services/recipeService.js:10-37 | the argument itself keeps the assigned id and derived image path, and the returned copy is the processed record; `null` gives `null` |
| RecipeService.ProcessAll | src/services/recipeService.js:145-152 | `map(processRecipeData)` throws exactly when some row has an unsplittable list column, and otherwise gives one stable record per row keeping its cuisine type |
| RecipeService.ProcessAllStable | src/services/recipeService.js:145-152 | processing rows that are already stable changes nothing |
| RecipeService.GetAllRecipes | src/services/recipeService.js:140-157 | every record of the catalogue is stable, and it fails only when processing the mock recipes fails |
| RecipeService.GetAllRecipesSource | src/services/recipeService.js:140-157 | the catalogue is the processed CSV rows exactly when there are some and none throws, the processed mock recipes otherwise; it fails exactly when both sources throw |
| RecipeService.FindById | src/services/recipeService.js:162 | `find` returns the first catalogue record with that id, and misses exactly when none has it |
| RecipeService.GetRecipeByIdFinds | src/services/recipeService.js:159-168 | the record found is the catalogue's first record with the requested id, unchanged by processing it again; `null` means no record has the id |
| RecipeService.MatchedSelections | src/services/recipeService.js:197-200 | the selected items kept are exactly those whose lower-cased name occurs in some item text |
| RecipeService.MatchedSelectionsInOrder | src/services/recipeService.js:197-200 | `filter` keeps selection order: the result is the selection at strictly increasing positions, which are exactly the positions of the matching items |
| RecipeService.MatchedIsKeep | src/services/recipeService.js:197-200 | the matched selections are the selection filtered by each item's match verdict |
| Filters.KeepInOrder | src/services/recipeService.js:197-200 | a filter returns its input at strictly increasing positions, exactly the positions it keeps |
| Filters.KeepAll | src/services/recipeService.js:197-200 | a filter that keeps every element returns its input |
| Filters.KeepNone | src/services/recipeService.js:197-200 | a filter that keeps no element returns the empty array |
| RecipeService.MatchedAll | src/services/recipeService.js:197-200 | when every selection occurs in the recipe, all are kept |
| RecipeService.MatchedNone | src/services/recipeService.js:197-200 | when no selection occurs in the recipe, none is kept |
| RecipeService.IngredientPercentage | src/services/recipeService.js:203-205 | the ingredient part lies between 0 and 100: the number of matched selections over the number selected, times 100, and 50 without a selection |
| RecipeService.CookwareBonus | src/services/recipeService.js:208-220 | the cookware bonus lies between 0 and 20: the number of matched cookware selections over the number selected, times 20, and 0 without an array column or a selection |
| RecipeService.ScoreRecipe | src/services/recipeService.js:185-228 | every record is scored between 0 and 120; one without an ingredient array scores 10 with nothing matched; otherwise its score is the ingredient part plus the cookware bonus, it counts its ingredients, and it lists exactly the selected ingredients occurring in it, in selection order |
| RecipeService.ScoreFullMatch | src/services/recipeService.js:203-224 | a recipe in which every selected ingredient and cookware item occurs scores the maximum 120 |
| RecipeService.PercentageFull | src/services/recipeService.js:203-205 | all selected ingredients matched gives 100 percent |
| RecipeService.BonusFull | src/services/recipeService.js:219 | all selected cookware matched gives the full 20 points |
| RecipeService.ScoreNoMatch | src/services/recipeService.js:197-224 | with ingredients selected and nothing matched, the score is 0 |
| RecipeService.Insert | src/services/recipeService.js:231 | one insertion step of the sort keeps every entry and adds exactly the new one |
| RecipeService.SortByScore | src/services/recipeService.js:231 | the sort is a permutation of its input |
| RecipeService.InsertBounded | src/services/recipeService.js:231 | insertion adds no score above a common bound |
| RecipeService.InsertSorted | src/services/recipeService.js:231 | insertion into a list sorted by non-increasing score keeps it sorted |
| RecipeService.SortByScoreSorted | src/services/recipeService.js:231 | the sorted list has non-increasing scores |
| RecipeService.WithScoreInsert | src/services/recipeService.js:231 | an insertion puts the new entry first among the entries of its score |
| RecipeService.SortByScoreStable | src/services/recipeService.js:231 | the sort is stable: entries of equal score keep their relative order |
| RecipeService.ScoreAll | src/services/recipeService.js:185 | one scored listing per catalogue record, in order |
| RecipeService.PlainAll | src/services/recipeService.js:178 | one unscored listing per catalogue record, in order |
| RecipeService.MatchRecipesRanks | src/services/recipeService.js:170-236 | with a selection, every catalogue record appears exactly once, scored between 0 and 120, in non-increasing score order with ties in catalogue order |
| RecipeService.MatchRecipesWithoutSelection | src/services/recipeService.js:174-179 | whenever each list is missing or empty, the catalogue is returned unchanged and unscored |
| RecipeService.FilterHits | src/services/recipeService.js:247-267 | `filter` keeps exactly the records the query hits (name, title, description or an ingredient) |
| RecipeService.FilterHitsIsKeep | src/services/recipeService.js:247-267 | the search result is the catalogue filtered by each record's hit verdict |
| RecipeService.FilterHitsInOrder | src/services/recipeService.js:247-267 | the hits are the catalogue at strictly increasing positions, exactly those of the records the query hits, so catalogue order and multiplicity are kept |
| RecipeService.SearchRecipesFilters | src/services/recipeService.js:238-274 | a blank query returns the catalogue; any other query returns exactly the records the lower-cased, untrimmed query hits |
| RecipeService.SearchRecipesInOrder | src/services/recipeService.js:238-274 | the search result is the catalogue at strictly increasing positions: every position for a blank query, exactly the hits' positions otherwise |
| Kitchen.GeneratedId | src/contexts/KitchenContext.jsx:51 | the generated id is never empty |
| Kitchen.TaggedIngredient | src/contexts/KitchenContext.jsx:49-65 | the item keeps a given id and otherwise gets a non-empty one; each of category, type and cut, when given, becomes its tagging field, and when absent the existing tagging field stays; every other field (name, quantity, category, type, cut) is the input's, as the object spread keeps it |
| Kitchen.FindIndexByName | src/contexts/KitchenContext.jsx:68-70 | the index found is the first entry whose name matches ignoring letter case, and -1 means no entry matches |
| Kitchen.AddIngredientTo | src/contexts/KitchenContext.jsx:67-80 | a name already present (ignoring case) adds `quantity \|\| 1` to the first such entry, which is otherwise unchanged, and no other entry changes; a new name appends the tagged item |
| Kitchen.AddIngredientKeepsNamesUnique | src/contexts/KitchenContext.jsx:67-80 | adding keeps inventory names unique up to case, and the list keeps its length exactly when the name was already present |
| Kitchen.RemoveAt | src/contexts/KitchenContext.jsx:85 | a valid index removes exactly that one entry; any other index leaves the list unchanged |
| Kitchen.RemoveAtKeepsOrder | src/contexts/KitchenContext.jsx:85 | the entries before the index stay in place and those after move down by one |
| Kitchen.UpdateById | src/contexts/KitchenContext.jsx:90-92 | every entry with the update's id is replaced by it and every other entry is kept |
| Kitchen.UpdateByIdIdempotent | src/contexts/KitchenContext.jsx:90-92 | updating twice is updating once, and the set of positions carrying the id does not change |
| Kitchen.TaggedCookware | src/contexts/KitchenContext.jsx:98-114 | the item keeps a given id and otherwise gets a non-empty one; each of category, type and variety, when given, becomes its tagging field, and when absent the existing tagging field stays; every other field (name, quantity, category, type, variety) is the input's, as the object spread keeps it |
| Kitchen.AddCookwareTo | src/contexts/KitchenContext.jsx:116-118 | an item whose id is already present is ignored; any other is appended |
| Kitchen.AddCookwareKeepsIdsUnique | src/contexts/KitchenContext.jsx:96-119 | cookware ids stay unique, and adding an item with an id a second time changes nothing |
| Kitchen.Slice | src/contexts/KitchenContext.jsx:28 | a slice is never longer than its sequence |
| Kitchen.PageCount | src/contexts/KitchenContext.jsx:34 | the page count is the least number of three-recipe pages covering the matches |
| Kitchen.PageContents | src/contexts/KitchenContext.jsx:25-28 | each page from 1 to the page count holds one to three recipes, those at positions (page-1)*3 up to page*3; page 0 and pages past the last are empty |
| Kitchen.PagesCoverAll | src/contexts/KitchenContext.jsx:25-34 | reading pages 1 to the page count in order shows every matched recipe exactly once, in order |
| Kitchen.PagesFrom | src/contexts/KitchenContext.jsx:25-34 | reading the pages from any page on shows the matches from that page's first position on |
| Kitchen.IngredientNames | src/contexts/KitchenContext.jsx:155 | the service is handed one selection per inventory ingredient, carrying its name |
| Kitchen.CookwareNames | src/contexts/KitchenContext.jsx:155 | the service is handed one selection per cookware item, carrying its name |
| Kitchen.ServiceResult | src/contexts/KitchenContext.jsx:133-166 | without a selection: the first min(50, n) of the n catalogue records, in catalogue order, or None when the catalogue is empty or fails to load; with a selection: the service's non-empty match list unchanged, or None when it is empty or fails; a usable result is never empty |
| Kitchen.WithFallbackImage | src/contexts/KitchenContext.jsx:173-184 | the image path is the recipe's image_url, else its image, else the slug path derived from its name, else the default image; nothing but the image path changes |
| Kitchen.FallbackRecipes | src/contexts/KitchenContext.jsx:173-184 | one image-defaulted recipe per mock recipe, in order |
| Kitchen.FallbackRankingSize | src/contexts/KitchenContext.jsx:208-257 | the ranked fallback holds `min(50, n)` recipes in non-increasing score order, so `max(10, ...)` never pads it |
| Kitchen.ScaledDraw | src/contexts/KitchenContext.jsx:196 | a draw scaled by m and floored lies between 0 and m-1 |
| Kitchen.Draw | src/contexts/KitchenContext.jsx:196 | the position drawn at step i lies between 0 and i |
| Kitchen.Swap | src/contexts/KitchenContext.jsx:197 | a swap keeps the length |
| Kitchen.SwapPermutes | src/contexts/KitchenContext.jsx:197 | a swap keeps the same entries |
| Kitchen.FisherYates | src/contexts/KitchenContext.jsx:195-198 | the shuffle keeps the length |
| Kitchen.FisherYatesPermutes | src/contexts/KitchenContext.jsx:195-198 | every shuffle is a permutation of its input, whatever the draws |
| Kitchen.Shuffle | src/contexts/KitchenContext.jsx:195-198 | the array after the in-place loop is the Fisher–Yates shuffle of its old contents, hence a permutation of them |
| Kitchen.SwapInPlace | src/contexts/KitchenContext.jsx:197 | the destructuring assignment leaves exactly the swapped sequence |
| Kitchen.FisherYatesStep | src/contexts/KitchenContext.jsx:195-198 | one loop round is a swap with the drawn position followed by the rest of the shuffle |
| Kitchen.FisherYatesDone | src/contexts/KitchenContext.jsx:195 | with no position above 0 left the shuffle changes nothing |
| Kitchen.Shuffled | src/contexts/KitchenContext.jsx:192-198 | shuffling a copy gives a permutation of the original, of the same length |
| Kitchen.KitchenState.constructor | src/contexts/KitchenContext.jsx:8-22 | the inventory is what local storage held; no matches, page 1, not loading |
| Kitchen.KitchenState.Paginate | src/contexts/KitchenContext.jsx:31 | the page number is stored as given and nothing else changes |
| Kitchen.KitchenState.AddIngredient | src/contexts/KitchenContext.jsx:47-81 | the inventory becomes the merged or extended list, unique names stay unique, nothing else changes |
| Kitchen.KitchenState.RemoveIngredient | src/contexts/KitchenContext.jsx:84-86 | the entry at the index is removed and nothing else changes |
| Kitchen.KitchenState.UpdateIngredient | src/contexts/KitchenContext.jsx:89-93 | entries with the update's id are replaced and nothing else changes |
| Kitchen.KitchenState.AddCookware | src/contexts/KitchenContext.jsx:96-119 | a new id is appended, a known one ignored; unique ids stay unique; nothing else changes |
| Kitchen.KitchenState.RemoveCookware | src/contexts/KitchenContext.jsx:122-124 | the cookware at the index is removed and nothing else changes |
| Kitchen.KitchenState.ClearIngredients | src/contexts/KitchenContext.jsx:280-282 | the inventory is emptied and nothing else changes |
| Kitchen.KitchenState.ClearCookware | src/contexts/KitchenContext.jsx:285-287 | the cookware is emptied and nothing else changes |
| Kitchen.KitchenState.FindMatchingRecipes | src/contexts/KitchenContext.jsx:127-261 | the matches are the service's result when usable; otherwise the shuffled mock recipes cut to 50 without a selection, or the ranked mock recipes with one; loading ends and the inventory and page stay as they were |
| Kitchen.ShuffledFallbackDrawsFromMock | src/contexts/KitchenContext.jsx:186-205 | without a selection the fallback shows `min(50, n)` mock recipes, each at most as often as it occurs among them |
| Kitchen.PrefixSubMultiset | src/contexts/KitchenContext.jsx:201 | a prefix holds no entry more often than the whole |
| Cookbook.Formatted | src/contexts/CookbookContext.jsx:272-286 | a newly stored recipe always has an id, description, image path, difficulty and non-zero times, lists only 'all', and is stamped with the current time; it keeps a given id; its name is the name, else the title, else 'Untitled Recipe'; its rating is the given non-zero rating, else 0; each of ingredients, steps and required_cookware is the given array, or [] when that field is not an array |
| Cookbook.FindRecipe | src/contexts/CookbookContext.jsx:264 | the index found is the first recipe with the id, and -1 exactly when no recipe has it |
| Cookbook.IncrementAll | src/contexts/CookbookContext.jsx:295-299 | only the 'all' collection gains one; ids and names stay |
| Cookbook.RemoveId | src/contexts/CookbookContext.jsx:377 | the filter keeps exactly the other ids, and leaves a list without the id unchanged |
| Cookbook.RemoveIdNoDuplicates | src/contexts/CookbookContext.jsx:377 | filtering keeps a duplicate-free list duplicate-free |
| Cookbook.ToggledRecipes | src/contexts/CookbookContext.jsx:371-388 | exactly the recipes with the id have their collection list toggled; the others are kept |
| Cookbook.AdjustCount | src/contexts/CookbookContext.jsx:391-399 | only the target collection's count moves by one, clamped at 0 |
| Cookbook.WithRating | src/contexts/CookbookContext.jsx:438-440 | exactly the recipes with the id take the new rating |
| Cookbook.WithoutRecipe | src/contexts/CookbookContext.jsx:476 | the filter keeps exactly the recipes with another id |
| Cookbook.DecrementListed | src/contexts/CookbookContext.jsx:473-487 | exactly the collections the removed recipe listed lose one, clamped at 0 |
| Cookbook.WithoutCollection | src/contexts/CookbookContext.jsx:526 | the filter keeps exactly the collections with another id |
| Cookbook.StripCollection | src/contexts/CookbookContext.jsx:529-537 | every recipe listing the collection loses it from its list; the others are kept |
| Cookbook.HighlyRated | src/contexts/CookbookContext.jsx:564 | the filter keeps exactly the recipes rated 4 or more |
| Cookbook.HighlyRatedIsKeep | src/contexts/CookbookContext.jsx:564 | the highly rated list is the cookbook filtered by each recipe's `rating >= 4` verdict |
| Cookbook.HighlyRatedInOrder | src/contexts/CookbookContext.jsx:564 | the highly rated list is the cookbook at strictly increasing positions, exactly those rated 4 or more |
| Cookbook.CountConcat | src/contexts/CookbookContext.jsx:224-226 | a collection's count over two recipe lists is the sum of the counts |
| Cookbook.CountSingle | src/contexts/CookbookContext.jsx:224-226 | one recipe counts once for each collection it lists |
| Cookbook.CountReplace | src/contexts/CookbookContext.jsx:371-388 | replacing one recipe moves a count only by what that recipe contributes |
| Cookbook.CountRemove | src/contexts/CookbookContext.jsx:476 | dropping one recipe lowers a count by what that recipe contributed |
| Cookbook.CountPositive | src/contexts/CookbookContext.jsx:483 | a collection some recipe lists has a count of at least one, so the clamp never bites |
| Cookbook.CountSameLists | src/contexts/CookbookContext.jsx:438-440 | recipe lists with the same collection lists have the same counts |
| Cookbook.SpliceTail | src/contexts/CookbookContext.jsx:476 | dropping a later position commutes with dropping the head |
| Cookbook.TailUniqueRecipeIds | src/contexts/CookbookContext.jsx:476 | the tail of a list with unique ids has unique ids, none equal to the head's |
| Cookbook.WithoutRecipeUnique | src/contexts/CookbookContext.jsx:476 | with unique ids, filtering out one recipe's id removes that recipe alone |
| Cookbook.WithoutRecipeNone | src/contexts/CookbookContext.jsx:476 | filtering out an absent id changes nothing |
| Cookbook.TailUniqueCollectionIds | src/contexts/CookbookContext.jsx:526 | the tail of a list with unique collection ids has unique ids, none equal to the head's |
| Cookbook.WithoutCollectionUnique | src/contexts/CookbookContext.jsx:526 | with unique ids, filtering out one collection's id removes that collection alone |
| Cookbook.WithoutCollectionNone | src/contexts/CookbookContext.jsx:526 | filtering out an absent collection id changes nothing |
| Cookbook.AddKeepsConsistent | src/contexts/CookbookContext.jsx:291-300 | adding a recipe with a new id that lists only 'all', and counting it in 'all', keeps the cookbook consistent |
| Cookbook.ToggleCounts | src/contexts/CookbookContext.jsx:371-399 | after a toggle every collection's count is again the number of recipes listing it |
| Cookbook.ToggleKeepsConsistent | src/contexts/CookbookContext.jsx:360-426 | toggling a recipe in a collection keeps ids unique, lists duplicate-free and counts exact |
| Cookbook.AppendNoDuplicates | src/contexts/CookbookContext.jsx:383 | appending an absent id keeps a list duplicate-free |
| Cookbook.DropKeepsRecipeShape | src/contexts/CookbookContext.jsx:476 | dropping a recipe keeps ids unique and lists duplicate-free |
| Cookbook.RemoveKeepsConsistent | src/contexts/CookbookContext.jsx:464-509 | removing a recipe and decrementing the collections it listed keeps the cookbook consistent |
| Cookbook.DropKeepsCollectionIds | src/contexts/CookbookContext.jsx:526 | dropping a collection keeps collection ids unique |
| Cookbook.StripKeepsRecipeShape | src/contexts/CookbookContext.jsx:529-537 | stripping a collection from every recipe keeps ids unique and lists duplicate-free |
| Cookbook.RemoveCollectionKeepsConsistent | src/contexts/CookbookContext.jsx:512-559 | removing a collection and stripping it from every recipe keeps the cookbook consistent |
| Cookbook.CreateKeepsConsistent | src/contexts/CookbookContext.jsx:331-339 | appending an empty collection whose id no recipe lists keeps the cookbook consistent |
| Cookbook.RatingKeepsConsistent | src/contexts/CookbookContext.jsx:438-440 | changing a rating keeps the cookbook consistent |
| Cookbook.ToggleTwiceRestores | src/contexts/CookbookContext.jsx:371-399 | toggling a recipe into a collection it is not in and back out restores its list and every count |
| Cookbook.RemoveIdAppended | src/contexts/CookbookContext.jsx:377-383 | removing an id just appended to a list without it gives the list back |
| Cookbook.RecipeOfWeekIsHighlyRated | src/contexts/CookbookContext.jsx:564-574 | the recipe of the week chosen by week number is a cookbook recipe rated 4 or more |
| Cookbook.MockSeedCountsAllWithoutListing | src/contexts/CookbookContext.jsx:184-227 | the demonstration data counts three recipes in 'All Recipes' though none lists 'all', so it is not consistent; the other two counts agree |
| Cookbook.CookbookState.constructor | src/contexts/CookbookContext.jsx:12-17 | two empty default collections, no recipes, no recipe of the week; consistent |
| Cookbook.CookbookState.InitializeWithMockData | src/contexts/CookbookContext.jsx:182-259 | the state becomes the three demonstration recipes, their three collections and the demonstration recipe of the week |
| Cookbook.CookbookState.AddToCookbook | src/contexts/CookbookContext.jsx:262-318 | a known id is refused with nothing changed; otherwise the formatted recipe is appended, 'all' gains one, and a failed write reports the storage error after the state changed; consistency is kept |
| Cookbook.CookbookState.CreateCollection | src/contexts/CookbookContext.jsx:321-357 | a blank name and a name taken ignoring case are refused with nothing changed; otherwise an empty collection with the trimmed name and a time-based id is appended and its id returned; consistency is kept |
| Cookbook.CookbookState.ToggleRecipeInCollection | src/contexts/CookbookContext.jsx:360-426 | an unknown recipe is refused; otherwise the recipe leaves or joins the collection, its count moves by one, and the message says which; consistency is kept |
| Cookbook.CookbookState.UpdateRating | src/contexts/CookbookContext.jsx:429-461 | an unknown recipe is refused; otherwise its rating is replaced and collections are untouched; consistency is kept |
| Cookbook.CookbookState.RemoveFromCookbook | src/contexts/CookbookContext.jsx:464-509 | an unknown recipe is refused; otherwise it is removed and each collection it listed loses one; consistency is kept |
| Cookbook.CookbookState.RemoveCollection | src/contexts/CookbookContext.jsx:512-559 | 'all' and 'favorites' are refused, then an unknown collection; otherwise the collection is removed and stripped from every recipe; consistency is kept |
| Cookbook.CookbookState.UpdateRecipeOfWeek | src/contexts/CookbookContext.jsx:562-584 | with highly rated recipes the one at `week % n` becomes the recipe of the week; without, the first recipe is taken only when none is set, and the failure message is returned |

## Left out

- Rendering: the React pages and components, routing and styling have no decision logic of their own here and are not part of this model.
- Persistence: local-storage reads and writes and the cross-tab `storage` listener (src/contexts/CookbookContext.jsx:25-54, 133-179, src/contexts/KitchenContext.jsx:8-16, 36-44) are outside the model; the saved lists are constructor parameters and whether a write succeeds is an operation parameter.
- `loadRecipeOfWeek` (src/contexts/CookbookContext.jsx:57-130) only stores a fixed recipe and writes it to local storage; it is not modelled.
- CSV loading: the fetch and the CSV and JSON parsing (src/services/recipeService.js:40-137, api-server.js:154-170) are not modelled; the catalogue carries the rows they produce.
- Express: the static CSV routes and the list and detail routes (api-server.js:31-117, 138-152) only forward database queries, and the database itself is not modelled; the match route's scoring is the service's own and only its empty-selection rule is modelled.
- Supabase: every `select`, `update`, `upsert` and `rpc` call in the scripts is I/O; rows fetched are inputs and the outcome of each write is a parameter or left out. This includes the column checks and creation of `update-supabase-tagging.js` (scripts/update-supabase-tagging.js:107-153, 414-511).
- The SQL file write (scripts/generate-recipe-update-sql.js:143) is left out; the model returns the text written.
- Clock and randomness: `Date.now()`, `new Date()` (ISO stamps, week number, day of year), `uuidv4` and `Math.random` are parameters; `getRandomChefQuote` draws only a random index and is not modelled.
- Timing: `setTimeout` delays, the 1-second pauses between batches, and the interleaving of overlapping asynchronous calls (such as two concurrent `findMatchingRecipes`) are not modelled; each operation runs to completion.
- Floating point: scores and percentages are exact reals, not IEEE doubles.
- Strings: `toLowerCase` folds ASCII letters only and `\s` matches ASCII white space only; lengths count characters, not UTF-16 code units.
- Null text fields: a missing or null scalar text field is modelled as the empty string, which JavaScript's `||` treats the same way.
- Kitchen.KitchenState.AddIngredient: the source adds to the `quantity` of the existing element object in place (src/contexts/KitchenContext.jsx:75), which aliases the previous state's element; the model replaces the element by value and does not capture that aliasing.
- RecipeUpdateSql.CookwareTags: fails on any non-string element of a non-empty cookware array, whatever the type table holds. The script calls `toLowerCase()` on an element only inside its loop over the table (scripts/generate-recipe-update-sql.js:82), so with an empty table it would not throw. The script's own table is never empty, so its runs are unaffected.
- Kitchen.WithFallbackImage: the source writes the derived `image_url` onto the imported mock recipe objects themselves before spreading them (src/contexts/KitchenContext.jsx:175-178); the model builds copies only. Each call recomputes the same path, so the returned recipes are the same, but the in-place write to the shared mock module is not captured.
- Kitchen.KitchenState.FindMatchingRecipes: the outer `catch` with its six-recipe emergency fallback (src/contexts/KitchenContext.jsx:262-276) is reached only when importing the mock-data module fails, which is not modelled.
- Auth: `login`, `signup` and `logout` in src/contexts/AuthContext.jsx write a mocked identity to storage and are not modelled; a level that is `NaN` is not modelled (levels are integers).
- SupabaseTagging.GenerateDetailedTags: rows whose tag or cookware columns hold a non-string element are excluded by its precondition; there `toLowerCase` throws and the run stops in its outer `catch`.
- ImprovedTagging.BuildUpdates: the modelled analysis never throws, so the per-recipe `catch` that drops a recipe (scripts/archive/update-recipe-tags-improved.js:369-371) is not reached.
- Pagination follows the code, not the design description: page numbers are stored unclamped and a page past the last is empty.
- `scripts/archive/update-recipe-tagging.js` only runs other scripts as child processes, and `scripts/fix-mansaf-recipe.js`, `scripts/archive/fix-mansaf-direct.js`, `scripts/update-supabase-schema.js` and `scripts/test-supabase-connection.js` are sequences of database calls; none is modelled.

## Findings

`RecipeNameRepair.FixRecipeNames` follows the script as written; `RecipeNameRepair.RepairedName` is the corrected rule, and `RecipeNameRepair.AsWrittenDiffersOnlyOnLongerIds` says exactly where the two part.

| source | as written | input that shows it | evidently intended | confidence | as-written member | corrected member |
|---|---|---|---|---|---|---|
| scripts/fix-recipe-names.js:59-61 | the recipe id is compared with `===` against the 33-character fragment `17562-3038-4e4e-8e72-85fa66c20ea5`, so no 36-character uuid can ever be named 'Mansaf' | a null-named row with the hypothetical uuid `a0017562-3038-4e4e-8e72-85fa66c20ea5` and ingredients `['lamb']` is named 'lamb Recipe' | the id should be tested for containing the fragment, as the sibling repair scripts do with their partial ids (`scripts/fix-all-null-names.js:84`), giving 'Mansaf'; this intent rests on the siblings' partial-id style, since no real id in the repository is known to contain this fragment (the sibling's full Mansaf id at `scripts/fix-all-null-names.js:59` does not) | not executed | RecipeNameRepair.AsWrittenMissesMansaf | RecipeNameRepair.RepairedNameMansafIff |
