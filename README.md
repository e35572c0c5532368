# flavor-find: a Dafny model of the recipe query core

This project models the logic of the flavor-find recipe website:

- **Recipe API** (`recipe_api.dfy`, module `RecipeApi`). The recipe and
  tag records. The loader that degrades a read or parse failure to an
  empty list and keeps the first load for the rest of a cache scope
  (class `RecipeStore`). The query `getPublicRecipes`, which narrows the
  loaded list through six guarded stages: total time, ingredient count,
  protein, carbs, required tags and text search. Lookup by identifier.
  The query is a method, `FilterRecipes`, that reassigns its result stage
  by stage as the source does. It is proved equal to the specification
  function `Select`: the order-preserving subsequence of recipes that
  satisfy every active filter. A filter is active only when its value is
  JavaScript-truthy, so a bound of `0`, an empty tag list or an empty
  search string imposes nothing.
- **Filter panel** (`filter_panel.dfy`, module `FilterPanel`). The active
  tags read from the `tags` URL parameter. The tag toggle on a click. The
  set-or-delete rule for the other controls. Both handlers edit a copy of
  the parameters (class `QueryParams`) and leave every other key as it was.
- **Structured data** (`structured_data.dfy`, module `StructuredData`).
  The schema.org `Recipe` object. Times are ISO 8601 durations of the form
  `PT<n>M`, with only a minutes component. Each ingredient becomes one
  text line. Each instruction becomes a `HowToStep` numbered from 1.
- **Sitemap** (`sitemap.dfy`, module `Sitemap`). The home-page entry
  followed by one entry per recipe.
- Helpers: `wrappers.dfy` (`Option`) and `text.dfy` (module `Text`). `Text`
  holds ASCII lower-casing, `includes`, decimal numerals, and `split`/`join`
  on one separator character.

Inputs the program gets from outside are parameters. The outcome of
reading and parsing a data file is a `ParseOutcome`: `ReadFailed`,
`JsonNull` (a document holding `null`) or `Json(value)`. The browser's
query parameters are a `map<string, string>`. JavaScript's
number-to-text conversion of an ingredient quantity is the function
parameter `showNumber`.

Three behaviours of the code are easy to misread. The model follows the
code in each case:

- `getAvailableTags` is not wrapped in `cache`, so the tag file is read on
  every call. It is modelled without a memo.
- A recipe document holding `null` parses without error. `getPublicRecipes`
  then returns `[]` through its `!recipes` guard. `getRecipeById` calls
  `find` on `null` and throws a `TypeError`. Of the two bad-document
  cases, only a read or parse failure makes lookup return not-found. A
  document holding `null` makes it throw.
- `"".split(',')` is `[""]`, so an empty `tags` parameter means one active
  tag, the empty string. It does not mean no tags.

## Model

| member | source | states |
|---|---|---|
| `RecipeApi.FilterRecipes` | src/recipes/lib/api.ts:69-115 | The six guarded stages, applied in source order, return exactly `Select(recipes, f)`: the recipes that satisfy every active filter, in their original order. |
| `RecipeApi.SelectPositions` | src/recipes/lib/api.ts:77-113 | The result is a subsequence of the input. Its elements come from strictly increasing positions, and those positions are exactly the ones whose recipe satisfies the filters. Nothing is added, duplicated or reordered. |
| `RecipeApi.SelectMembership` | src/recipes/lib/api.ts:76-115 | Soundness and completeness: a recipe is in the result if and only if it is in the loaded list and satisfies every active filter. |
| `RecipeApi.SatisfiesMeaning` | src/recipes/lib/api.ts:76-112 | Satisfying the filters means each active bound holds, all inclusive: total time ≤ maxTime, ingredient count ≤ maxIngredients, protein ≥ minProtein, carbs ≤ maxCarbs. Every required tag is among the recipe's tags. The lower-cased search term occurs in the lower-cased title, description or some ingredient name. |
| `RecipeApi.NoActiveFilterKeepsAll` | src/recipes/lib/api.ts:76-106 | When every field is absent or falsy (`0`, `[]`, `""`), the query returns the loaded list unchanged, in order. |
| `RecipeApi.HasEveryTagIsContainment` | src/recipes/lib/api.ts:100-104 | `every`/`includes` over the required tags is set containment with exact string equality. |
| `RecipeApi.SearchIgnoresCase` | src/recipes/lib/api.ts:106-112 | Two search terms that lower-case alike select the same recipes. |
| `RecipeApi.CombineIsIntersection` | src/recipes/lib/api.ts:76-113 | Filters are conjunctive. Take two filter sets that activate different fields. Querying with their union equals querying with the first and then filtering that result with the second. |
| `RecipeApi.TwoRecipeExample` | src/recipes/lib/api.ts:76-104 | Worked example with recipe a (20 min, tag vegan) and recipe b (50 min, tag quick). A 30-minute bound keeps only a. Requiring both tags keeps neither. Requiring vegan keeps a. |
| `RecipeApi.FindById` | src/recipes/lib/api.ts:121-124 | The result is not-found exactly when no recipe has the identifier. Otherwise it is the recipe at the first position that has it. |
| `RecipeApi.FindUniqueId` | src/recipes/lib/api.ts:121-124 | An identifier held by exactly one recipe finds that recipe. |
| `RecipeApi.GetAvailableTags` | src/recipes/lib/api.ts:126-135 | A read or parse failure gives the empty tag list. A parsed document is returned as it is. `null` only comes from a document holding `null`. |
| `RecipeApi.RecipeStore.GetRecipes` | src/recipes/lib/api.ts:45-55 | The first call of a scope loads from the source, with a failure becoming `[]`, and memoises the result. Later calls return the memoised value. |
| `RecipeApi.RecipeStore.GetPublicRecipes` | src/recipes/lib/api.ts:61-116 | Loads through the memo. A `null` document gives `[]`. Otherwise the result is `Select` over the memoised list. |
| `RecipeApi.RecipeStore.GetRecipeById` | src/recipes/lib/api.ts:121-124 | Loads through the memo. A `null` document throws. Otherwise the result is the first-match lookup over the memoised list. |
| `RecipeApi.RepeatedCallsAgree` | src/recipes/lib/api.ts:41-55 | Within one scope a repeated query or lookup returns the same result as the first, even if the file changed. Both are computed from the first load. |
| `RecipeApi.FailedLoadDegrades` | src/recipes/lib/api.ts:51-54 | When the recipe file cannot be read or parsed, every query returns `[]` and every lookup returns not-found. Nothing is thrown. |
| `RecipeApi.NullDocument` | src/recipes/lib/api.ts:71-73 | With a document holding `null`, the query's guard returns `[]`, but the lookup throws a `TypeError`. |
| `Text.IncludesIffOccurs` | src/recipes/lib/api.ts:109-111 | `includes` holds exactly when the needle occurs at some position of the haystack. |
| `Text.NatToDecimal` | src/recipes/ui/RecipeStructuredData.tsx:19-22 | A number's numeral is a non-empty string of digits with no leading zero, except for 0 itself. |
| `Text.DecimalRoundTrip` | src/recipes/ui/RecipeStructuredData.tsx:19-22 | Reading a number's numeral back gives the number. |
| `Text.Split` | src/recipes/ui/FilterPanel.tsx:21 | Splitting always gives at least one piece, and no piece contains the separator. |
| `Text.JoinSplit` | src/recipes/ui/FilterPanel.tsx:21 | Joining the pieces of a split gives back the original string. |
| `Text.SplitJoin` | src/recipes/ui/FilterPanel.tsx:49-50 | Splitting the join of a non-empty list of separator-free pieces gives back the list. |
| `FilterPanel.ActiveTags` | src/recipes/ui/FilterPanel.tsx:21 | With no `tags` parameter the active tags are `[]`. Otherwise they are a non-empty, comma-free list whose comma-join is the parameter's value. |
| `FilterPanel.Without` | src/recipes/ui/FilterPanel.tsx:43 | Removing a tag leaves no occurrence of it. |
| `FilterPanel.WithoutCounts` | src/recipes/ui/FilterPanel.tsx:43 | Removing a tag sets its count to zero. Every other tag keeps its number of occurrences. |
| `FilterPanel.WithoutAppend` | src/recipes/ui/FilterPanel.tsx:43 | Removal distributes over concatenation, so the remaining tags keep their order. |
| `FilterPanel.ToggleTag` | src/recipes/ui/FilterPanel.tsx:40-47 | A selected tag is removed everywhere and the other tags are kept. A tag not selected is appended at the end. |
| `FilterPanel.ToggleTwice` | src/recipes/ui/FilterPanel.tsx:40-47 | Toggling a tag that is not selected, and then toggling it again, gives back the original list. |
| `FilterPanel.TagClickParams` | src/recipes/ui/FilterPanel.tsx:37-53 | Every key other than `tags` is unchanged. `tags` is present exactly when the toggled list is non-empty, and then holds the comma-join of that list. For a comma-free tag name, the next read of the active tags gives the toggled list. |
| `FilterPanel.HandleTagClick` | src/recipes/ui/FilterPanel.tsx:36-54 | The handler, editing a copy of the parameters, navigates to exactly `TagClickParams(current, tagName)`. |
| `FilterPanel.TagClickTwice` | src/recipes/ui/FilterPanel.tsx:37-53 | Two clicks on an unselected, comma-free tag restore the original parameters exactly. This holds whether `tags` was absent or present. |
| `FilterPanel.HandleFilterChange` | src/recipes/ui/FilterPanel.tsx:27-32 | A truthy value sets the key to `String(value)`. A falsy value (`""`, `0`, `null`) deletes the key. Every other key is unchanged. |
| `FilterPanel.NumberParamReadsBack` | src/recipes/ui/FilterPanel.tsx:29 | `String(value)` of a positive integer is its decimal numeral: the digits read back as that number. |
| `StructuredData.IsoMinutesRoundTrip` | src/recipes/ui/RecipeStructuredData.tsx:19-21 | A `PT<n>M` duration reads back as the minutes it was written from. |
| `StructuredData.IngredientLines` | src/recipes/ui/RecipeStructuredData.tsx:23-25 | There is one line per ingredient, in order. Line i is quantity, unit and name joined by single spaces. |
| `StructuredData.IngredientLineReadBack` | src/recipes/ui/RecipeStructuredData.tsx:23-25 | When the quantity text and the unit contain no space, splitting the line on spaces recovers the quantity text, the unit and the name. |
| `StructuredData.Steps` | src/recipes/ui/RecipeStructuredData.tsx:26-30 | There is one step per instruction. Step i is a `HowToStep` carrying instruction i at position i + 1. |
| `StructuredData.ToJsonLd` | src/recipes/ui/RecipeStructuredData.tsx:13-32 | `@context` and `@type` are the fixed schema.org constants. Name, description and image are the recipe's title, description and image URL. There are as many ingredient lines and steps as the recipe has ingredients and instructions. |
| `StructuredData.ReadBackRoundTrip` | src/recipes/ui/RecipeStructuredData.tsx:13-32 | Reading the object back recovers title, description, image, the three times, the yield and the instruction texts in order. |
| `Sitemap.RecipeEntries` | src/app/sitemap.ts:10-15 | There is one entry per recipe, in order. Entry i has the URL of recipe i's page, monthly change frequency and priority 0.8. |
| `Sitemap.SitemapListsEveryRecipe` | src/app/sitemap.ts:8-25 | For a loaded list the sitemap has one more entry than there are recipes. The first is the weekly home page, whose URL names no recipe. Entry i+1 is monthly, and its URL names exactly recipe i's identifier. |
| `Sitemap.NullCollectionSitemap` | src/app/sitemap.ts:8-25 | A recipe document holding `null` leaves only the home-page entry. |

## Left out

- Reading files, `JSON.parse`, `path.join`/`process.cwd` and `console.error`. Their outcome is the `ParseOutcome` parameter.
- JSON values other than an array or `null`, and records with missing or mistyped fields. The code does not validate them.
- The boundary of a cache scope. One `RecipeStore` object stands for one scope of React's `cache`.
- JavaScript number semantics beyond exact comparison. There is no `NaN` and no infinity. Bounds and macros are exact reals. Times and servings are natural numbers, so fractional or negative minutes are not modelled.
- `toLowerCase` beyond ASCII. Unicode case mapping is not modelled.
- JavaScript's number-to-text conversion of ingredient quantities. It is the parameter `showNumber`.
- `FilterPanel.HandleFilterChange`: numbers passed as values are integers only. The controls in the source pass strings.
- `URLSearchParams` as a multi-map. The model does not capture repeated keys, key order, percent-encoding or `toString`. `router.push` and `usePathname` are not modelled either. The handlers return the parameters they would navigate to.
- `FilterPanel.TagClickParams`: the read-back property is stated only for tag names without a comma. A name containing a comma is split into several tags on the next read. This is what the code does.
- All JSX rendering: the filter panel's markup, the `<script>` wrapper and `JSON.stringify` of the structured data, the recipe card and the pages.
- The sitemap's `lastModified` dates, which are the current time. Priorities are the exact reals 1 and 0.8.
