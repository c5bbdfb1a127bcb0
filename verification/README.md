# Dish finder search core, in Dafny

A verified model of the pure logic of a restaurant and dish discovery web
application:

- the query string built for the external menu dataset (`buildApiQuery`)
  and the title-casing helper exported by the same utility module
  (`toTitleCase`);
- the search dispatch of the combined search box and of the three
  single-field search tabs (city, dish, restaurant), which look the
  lower-cased input up in the bundled sample tables;
- the normalisation of fetched dish rows into display records, with
  missing counts read as 0 and `score = upvotes - downvotes`, and the
  `"multiple"` result of the top-dishes hook.

Everything is immutable datatypes and pure functions. Modules follow the
source files:

| module | file | models |
|---|---|---|
| `Wrappers` | wrappers.dfy | `Option`, standing in for `null` / `undefined` |
| `Chars` | chars.dfy | the `[a-zA-Z]` and `\s` classes, ASCII case mapping |
| `Criteria` | criteria.dfy | the three search fields and string truthiness |
| `QueryBuilder` | query_builder.dfy | `buildApiQuery` before encoding, and a parser that inverts it |
| `TitleCase` | title_case.dfy | `toTitleCase` |
| `Tables` | tables.dfy | the sample-table shapes and the `table[key] \|\| default` lookup |
| `Sample` | sample_data.dfy | a fragment of the sample tables |
| `TabSearch` | tab_search.dfy | `CitySearch`, `DishSearch`, `RestaurantSearch` |
| `UnifiedSearch` | unified_search.dfy | the combined search box |
| `TopDishes` | top_dishes.dfy | the row-to-record mapping of `useTopDishes` |
| `Scenarios` | scenarios.dfy | searches against the sample fragment |

The search components look an exact lower-cased key up in static sample
tables; only `useTopDishes` talks to the store.

## Model

| member | source | states |
|---|---|---|
| `Chars.LowerEqualIff` | src/components/CitySearch.tsx:17 | lower-casing makes two strings equal exactly when they differ only in ASCII letter case |
| `QueryBuilder.QueryText` | src/lib/utils.ts:8-26 | the query always starts with the fixed `SELECT … WHERE 1=1` prefix and ends with ` LIMIT 10`; with all three fields empty it is exactly prefix plus limit |
| `QueryBuilder.ParseQueryText` | src/lib/utils.ts:14-26 | for quote-free terms the query parses back to exactly those terms: one `LIKE '%term%'` clause per non-empty field, verbatim, on column `name` / `identifier` / `restaurant_name`, in the order dish, city, restaurant, and no clause for an empty field |
| `QueryBuilder.ParsedQueryIsQueryText` | src/lib/utils.ts:14-26 | conversely, any string the parser accepts is the query of the quote-free terms it returns |
| `QueryBuilder.ParseQueryIff` | src/lib/utils.ts:14-26 | both directions: parsing yields `c` exactly when `c` is quote-free and its query is the string |
| `QueryBuilder.QueryTextNotInjective` | src/lib/utils.ts:17-20 | terms are not escaped: for any non-empty dish and city, a dish term that closes its own pattern and opens a city clause sends the same query as the honest dish-and-city search |
| `TitleCase.Strip` | src/lib/utils.ts:32 | the stripped string is no longer than the input, holds only ASCII letters and whitespace, and leaves a string of such characters unchanged |
| `TitleCase.StripChar` | src/lib/utils.ts:32 | a single character survives exactly when it is an ASCII letter or whitespace |
| `TitleCase.StripAppend` | src/lib/utils.ts:32 | stripping a concatenation is the concatenation of the stripped parts, so (with `StripChar`) every kept character survives in its original order |
| `TitleCase.CaseWordsAt` | src/lib/utils.ts:35-37 | on stripped text, each letter is upper-cased when it starts a word (first position or after whitespace) and lower-cased otherwise; whitespace is unchanged |
| `TitleCase.ToTitleCase` | src/lib/utils.ts:30-38 | the output is never longer than the input, holds only ASCII letters and whitespace, has a letter upper case exactly at the start or after whitespace, and spells the kept input characters up to case |
| `TitleCase.TitleCaseFixes` | src/lib/utils.ts:30-38 | a title-cased string of letters and whitespace is its own title case |
| `TitleCase.TitleCaseIdempotent` | src/lib/utils.ts:30-38 | title-casing twice is title-casing once |
| `TitleCase.TitleCaseUnique` | src/lib/utils.ts:30-38 | the title case is the only title-cased string that spells the kept characters up to case |
| `TitleCase.TitleCaseCharacterized` | src/lib/utils.ts:30-38 | both directions of that characterisation |
| `TitleCase.TitleCaseKeepsSpaces` | src/lib/utils.ts:32-37 | the whitespace characters of the input survive, in order, and none is added |
| `TitleCase.TitleCaseExample` | src/lib/utils.ts:32-37 | `"dA 2nd"` becomes `"Da Nd"`: the digit goes and the run after it still starts a word |
| `Tables.LookupIgnoringCase` | src/components/CitySearch.tsx:17-21 | the entry under the lower-cased name when the table has it, otherwise the empty default |
| `Tables.LookupIgnoresCase` | src/components/CitySearch.tsx:17 | names differing only in letter case look up the same value |
| `Tables.LookupAsWritten` | src/components/CitySearch.tsx:17-21 | the lookup on a plain JavaScript object: any value other than the default is a table entry, or else an inherited member |
| `Tables.LookupAsWrittenAgrees` | src/components/CitySearch.tsx:17-21 | for names that do not lower-case to an `Object.prototype` member, the lookup as written equals the own-key lookup |
| `Tables.PrototypeKeyEscapesDefault` | src/components/CitySearch.tsx:17-21 | a name lower-casing to an inherited member the table lacks yields that member, not the default |
| `Tables.ConstructorEscapesDefault` | src/components/UnifiedSearch.tsx:35-39 | `"Constructor"` yields the inherited `constructor` as written, and the empty default under own-key lookup |
| `TabSearch.CitySearch` | src/components/CitySearch.tsx:15-22 | a search always leaves non-null results: the entry for the lower-cased city, or three empty buckets; an empty city is looked up too |
| `TabSearch.DishSearch` | src/components/DishSearch.tsx:14-21 | a search always leaves non-null results: the entry for the lower-cased dish, or empty `top` and `bottom` |
| `TabSearch.RestaurantSearch` | src/components/RestaurantSearch.tsx:15-23 | a search always leaves non-null results keyed on the lower-cased restaurant alone, or three empty buckets; no city is demanded |
| `TabSearch.CitySearchIgnoresCase` | src/components/CitySearch.tsx:17 | cities differing only in letter case give the same results |
| `TabSearch.DishSearchIgnoresCase` | src/components/DishSearch.tsx:16 | dishes differing only in letter case give the same results |
| `TabSearch.RestaurantSearchIgnoresCase` | src/components/RestaurantSearch.tsx:17 | restaurant names differing only in letter case give the same results |
| `TabSearch.RestaurantSearchIgnoresCity` | src/components/RestaurantSearch.tsx:8-23 | the city field has no effect on the restaurant tab |
| `TabSearch.CitySearchAsWritten` | src/components/CitySearch.tsx:17-21 | as written, the city tab agrees with the corrected one except on inherited member names |
| `TabSearch.DishSearchAsWritten` | src/components/DishSearch.tsx:16-19 | as written, the dish tab agrees with the corrected one except on inherited member names |
| `TabSearch.RestaurantSearchAsWritten` | src/components/RestaurantSearch.tsx:17-21 | as written, the restaurant tab agrees with the corrected one except on inherited member names |
| `TabSearch.ConstructorBreaksTabs` | src/components/CitySearch.tsx:17-21 | on every tab, `"Constructor"` yields the inherited constructor as written and empty buckets when corrected |
| `UnifiedSearch.HandleSearch` | src/components/UnifiedSearch.tsx:20-55 | city required exactly when a restaurant comes without a city; no change exactly when all fields are empty; otherwise restaurant (with city) beats dish beats city, and each branch shows what the matching tab would show |
| `UnifiedSearch.HandleSearchAsWritten` | src/components/UnifiedSearch.tsx:20-55 | the dispatch as written refuses and leaves results alone in exactly the same cases as the corrected one, and stores the same values whenever no field lower-cases to an inherited `Object.prototype` member |
| `UnifiedSearch.ConstructorBreaksHandleSearch` | src/components/UnifiedSearch.tsx:35-52 | `Constructor` as restaurant (with a city), dish or city stores the inherited `constructor` as written, and that branch's empty buckets when corrected |
| `UnifiedSearch.Search` | src/components/UnifiedSearch.tsx:20-55 | the notice fires exactly for a restaurant without a city; then, and when nothing is filled in, the previous results stay; otherwise the results become exactly what that branch shows |
| `UnifiedSearch.RestaurantKeyOnly` | src/components/UnifiedSearch.tsx:34-40 | with a restaurant and a city, the outcome depends on the restaurant name only, not on city or dish |
| `UnifiedSearch.HandleSearchIgnoresCase` | src/components/UnifiedSearch.tsx:34-54 | fields differing only in letter case give the same outcome |
| `UnifiedSearch.MissingKeyShowsEmpty` | src/components/UnifiedSearch.tsx:35-52 | a missing key shows three empty buckets for restaurant and city, empty `top`/`bottom` for dish |
| `UnifiedSearch.SpacesCountAsProvided` | src/components/UnifiedSearch.tsx:24-41 | nothing is trimmed: a restaurant of one space demands a city, a dish of one space is searched |
| `UnifiedSearch.GuardOnlyInUnifiedSearch` | src/components/UnifiedSearch.tsx:24-31 | a restaurant without a city is refused here, while the restaurant tab shows a result for it |
| `TopDishes.CountOrZero` | src/hooks/useTopDishes.ts:79-80 | an absent or null count reads as 0, a present one as itself |
| `TopDishes.Normalize` | src/hooks/useTopDishes.ts:74-81 | the record carries the row's id, name, type, joined restaurant name and city (absent when the join or column is), counts defaulted to 0, and score = upvotes − downvotes |
| `TopDishes.NormalizeAll` | src/hooks/useTopDishes.ts:73-81 | one record per row, at the same position, so length and order are kept and nothing is dropped |
| `TopDishes.Bucket` | src/hooks/useTopDishes.ts:73-82 | a missing fetched array gives an empty bucket; a present one gives its rows' records in order |
| `TopDishes.Process` | src/hooks/useTopDishes.ts:72-108 | the result is tagged `"multiple"` with exactly the appetizers, mains and desserts buckets |
| `TopDishes.NegativeScore` | src/hooks/useTopDishes.ts:81 | scores can be negative, also when upvotes are null |
| `TopDishes.RequestKept` | src/hooks/useTopDishes.ts:27-29 | if the store returns at most ten rows of the requested type by upvotes descending, the bucket has at most ten records of that type, and upvotes never increase after the first non-null count |
| `TopDishes.RequestKeptSorted` | src/hooks/useTopDishes.ts:27-29 | with no null counts, the bucket is sorted by upvotes descending |
| `TopDishes.NullUpvotesBreakOrder` | src/hooks/useTopDishes.ts:28 | a null count, which a descending sort places first, shows as 0 ahead of a larger count |
| `Scenarios.PizzaSearch` | src/lib/sampleData.ts:57-69 | `"PizZA"` finds the pizza rankings on the dish tab and in the combined box |
| `Scenarios.PeterLugerSearch` | src/lib/sampleData.ts:38-55 | a restaurant with a city shows that restaurant's courses whatever the dish and city say |
| `Scenarios.UnknownCitySearch` | src/components/UnifiedSearch.tsx:47-53 | a city not in the tables shows three empty columns |

## Findings

| source | as written | input that shows it | evidently intended | confidence | as-written member | corrected member |
|---|---|---|---|---|---|---|
| src/components/CitySearch.tsx:17-21 | indexes a plain object by the lower-cased city, so inherited `Object.prototype` members count as hits and skip the empty default | city `Constructor`: the results become the `Object` function (for `__proto__`, the `Object.prototype` object); its `.appetizers` is undefined, and the column's `items.map` (src/components/ResultsColumn.tsx:16) throws | own keys only: a name not in the table shows three empty buckets | high; not executed | `TabSearch.CitySearchAsWritten` (with `TabSearch.ConstructorBreaksTabs`) | `TabSearch.CitySearch` |
| src/components/DishSearch.tsx:16-19 | the same lookup on the dish table | dish `Constructor`: `.top` is undefined and the column throws | empty `top` and `bottom` for a name not in the table | high; not executed | `TabSearch.DishSearchAsWritten` (with `TabSearch.ConstructorBreaksTabs`) | `TabSearch.DishSearch` |
| src/components/RestaurantSearch.tsx:17-21 | the same lookup on the restaurant table | restaurant `Constructor`: `.appetizers` is undefined and the column throws | three empty buckets for a name not in the table | high; not executed | `TabSearch.RestaurantSearchAsWritten` (with `TabSearch.ConstructorBreaksTabs`) | `TabSearch.RestaurantSearch` |
| src/components/UnifiedSearch.tsx:35-52 | the same lookup in each of the three branches | restaurant `Constructor` with any city, or dish or city `Constructor` alone | empty buckets of the branch's shape | high; not executed | `UnifiedSearch.HandleSearchAsWritten` (with `UnifiedSearch.ConstructorBreaksHandleSearch`) | `UnifiedSearch.HandleSearch` |

The corrected lookup is the one the rest of the model uses;
`Tables.LookupAsWrittenAgrees` shows the two coincide on every name that
does not lower-case to an inherited member. Only `constructor` and
`__proto__` are reachable, since lower-casing cannot produce the other
inherited names.

## Left out

- `encodeURIComponent` (src/lib/utils.ts:27): the percent-encoding of the query is a platform built-in; `QueryBuilder.QueryText` is the string handed to it.
- `cn` (src/lib/utils.ts:4-6): a wrapper over the class-name helper libraries.
- Chars.Lower: lower-cases ASCII letters only, because JavaScript's full Unicode case mapping is a platform table; a key with non-ASCII capitals (`"PARÍS"`) would lower-case differently.
- TitleCase.CaseWords: defined for stripped text (letters and whitespace), which is the only text it is applied to; the regular expression on arbitrary text is not modelled.
- The store calls of `useTopDishes` (src/hooks/useTopDishes.ts:11-69): remote I/O. The fetched arrays are inputs, and the request's filter, order and limit appear only as the precondition `TopDishes.AsRequested`.
- The catch path, the initial `null` state and the `useEffect` trigger of `useTopDishes`: React state and error display.
- React state updates, input bindings and toast notifications: the "City Required" toast is the boolean `cityRequiredNotice`; its text is not modelled.
- Counts are JavaScript numbers; the model uses unbounded integers, which agree for counts below 2^53.
- Column types of the `dishes` table are not visible: ids are modelled as strings.
- The sample tables (src/lib/sampleData.ts) are reproduced only in part: New York, Peter Luger and pizza.
- Rendering and layout: ResultsColumn, SearchTabs, SearchForm, the index page, the add form and the styling configuration.
