# Country indicator explorer: a Dafny model of its core

The map page lets a user pick a country and then move one of five sliders:
life expectancy, air quality, water quality, population growth and GDP per
capita. Each move re-predicts the other four indicators from fixed affine
regressions and clamps them into the slider ranges. Behind the page sit three
more pieces of logic, and this project models all four:

- **Baseline store** (`country_data.dfy`, module `CountryData`). A constant table maps a country
  name to its indicators and an optional carbon value. A lookup falls back to a
  default record for unknown names and derives a missing carbon value from an
  affine equation, floored at 0. The list of country names is the sorted key set.
- **Prediction engine and page state** (`prediction.dfy`, `page_state.dfy`,
  modules `Prediction` and `PageState`). The five regressions, the one-pass
  `calculatePredictions`, and clamping are functions. The page's three
  state cells form a class `Home`. Its two handlers are methods, and each is
  specified by a function of the old state.
- **Fact-list parser** (`fact_parser.dfy`, module `FactParser`). It is the
  `split` / `filter` / `map` / `filter` chain that turns the text model's reply
  into facts. The three canned sentences replace the result when nothing is
  parsed or when the call throws. The reply is an input.
- **Relay status policy** (`chat_route.dfy`, module `ChatRoute`). The `POST`
  handler's chain of early returns decides the HTTP status and error text. The
  API key, the parsed body and the model call are inputs.

Helper modules: `Optional` holds an `Option` type for optional properties and
`string | null`. `JsMath` holds `Math.max` and `Math.min`. `JsString` holds the
JavaScript string operations the core needs: `trim`, `split`, `includes`, the
`\d` and `\s` classes, and the order of the default `sort`, taken by Unicode
scalar value, which is the same as code-unit order on the Basic Multilingual
Plane.

Numbers are `real`. The arithmetic is affine equations and min/max clamps, so
every property holds exactly over the reals.

What the model takes from the code:

- The regression coefficients are those of `app/page.tsx:52-70`. None of them
  has a carbon term.
- `calculatePredictions` is a single pass from one input snapshot. There is no
  iterated, carbon-coupled fixed point. `Prediction.SinglePassIsNotFixedPoint`
  shows that applying the same change twice moves the other fields again.
- The `'none'` source (the chart path) gives raw regression outputs. They are
  not clamped.
- Carbon is never predicted or clamped on the page. A slider change carries
  carbon over unchanged.
- Every row of the shipped table stores a carbon value, and so does the default
  record. The derivation branch of `getCountryData` therefore never runs for
  the shipped table. To keep it meaningful, the lookup is also modelled over
  any table (`CountryData.GetCountryDataIn`).
- `handleCountrySelect` tests `if (countryName)`, so the empty string is
  ignored just like `null`.

## Model

| member | source | states |
|---|---|---|
| CountryData.GetCountryDataIn | lib/countryData.ts:192-215 | Total lookup. Unknown name gives exactly the default record. A stored record with carbon is returned unchanged. A record without carbon keeps its five primary fields and gets carbon max(0, 2772.8667 + 70.3028·LE + 0.0762·AQ − 1.2057·WQ − 281.6896·PG − 0.1628·GDP), never negative. Carbon is always present. |
| CountryData.TableOf | lib/countryData.ts:13-189 | The object literal as a map: every entry's key is present, and every present key maps to the record of one of its entries. |
| CountryData.LastEntryWins | lib/countryData.ts:13-189 | A key maps to the record of the last entry that has it: a later entry overrides an earlier one. |
| CountryData.EveryRowHasCarbon | lib/countryData.ts:13-189 | Every row of the table stores a carbon value. |
| CountryData.GetCountryData | lib/countryData.ts:192-215 | Total over all strings. A listed name yields its row unchanged, carbon included. Any other name yields {75, 50, 50, 2, 25000, carbon 5.0}. |
| CountryData.GetAvailableCountries | lib/countryData.ts:218-220 | Exactly the table's keys, as many as there are keys, each once, in strictly ascending order by Unicode scalar value, the same as code-unit order on the Basic Multilingual Plane. |
| CountryData.ListedCountriesHaveRecords | lib/countryData.ts:192-220 | Every listed name is a key, and the lookup returns its row, not the default. |
| CountryData.PrefixSortsFirst | lib/countryData.ts:219 | The sort order puts a proper prefix first ("Niger" before "Nigeria"). |
| JsString.SortedSeq | lib/countryData.ts:219 | Sorting a key set gives its elements, each once, in ascending `LexLeq` order. |
| JsString.LeastExists | lib/countryData.ts:219 | Every non-empty finite set of strings has a least element under the sort order. |
| JsString.LeastOfInsert | lib/countryData.ts:219 | When one string is added to a set, the old least element stays least, or else the added string is the new least. |
| JsString.LeastUnique | lib/countryData.ts:219 | A set of strings has at most one least element, so the sort's choice at each step is determined. |
| JsString.LexLeqReflexive | lib/countryData.ts:219 | The sort order is reflexive. |
| JsString.LexLeqTotal | lib/countryData.ts:219 | Any two strings are comparable. |
| JsString.LexLeqAntisymmetric | lib/countryData.ts:219 | Mutually ordered strings are equal. |
| JsString.LexLeqTransitive | lib/countryData.ts:219 | The sort order is transitive. |
| JsMath.Max | lib/countryData.ts:210 | `Math.max`: at least both arguments and equal to one of them. |
| JsMath.Min | app/page.tsx:42-46 | `Math.min`: at most both arguments and equal to one of them. |
| Prediction.Set | app/page.tsx:33-36 | `{...v, [id]: x}`: field `id` becomes `x`. The other four fields and carbon are unchanged. |
| Prediction.RegressionIgnoresOwnField | app/page.tsx:52-79 | The regression for a field never reads that field's prior value or the carbon value. |
| Prediction.CalculatePredictions | app/page.tsx:51-80 | The source field keeps its input value. Every other field is its regression on the same input. With `NoSource` (the chart path, line 86), all five are regression outputs, unclamped. The result has no carbon. |
| Prediction.ClampTo | app/page.tsx:42-46 | The result is always in the field's range. It is the identity on values already in range, and the nearer bound otherwise. |
| Prediction.SliderChange | app/page.tsx:31-49 | The moved field equals the given value exactly. Every other field equals the clamp of its regression on the updated vector and lies in its range. Carbon is carried over. |
| Prediction.SliderChangeInRange | app/page.tsx:42-46 | A value inside the slider's own range leaves all five fields in range. |
| Prediction.ClampIsIdentityInRange | app/page.tsx:42-46 | If every regression output is already in range, the stored values are exactly the predictions, with carbon carried over. |
| Prediction.SliderChangeIgnoresPrior | app/page.tsx:39-79 | A non-source field's new value does not depend on its own prior value. |
| Prediction.ScenarioLifeExpectancy80 | app/page.tsx:12-79 | From the initial values with life expectancy set to 80, the result is exactly (80, 0, 100, −2.1764, 3657.1064): air quality clamps to 0 and water quality to 100. |
| Prediction.ScenarioGdpAtUpperBound | app/page.tsx:12-79 | From the initial values with GDP set to 150000, GDP stays at 150000 and every other field lands on a bound: (100, 0, 100, −5). |
| Prediction.SinglePassIsNotFixedPoint | app/page.tsx:39-46 | Repeating the same change gives a different vector, so one change is one pass, not an iteration to a fixed point. |
| PageState.TableInRange | lib/countryData.ts:13-189 | Every row of the table is within the five slider ranges. |
| PageState.BaselinesInRange | lib/countryData.ts:13-200 | Every baseline the lookup can return is within the five slider ranges. |
| PageState.Home.constructor | app/page.tsx:10-18 | Initial state: {75, 50, 50, 2, 25000} with no carbon, no country selected, menu closed. |
| PageState.Home.HandleCountrySelect | app/page.tsx:20-29 | A truthy name sets the selected country, loads `getCountryData(name)` and opens the menu. `null` and "" change nothing. In-range slider values stay in range. |
| PageState.Home.HandleSliderChange | app/page.tsx:31-49 | The stored values become `SliderChange` of the old ones. Only `sliderValues` changes. The moved field holds the given value and carbon is kept. A slider-range value leaves every field in range. |
| JsString.TrimStart | lib/geminiService.ts:65 | Drops exactly the leading white space. The result is a suffix that does not start with white space. |
| JsString.TrimEnd | lib/geminiService.ts:65 | Drops exactly the trailing white space. The result is a prefix that does not end with white space. |
| JsString.Trim | lib/geminiService.ts:64-65 | `trim`: no longer than its input, and neither starts nor ends with white space. |
| JsString.TrimStartDropsWhiteSpace | lib/geminiService.ts:65 | Everything `TrimStart` removes is white space. |
| JsString.TrimEndDropsWhiteSpace | lib/geminiService.ts:65 | Everything `TrimEnd` removes is white space. |
| JsString.TrimIsInfix | lib/geminiService.ts:64-65 | `trim` keeps a contiguous piece of the input and removes only white space on either side. |
| JsString.TrimEmptyIff | app/api/gemini-chat/route.ts:42 | `trim` gives "" exactly when the input is empty or all white space. |
| JsString.Split | lib/geminiService.ts:63 | `split('\n')` gives at least one piece, and no piece contains the separator. |
| JsString.JoinSplit | lib/geminiService.ts:63 | Joining the pieces with the separator gives the original text back. |
| JsString.SplitLength | lib/geminiService.ts:63 | There is one piece more than there are separators. |
| JsString.IncludesIff | app/api/gemini-chat/route.ts:61-73 | `includes` holds exactly when the substring occurs at some position. The test is case-sensitive. |
| JsString.NotIncludesLonger | app/api/gemini-chat/route.ts:61-73 | A string never includes a longer one. |
| JsString.NotIncludesWithoutFirstChar | app/api/gemini-chat/route.ts:61-73 | A string lacking the substring's first character does not include it. |
| FactParser.Filter | lib/geminiService.ts:64-66 | `filter`: no longer than its input, and every kept element satisfies the predicate. |
| FactParser.Map | lib/geminiService.ts:65 | `map`: same length, and element `i` is `f` of input element `i`. |
| FactParser.FilterAppend | lib/geminiService.ts:64-66 | `filter` distributes over concatenation. |
| FactParser.MapAppend | lib/geminiService.ts:65 | `map` distributes over concatenation. |
| FactParser.LeadingDigits | lib/geminiService.ts:64-65 | The length of the maximal run of `\d` characters at the start. |
| FactParser.FactsOf | lib/geminiService.ts:62-66 | The chain yields at most one fact per line, and never an empty fact. |
| FactParser.ParseFacts | lib/geminiService.ts:62-66 | Every parsed fact is non-empty. There are at most as many facts as `'\n'`-separated lines. |
| FactParser.ChainCons | lib/geminiService.ts:64-66 | The `filter`/`map`/`filter` chain handles one element at a time. The first element contributes `f` of itself exactly when it passes both tests. |
| FactParser.Shift | lib/geminiService.ts:62-66 | Every position moves up by one. |
| FactParser.ConsPositions | lib/geminiService.ts:62-66 | After putting one line in front, every selected position still points at the line its fact came from. |
| FactParser.ConsIncreasing | lib/geminiService.ts:62-66 | After putting one line in front, the selected positions stay in increasing order. |
| FactParser.ConsMembers | lib/geminiService.ts:62-66 | After putting one line in front, exactly the qualifying positions are selected. |
| FactParser.SelectsCons | lib/geminiService.ts:62-66 | A selection extends by one line in front: positions shift by one, and position 0 is added when that line qualifies. |
| FactParser.ChainSelects | lib/geminiService.ts:64-66 | For any tests and mapping, the chain's output is a selection. It has increasing positions, exactly those of the elements that pass both tests, and output `i` is the mapping of the element at position `i`. |
| FactParser.ParseFactsSelection | lib/geminiService.ts:62-66 | The facts come from exactly the contributing lines, in line order. A line contributes only if its trimmed form starts with digits and a `.`, and only if its stripped fact is non-empty. |
| FactParser.TrimStartIdempotent | lib/geminiService.ts:65 | Trimming the start twice is the same as once. |
| FactParser.ToFactOfNumberedLine | lib/geminiService.ts:65 | A line beginning with "N." becomes the trimmed rest after the full stop. |
| FactParser.IndentedItemKeepsNumber | lib/geminiService.ts:64-65 | An indented item qualifies, but the prefix is stripped from the untrimmed line, so the fact is the trimmed line and keeps its "N.". |
| FactParser.BareNumberDropped | lib/geminiService.ts:65-66 | A line holding only "N." and white space contributes no fact. |
| FactParser.FirstFallback | lib/geminiService.ts:69 | The first canned sentence, which names the slider and the country, is non-empty. |
| FactParser.FallbackFacts | lib/geminiService.ts:68-87 | Exactly three sentences, each non-empty. |
| FactParser.GenerateSliderFacts | lib/geminiService.ts:62-87 | Never empty, and no element is empty. A thrown call, or a reply with no qualifying line, gives exactly the fallback sentences. Otherwise the result is the parsed facts. |
| ChatRoute.CatchResponse | app/api/gemini-chat/route.ts:50-85 | 401 "Invalid API key" / "The provided API key is invalid or expired" exactly for an `Error` whose message includes "API key" or "authentication". 429 "API quota exceeded" / "You have exceeded your API quota limit" exactly when the first group does not match and "quota" or "limit" does. 503 "Network error" / "Failed to connect to Gemini API" exactly when neither earlier group matches and "network" or "fetch" does. 500 "Failed to get response from AI" otherwise, with the message as details, or "Unknown error occurred" for a non-`Error`. |
| ChatRoute.Post | app/api/gemini-chat/route.ts:6-86 | A missing or empty key gives 500 "API key not configured", whatever the body or the model does. A body that throws goes to the catch clause, and so does a model call that throws. A falsy prompt gives 400 "Prompt is required". Text that is empty or only white space gives 500 "Empty response from AI". A reply succeeds exactly when key and prompt are truthy and the text is not all white space, and then it carries the text verbatim. The status is always 200, 400, 401, 429, 500 or 503. |
| ChatRoute.CaseSensitiveMatch | app/api/gemini-chat/route.ts:61-73 | "QUOTA" does not match "quota", so it gives 500, not 429. |

## Left out

- Number formatting (`toFixed`) and IEEE-754 rounding. All arithmetic is over `real`.
- React rendering, the world-map widget, toasts (the `toast` call in `handleCountrySelect`), the Plotly chart, `useEffect`/`setTimeout` scheduling and script loading. These are presentation. Only the chart's `calculatePredictions(values, 'none')` call is modelled, as `NoSource`.
- The text-model SDK calls, prompt templates and `console` logging. `generateCountryInsight` is a network call plus `trim`. The reply text and any thrown value are inputs.
- Environment-variable handling. The route receives the resolved API key as an input.
- JSON bodies whose `prompt` is not a string (a number or a boolean). The model takes `prompt` as an optional string.
- The full table of about 140 rows. Nine representative rows are modelled. The lookup and sorting properties hold for any table; `CountryData.EveryRowHasCarbon` and `PageState.TableInRange` are stated for the modelled rows only.
- JavaScript object-lookup quirks: prototype keys such as "constructor" in the table lookup or in `sliderNames`, and arbitrary `sliderId` strings in `handleSliderChange`. The page only passes the five slider ids, modelled as a closed enumeration.
- CountryData.GetAvailableCountries: orders by Unicode scalar value, while JavaScript compares UTF-16 code units. The two orders agree on characters of the Basic Multilingual Plane, which includes every name in the table.
- A multi-round, carbon-coupled fixed-point solver. The code has none.
