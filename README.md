# GreenGuardian decision rules, modelled in Dafny

GreenGuardian is a mobile web app. The user photographs a product, and the app shows
a sustainability score and a comparison with greener alternatives. This project models
the app's decision logic:

- **Score badge** (`SustainabilityScore`). A 0-100 score is drawn as a coloured disc
  with a word label. The colour and the label are chosen by the same thresholds
  (80, 60, 40, 20). A size keyword chooses the disc's classes. `showLabel` defaults to
  true.
- **Product card** (`ProductCard`). The price line has a sentinel for a missing price.
  The leaf badge appears from a score of 80. When a product image fails to load, the
  `<img>` element falls back to a picture chosen by category. That element is a class
  whose `src` the handler updates, modelled both as written and as intended.
- **Comparison page** (`ProductComparison`). It shows four fixed metrics. The
  alternative's values depend only on whether an alternative is selected and whether
  its score is above 80. The selection is a class field. A default-selection effect and
  thumbnail taps change it.
- **Analyze-product handler** (`AnalyzeProduct`). This serverless function answers
  CORS preflight, checks the API key and the image, and turns the image into a data
  URI. It then asks Groq's chat-completion endpoint to read the product. The answer is
  wrapped as `{result}`, or as `{error}` with status 500. The function is modelled as
  `Handle(env, request, upstream)`. The environment variables, the parsed request body
  and the result of the `fetch` are all inputs. The returned `Trace` also records
  whether the body was read and which request was sent upstream.
- **JavaScript semantics** (`JsRuntime`). Truthiness, property access on parsed JSON,
  `startsWith`, and the string that a template literal makes of a value.

The code has no ingredient extraction, no scoring pipeline, no repair of LLM JSON
output and no metric normalisation. The comparison metrics are constants chosen by a
score threshold.

## Model

| member | source | states |
|---|---|---|
| `JsRuntime.Prop` | supabase/functions/analyze-product/index.ts:71 | a named property of parsed JSON is found exactly when the value is an object with that own key |
| `JsRuntime.Elem0` | supabase/functions/analyze-product/index.ts:71 | `x[0]` exists exactly for a non-empty array, a non-empty string, or an object with key "0"; numbers and booleans give undefined |
| `JsRuntime.NatToDecimal` | supabase/functions/analyze-product/index.ts:66 | the printed status is a non-empty run of decimal digits with no leading zero |
| `JsRuntime.DecimalRoundTrip` | supabase/functions/analyze-product/index.ts:66 | reading back a printed status gives the status |
| `JsRuntime.DecimalInjective` | supabase/functions/analyze-product/index.ts:66 | different statuses print differently |
| `JsRuntime.TemplateString` | supabase/functions/analyze-product/index.ts:66 | `${v}` has a string form exactly when no object reachable through arrays has an own `toString` key; otherwise it throws "Cannot convert object to primitive value" |
| `JsRuntime.TemplateStringOfScalars` | supabase/functions/analyze-product/index.ts:66 | a string message is inserted unchanged; a safe whole-number message is inserted as its decimal digits, after a "-" when it is negative |
| `SustainabilityScore.ReachedMonotone` | src/components/SustainabilityScore.tsx:16-22 | a higher score reaches at least as many thresholds |
| `SustainabilityScore.BandOfThresholds` | src/components/SustainabilityScore.tsx:16-22 | the bands are exactly [80,∞), [60,80), [40,60), [20,40) and (-∞,20) |
| `SustainabilityScore.BandMonotone` | src/components/SustainabilityScore.tsx:16-22 | banding is monotone: s1 ≤ s2 implies band(s1) ≤ band(s2) |
| `SustainabilityScore.Rank` | src/components/SustainabilityScore.tsx:16-22 | each band has one position in the worst-to-best order |
| `SustainabilityScore.GetColor` | src/components/SustainabilityScore.tsx:16-22 | the colour is one of the five classes |
| `SustainabilityScore.Label` | src/components/SustainabilityScore.tsx:51-54 | the label is one of Excellent, Good, Average, Poor, Bad |
| `SustainabilityScore.GetColorIsBandColor` | src/components/SustainabilityScore.tsx:16-22 | `getColor` gives the colour of the score's band: green-500, green-400, yellow-500, orange-500, red-500 from best to worst |
| `SustainabilityScore.LabelIsBandLabel` | src/components/SustainabilityScore.tsx:51-54 | the label is the score's band label, using the same thresholds as the colour |
| `SustainabilityScore.BandNamesDistinct` | src/components/SustainabilityScore.tsx:16-54 | different bands get different colours and different labels |
| `SustainabilityScore.ColorAndLabelAgree` | src/components/SustainabilityScore.tsx:16-54 | the colour and the label always agree, in both directions (green-500 iff Excellent, and so on) |
| `SustainabilityScore.GetSizeClasses` | src/components/SustainabilityScore.tsx:25-31 | 'sm' gets `w-10 h-10`/`text-xs`, 'lg' gets `w-20 h-20`/`text-xl`, every other keyword `w-14 h-14`/`text-sm` |
| `SustainabilityScore.UnknownSizeIsDefault` | src/components/SustainabilityScore.tsx:25-31 | any keyword other than 'sm' and 'lg' is drawn like the default 'md' (`w-14 h-14`, `text-sm`) |
| `SustainabilityScore.DeclaredSizesDistinct` | src/components/SustainabilityScore.tsx:25-31 | 'sm', 'md' and 'lg' are drawn differently |
| `SustainabilityScore.Render` | src/components/SustainabilityScore.tsx:10-56 | the label is drawn iff `showLabel` is not false (default true) and is the band's label; the colour is the band's colour; a given size picks its classes, and the size defaults to 'md' |
| `ProductCard.DisplayPrice` | src/components/ProductCard.tsx:48-50 | never empty; equal to the price iff the price is neither empty nor "Not Available"; otherwise "Price not available" |
| `ProductCard.DisplayPriceIdempotent` | src/components/ProductCard.tsx:48-50 | formatting a formatted price changes nothing |
| `ProductCard.FallbackImage` | src/components/ProductCard.tsx:32-44 | a mapped category (Food, Drinkware, Cleaning, Cosmetics) gets its picture; an absent or unmapped one gets the generic picture; the result is always one of the five non-empty URLs |
| `ProductCard.FallbackSrcAsWritten` | src/components/ProductCard.tsx:32-44 | the handler's lookup as written: an object index, so names inherited from `Object.prototype` are found |
| `ProductCard.ConstructorCategoryCounterexample` | src/components/ProductCard.tsx:40 | as written, category "constructor" makes `src` the text of a native function, not the generic picture |
| `ProductCard.AsWrittenAgreesOffPrototype` | src/components/ProductCard.tsx:40 | for every category that is not an inherited name, the code as written and the table reading agree |
| `ProductCard.AsWrittenDisagreesOnInheritedKeys` | src/components/ProductCard.tsx:40 | every inherited name escapes the table as written |
| `ProductCard.ShowsLeafBadge` | src/components/ProductCard.tsx:63 | the leaf badge shows exactly for the scores the badge component calls Excellent (80 and up) |
| `ProductCard.CardImageAsWritten.constructor` | src/components/ProductCard.tsx:56-61 | the rendered image starts with the product's image; its `onerror` property is not set, the handler being a React listener |
| `ProductCard.CardImageAsWritten.LoadError` | src/components/ProductCard.tsx:27-45 | as written, every load error runs the handler again and leaves `src` at the fallback the code computes |
| `ProductCard.FallbackFailsAsWritten` | src/components/ProductCard.tsx:29 | as written, a failing fallback picture makes the handler run a second time |
| `ProductCard.CardImage.constructor` | src/components/ProductCard.tsx:56-61 | in the intended model, the rendered image starts with the product's image and the error handler installed |
| `ProductCard.CardImage.HandleImageError` | src/components/ProductCard.tsx:27-45 | the handler detaches itself and sets `src` to the category's fallback, which is never empty |
| `ProductCard.CardImage.LoadError` | src/components/ProductCard.tsx:29 | in the intended model, a load error applies the fallback only while the handler is attached, so it runs at most once and `src` then stays put |
| `ProductCard.FallbackFails` | src/components/ProductCard.tsx:29 | in the intended model, a failing fallback picture leaves the handler's single run and the fallback in place |
| `ProductComparison.ComparisonMetrics` | src/pages/ProductComparison.tsx:67-96 | exactly four metrics in order, with fixed names, units and original values (40/45/50/30); all values lie in [0,100]; alternative values are 0 with no selection, 85/88/90/95 above 80 and 65/70/75/80 otherwise, each strictly above the original when an alternative is selected |
| `ProductComparison.OriginalsIgnoreSelection` | src/pages/ProductComparison.tsx:71-92 | the original's values do not depend on the selection |
| `ProductComparison.MetricsDependOnlyOnPremium` | src/pages/ProductComparison.tsx:72-93 | two alternatives on the same side of the strict 80 threshold give identical metrics |
| `ProductComparison.MetricsMonotone` | src/pages/ProductComparison.tsx:72-93 | a better-scored alternative never shows a lower value |
| `ProductComparison.IsPremium` | src/pages/ProductComparison.tsx:72 | an alternative is premium exactly when its score is Excellent and not exactly 80 |
| `ProductComparison.ComparisonPage.IsLoading` | src/pages/ProductComparison.tsx:113-115 | the page shows "Loading comparison..." exactly while no thumbnail is ringed |
| `ProductComparison.ComparisonPage.IsHighlighted` | src/pages/ProductComparison.tsx:186 | a ringed thumbnail means something is selected, and on a valid page it has the id of one of the alternatives |
| `ProductComparison.LeafBadgeVersusPremium` | src/pages/ProductComparison.tsx:72 | premium (> 80) implies the card's leaf badge (≥ 80); they disagree exactly at score 80 |
| `ProductComparison.DefaultSelection` | src/pages/ProductComparison.tsx:60-64 | an existing selection is kept; with nothing selected, the first alternative is chosen; the result is set iff something was selected or the list is non-empty |
| `ProductComparison.DefaultSelectionSettles` | src/pages/ProductComparison.tsx:60-64 | running the effect again changes nothing |
| `ProductComparison.ComparisonPage.constructor` | src/pages/ProductComparison.tsx:55-57 | the page starts with nothing selected |
| `ProductComparison.ComparisonPage.SelectDefault` | src/pages/ProductComparison.tsx:60-64 | the effect updates the selection as `DefaultSelection` does, and the selection stays one of the alternatives |
| `ProductComparison.ComparisonPage.SelectThumbnail` | src/pages/ProductComparison.tsx:177-184 | tapping a thumbnail selects exactly that alternative, and the selection stays one of the alternatives |
| `ProductComparison.ComparisonPage.ChooseAlternative` | src/pages/ProductComparison.tsx:98-111 | no effect when nothing is selected; otherwise the "Great choice!" toast and navigation home |
| `ProductComparison.ComparisonPage.Metrics` | src/pages/ProductComparison.tsx:67-96 | once the page has left "Loading comparison...", every alternative value beats the original |
| `ProductComparison.MountPage` | src/pages/ProductComparison.tsx:57-64 | after the first render and its effect, the page is loading iff there are no alternatives; otherwise the first alternative is selected and its thumbnail ringed |
| `ProductComparison.SampleComparison` | src/pages/ProductComparison.tsx:21-40 | with the sample data the page opens on the 92-point bottle with the premium values; the 78-point bottle shows the standard values |
| `AnalyzeProduct.ApiKey` | supabase/functions/analyze-product/index.ts:6 | `GROQ_API_KEY` when set and non-empty, else `groq`; a usable key exists iff either variable is non-empty |
| `AnalyzeProduct.FormatImage` | supabase/functions/analyze-product/index.ts:32-34 | the result always starts with "data:"; a data URI is kept; anything else gets the base64 JPEG prefix |
| `AnalyzeProduct.FormatImageIdempotent` | supabase/functions/analyze-product/index.ts:32-34 | formatting is idempotent and keeps the caller's image as its tail |
| `AnalyzeProduct.BuildChatRequest` | supabase/functions/analyze-product/index.ts:40-61 | the request carries the key, model, token limit and system prompt, and ends its user prompt with the formatted image |
| `AnalyzeProduct.ErrorDetail` | supabase/functions/analyze-product/index.ts:66 | `error?.message` is found exactly when the body is an object whose `error` is an object with an own `message`, and is that value |
| `AnalyzeProduct.UpstreamErrorMessage` | supabase/functions/analyze-product/index.ts:63-67 | an unparsable error body gives the parser's message and a null one the engine's TypeError; otherwise the message is "Groq API error: " followed by the printed `error.message` when that is truthy and printable, by "HTTP status N" when it is falsy or absent, and is the TypeError "Cannot convert object to primitive value" when it cannot be printed; the prefix appears iff `error.message` is absent or printable |
| `AnalyzeProduct.UnprintableErrorMessage` | supabase/functions/analyze-product/index.ts:66 | the error body `{"error":{"message":{"toString":1}}}` fails with the TypeError, not the Groq prefix |
| `AnalyzeProduct.UpstreamErrorMessageShape` | supabase/functions/analyze-product/index.ts:66 | the message is the prefix plus `error.message` when that is a non-empty string, and the prefix plus "HTTP status N" when there is no truthy message |
| `AnalyzeProduct.StatusMessagesDistinct` | supabase/functions/analyze-product/index.ts:66 | without an `error.message`, different statuses give different messages |
| `AnalyzeProduct.ChoiceContent` | supabase/functions/analyze-product/index.ts:69-76 | an unparsable body gives the parser's message; the result is content iff the body parsed and has a truthy `choices[0].message`, and that content is the message's own `content` (undefined when it has none); every other parsed body gives "Invalid response format from Groq API" |
| `AnalyzeProduct.HasMessage` | supabase/functions/analyze-product/index.ts:71 | an accepted body is an object whose `choices` is a non-empty array or an object with key "0", and whose first choice is an object with a truthy `message` |
| `AnalyzeProduct.WellFormedCompletion` | supabase/functions/analyze-product/index.ts:71-76 | a completion with any other keys beside `choices`, `message` and `content` yields exactly its first choice's message content, or undefined without a `content` key |
| `AnalyzeProduct.UpstreamOutcome` | supabase/functions/analyze-product/index.ts:63-76 | a rejected fetch fails with its message; a status outside 200-299 fails with the upstream error message (the Groq prefix exactly when the read body's `error.message` is printable); a 200-299 status yields the completion's content |
| `AnalyzeProduct.Analyze` | supabase/functions/analyze-product/index.ts:19-76 | a missing key fails before the body is read; then, in order: the parse error, the null-destructure TypeError, "No image provided" for a falsy image, the `startsWith` TypeError for a non-string one, and otherwise the Groq request for the formatted image is sent and its outcome returned |
| `AnalyzeProduct.Respond` | supabase/functions/analyze-product/index.ts:79-88 | status 500 iff failure, with `{error}`; success is `{result}` with the default status; JSON and CORS headers either way |
| `AnalyzeProduct.Handle` | supabase/functions/analyze-product/index.ts:13-89 | the status is 200 or 500; the CORS headers are always present; 500 iff an error envelope; OPTIONS gets the preflight answer with nothing read or sent |
| `AnalyzeProduct.PreflightFirst` | supabase/functions/analyze-product/index.ts:15-17 | OPTIONS is answered with an empty body and the CORS headers, whatever the key, body or upstream |
| `AnalyzeProduct.MissingKeyFailsEarly` | supabase/functions/analyze-product/index.ts:20-23 | with neither variable set, the answer is the 500 key error, the body is not read, and nothing is sent |
| `AnalyzeProduct.MissingImageFails` | supabase/functions/analyze-product/index.ts:25-29 | a body whose `image` is missing or falsy gets "No image provided" and nothing is sent |
| `AnalyzeProduct.SentRequestCarriesImage` | supabase/functions/analyze-product/index.ts:25-61 | anything sent carries the configured key and the body's non-empty string image, formatted as a data URI |
| `AnalyzeProduct.ImageIsSent` | supabase/functions/analyze-product/index.ts:25-61 | with a usable key and a non-empty string image, the chat request for that image is always sent and the answer is what the upstream call yields |
| `AnalyzeProduct.NonStringImageFails` | supabase/functions/analyze-product/index.ts:32 | a truthy non-string `image` fails with the `startsWith` TypeError, and nothing is sent |
| `AnalyzeProduct.SuccessExactly` | supabase/functions/analyze-product/index.ts:63-81 | the answer is `{result}` (status 200) iff a request was sent and the upstream answered with a 200-299 status and a truthy `choices[0].message`; the result is then that message's `content` |
| `AnalyzeProduct.UpstreamErrorReported` | supabase/functions/analyze-product/index.ts:63-67 | a non-ok upstream answer with a readable body becomes a 500; its error starts with "Groq API error: " iff `error.message` is absent or printable, and is the TypeError otherwise |

## Findings

| source | as written | input that shows it | evidently intended | confidence | as-written member | corrected member |
|---|---|---|---|---|---|---|
| src/components/ProductCard.tsx:29 | the handler is attached through React's `onError` prop, so `target.onerror = null` clears a slot that was never set and the handler stays attached | the product image fails, then the fallback picture fails too: the handler runs again and reloads the same picture, without bound while it keeps failing | the handler runs at most once | medium, not executed | `ProductCard.FallbackFailsAsWritten` | `ProductCard.FallbackFails` |
| src/components/ProductCard.tsx:40 | `categoryMappings[product.category] \|\| generic` indexes a plain object, so names inherited from `Object.prototype` are found and are truthy | category "constructor": `src` becomes "function Object() { [native code] }" (and "[object Object]" for "__proto__") | an unmapped category falls back to the generic picture | medium, not executed | `ProductCard.ConstructorCategoryCounterexample` | `ProductCard.FallbackImage`, `ProductCard.CardImage.HandleImageError` |

The rest of the model uses `FallbackImage`, which reads the table by own keys only.
`CardImage.HandleImageError` is built on it. `CardImageAsWritten` keeps both behaviours
as written: the listener stays attached, and the picture comes from `FallbackSrcAsWritten`.

## Left out

- Scores are exact reals. `NaN` and the infinities are not modelled. With `NaN` every
  comparison is false, so the badge would be red and "Bad".
- The disc's opacity (`score / 100`) is floating-point presentation.
- JSON numbers are safe whole numbers, at most 2^53 - 1 in magnitude. Fractional,
  exponent and larger forms are not modelled, because reading and printing them needs
  JavaScript's float rounding and formatting (1e21 and up print as `1e+21`).
- `Deno.env.get`, `req.json()`, `fetch`, `response.json()` and `serve` are not modelled
  as calls. Their results are the inputs `Env`, `JsonOutcome` and `Upstream`. The
  `console` logging is left out.
- The engine's TypeError wordings (`DestructureNullMessage`, `StartsWithMessage`,
  `ReadErrorOfNullMessage`, `NoPrimitiveMessage`) are constants. Only where these errors occur is modelled.
- `CardImage.LoadError`: "runs at most once" holds of the intended model only, where
  clearing the handler detaches it. The card as written is `CardImageAsWritten`. How
  React dispatches events, and the browser's reloading of an unchanged `src`, are not
  modelled beyond "each load error runs the listener".
- `ComparisonPage.ChooseAlternative`: the toast and the two-second navigation are
  returned as a value. Timers and toast display are not modelled.
- JSX rendering is not modelled except for the decisions above: which label, colour and
  classes to use, the loading state, and the thumbnail ring (`IsHighlighted`).
- src/pages/Camera.tsx is not part of this model. It reads files, uses hidden inputs
  and simulates an analysis with a timer.
- src/pages/Home.tsx is not part of this model. It holds sample data and a
  floating-point carbon total.
- src/pages/Profile.tsx and tailwind.config.ts are not part of this model. They hold
  fixed display data and styling.
- ComparisonMetric, Navigation, Layout, Logo and AnimatedTransition are not part of this
  model. They only render.
- SustainableAlternative is not part of this model. Its only rule is the same
  ≥ 80 badge as `ShowsLeafBadge`.
- Product fields the logic never reads (`tags`, `description`, `ingredients`) are not
  modelled.
