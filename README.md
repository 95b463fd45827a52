# Bid pipeline: guardrail, lab fees, integrity index and run orchestration

This project models the deterministic core of a four-stage bid pipeline written in TypeScript:
- identification of a tender (free-text analysis, or a scan of canned portal tenders under a 90-day deadline rule);
- matching of its requirements onto a paint catalog;
- pricing;
- drafting of a reply e-mail.

Each stage wraps a call to a text-inference provider. The model does not model the provider. Each stage receives the provider's reply as an arbitrary value (`Gateway.Reply`: an answer, an empty text, or a thrown error), and everything the code does with that reply is modelled:

- **ProductMatching**: the vague-input guardrail. It consists of:
  - the keyword predicate and the length-under-30 test, with the length counted in UTF-16 code units as JavaScript does;
  - the score cap at 55 and the FLAGGED reasoning;
  - the stable sort by rank, in place on an array;
  - confidence set to score/100;
  - the top-level fields taken from rank 1;
  - the per-item log lines.
- **Pricing**: the mapping of the provider's line items. It adds the fixed QA lab fees per catalog category of each match's top-level product. The total is the provider's total plus the fees. Any failure degrades to an empty, zero-total result.
- **ProductDatabase**: the ten-product catalog the fee rules read.
- **Integrity**: the integrity index, `round(0.4 * average top score + 0.3 * 95 + 0.3 * 90)` over the items with recommendations, computed exactly. It drives two gates: the PASSED badge (index above 85) and the send button (disabled below 70).
- **RfpIdentification**: the contact-e-mail fallback of `analyze` and the deadline screen and selection loop of `scanUrl`.
- **ResponseGenerator**: the empty-draft failure of the writer stage.
- **Orchestrator**: the `App` component as a class whose fields are its React state:
  - `handleRun` resets the results, runs the stages in order (each fed the previous output), stops at the first throw with one SYSTEM error line, and always clears `isProcessing`;
  - `handleSendEmail` does nothing without an analysis.
- **Logging**: the log stream as a `LogSink` class to which every agent `log` call appends exactly one entry.

Stateful code is modelled imperatively: the log sink, the App's fields, the in-place sort, and the fee, screening and logging loops. Each such method is proved equal to a specification function, such as `Validate`, `MatchLog`, `Calculation`, `ScanLog` or `Pipeline`. The properties are proved as lemmas about those functions.

Where the code and its documented intent differ, the model follows the code:
- lab fees are charged only for a match's top-level (rank-1) product, never for the alternatives;
- the final total is the provider's `total_cost` plus the fees, and is not recomputed from the line items (`Pricing.CalculationAddsUp` states exactly when the two agree);
- the 15% volume discount and the service price anchors exist only as prompt text, so no code applies them;
- `handleSendEmail` itself does not check the index: only the disabled button (`Orchestrator.App.CanSend`) does.

## Model

| member | source | states |
|---|---|---|
| Text.ToLower | agents/ProductMatchingAgent.ts:83 | `toLowerCase`: same length, each ASCII capital lowered, every other character kept |
| Text.Prefix | agents/ProductMatchingAgent.ts:133 | `substring(0, n)`: exactly min(n, length) characters, and a prefix of the text |
| Text.ToLowerIdempotent | agents/ProductMatchingAgent.ts:83 | lower-casing twice is lower-casing once |
| Text.ToLowerAppend | agents/ProductMatchingAgent.ts:83 | lower-casing distributes over concatenation |
| Text.Utf16LengthAppend | agents/ProductMatchingAgent.ts:97 | the `length` in code units of a concatenation is the sum of the parts' lengths |
| Text.Utf16LengthBounds | agents/ProductMatchingAgent.ts:97 | a text's `length` is between its number of characters and twice that, and equals it when every character lies in the Basic Multilingual Plane |
| Text.ToLowerKeepsUtf16Length | agents/ProductMatchingAgent.ts:83-97 | lower-casing keeps the `length` in code units |
| Logging.LogSink.constructor | App.tsx:113 | the log starts empty |
| Logging.LogSink.Log | agents/BaseAgent.ts:12-22 | one `log` call appends exactly one entry with the agent, message and kind, and changes nothing else |
| Logging.LogSink.Clear | App.tsx:127 | `setLogs([])` empties the log |
| ProductDatabase.FindIn | agents/PricingAgent.ts:97 | `find`: a hit is the first product carrying the id; there is no hit exactly when no product carries it |
| ProductDatabase.CatalogIdsAreUnique | data/product_database.ts:4-13 | ten products with ids AP-001 to AP-010 in order, pairwise distinct |
| ProductDatabase.FindResolvesCatalogIds | data/product_database.ts:4-13 | looking up an id succeeds exactly for the ten catalog ids, and yields the product carrying that id |
| ProductDatabase.CategoriesOfCatalog | data/product_database.ts:4-13 | the Exterior products are exactly AP-002, AP-004 and AP-010; the Interior ones exactly AP-001, AP-005 and AP-009 |
| ProductDatabase.NoIndustrialOrFloorProduct | data/product_database.ts:4-13 | no product is Industrial and no lower-cased name contains "floor" |
| ProductDatabase.PricesArePositive | data/product_database.ts:4-13 | every unit price is positive |
| ProductMatching.VaguenessIgnoresCase | agents/ProductMatchingAgent.ts:83-97 | vagueness and the guardrail give the same answer for a requirement and its lower-cased form |
| ProductMatching.SpecificTermAnywhereClears | agents/ProductMatchingAgent.ts:88-97 | a requirement holding emulsion, primer, enamel or proof in any case, anywhere, is not vague, and then the guardrail fires exactly when it is under 30 code units and has recommendations |
| ProductMatching.FewCharactersAreShort | agents/ProductMatchingAgent.ts:97 | a requirement of fewer than 15 characters is under 30 code units, whatever its characters |
| ProductMatching.EmojiCountsTwice | agents/ProductMatchingAgent.ts:97 | a 29-character requirement naming emulsion and ending in an emoji is 30 code units long, so the guardrail does not fire |
| ProductMatching.Cap | agents/ProductMatchingAgent.ts:101-106 | a flagged recommendation's score is min(score, 55), never raised; confidence becomes 0.55 and reasoning the FLAGGED text; rank, id and name are kept |
| ProductMatching.CapAll | agents/ProductMatchingAgent.ts:101-106 | the `map` caps every recommendation, one for one and in order |
| ProductMatching.SortByRankPermutes | agents/ProductMatchingAgent.ts:110 | the sort by rank is a permutation of its input and is ordered by ascending rank |
| ProductMatching.SortByRankIsStable | agents/ProductMatchingAgent.ts:110 | recommendations of equal rank keep their relative order |
| ProductMatching.InsertInPlace | agents/ProductMatchingAgent.ts:110 | one insertion step on the array places `a[i]` into the sorted prefix and leaves the rest of the array untouched |
| ProductMatching.SortInPlace | agents/ProductMatchingAgent.ts:110 | sorting the array in place leaves exactly the stable sort by rank of its old contents |
| ProductMatching.WithConfidence | agents/ProductMatchingAgent.ts:116-119 | confidence becomes score/100 and no other field changes |
| ProductMatching.Finalize | agents/ProductMatchingAgent.ts:116-119 | every recommendation gets confidence score/100, one for one and in order |
| ProductMatching.FinalizeCommutesWithSort | agents/ProductMatchingAgent.ts:110-119 | setting confidences after the sort gives the same list as setting them before it |
| ProductMatching.ValidateSortsExpected | agents/ProductMatchingAgent.ts:82-126 | an item's output recommendations are its (possibly capped) inputs, stably sorted by rank, as many as in the reply, each with confidence score/100; requirement and quantity are copied |
| ProductMatching.GuardrailCapsEveryRecommendation | agents/ProductMatchingAgent.ts:97-119 | when the guardrail fires, every output score is at most 55 and equals min(original, 55) of some input with the same rank and id, and every reasoning is the FLAGGED text; the 0.55 confidence ends as score/100 |
| ProductMatching.NoGuardrailKeepsScores | agents/ProductMatchingAgent.ts:97-119 | when it does not fire, the outputs are the inputs, unchanged except for confidence, up to order |
| ProductMatching.HeadOfStableSort | agents/ProductMatchingAgent.ts:110-111 | the head of a stable rank sort is the earliest input of least rank |
| ProductMatching.TopFieldsMirrorRankOne | agents/ProductMatchingAgent.ts:111-124 | the top-level id, name, score and reasoning are the first sorted recommendation's, with confidence score/100; that recommendation is the earliest of least rank; with no recommendations confidence is 0 and the rest absent |
| ProductMatching.AssembleMirrorsHead | agents/ProductMatchingAgent.ts:113-125 | the returned item takes its top-level fields from the head of its final recommendations, or leaves them absent when there are none |
| ProductMatching.GuardrailLog | agents/ProductMatchingAgent.ts:98 | the mapping logs only warnings of the matching agent, at most one per item |
| ProductMatching.GuardrailLogOfOne | agents/ProductMatchingAgent.ts:97-98 | an item logs the guardrail warning exactly when the guardrail fires on it |
| ProductMatching.ItemLog | agents/ProductMatchingAgent.ts:129-140 | one line per matched item, in order |
| ProductMatching.ItemLogSeverity | agents/ProductMatchingAgent.ts:130-139 | an item's line is info iff it has no recommendations, warning iff it has some and its top score (missing as 0) is under 60, success iff 60 or more |
| ProductMatching.TriggeredItemLogsWarning | agents/ProductMatchingAgent.ts:97-136 | an item on which the guardrail fired is always logged as a low-confidence warning |
| ProductMatching.MatchedItems | agents/ProductMatchingAgent.ts:82 | the `map` yields one item per provider item |
| ProductMatching.MatchedItemsAt | agents/ProductMatchingAgent.ts:82-126 | item i of the result is provider item i, validated |
| ProductMatching.MatchLogShape | agents/ProductMatchingAgent.ts:14-147 | every line is the matching agent's; matching fails iff the reply is not an answer, and then it logs the start line and one error; otherwise at least one line per item follows the start |
| ProductMatching.ValidateOne | agents/ProductMatchingAgent.ts:82-126 | the guardrail, the in-place sort and the mapping for one item produce the validated item and log its guardrail warning |
| ProductMatching.ValidateAll | agents/ProductMatchingAgent.ts:82-126 | the `map` over the reply produces the validated items in order and logs the guardrail warnings as they arise |
| ProductMatching.LogItems | agents/ProductMatchingAgent.ts:129-140 | the `forEach` appends exactly the per-item lines |
| ProductMatching.Match | agents/ProductMatchingAgent.ts:14-147 | `match` after the provider call: it returns the validated items, or fails on an empty or throwing reply, and appends exactly the match log |
| ProductMatching.SpecificRequirementKeepsScore | agents/ProductMatchingAgent.ts:83-97 | a long requirement naming "proof" does not fire the guardrail: a score of 90 passes through and logs success |
| ProductMatching.SomePaintIsCapped | agents/ProductMatchingAgent.ts:83-106 | "some paint" is short and vague: every score is capped at 55, one guardrail warning is logged, and the item logs a warning |
| Pricing.MapLineItem | agents/PricingAgent.ts:84-90 | description, quantity and unit price are copied, `total_price` becomes the total, and the note is the discount when present and non-empty, else the pricing logic |
| Pricing.MapItems | agents/PricingAgent.ts:84-90 | the provider's items map one to one and in order |
| Pricing.MappedTotalsAgree | agents/PricingAgent.ts:84-90 | the mapped items' totals sum to the provider's `total_price` values |
| Pricing.FeeLine | agents/PricingAgent.ts:101-141 | a fee line has quantity 1, unit price equal to its total, and a description starting "QA Lab:" |
| Pricing.MatchFees | agents/PricingAgent.ts:96-98 | a match adds that catalog product's fees exactly when its top-level id is set, non-empty and found in the catalog, and no fees otherwise |
| Pricing.ResolvedMatchFees | agents/PricingAgent.ts:96-132 | a match whose id is a catalog id resolves to the product with that id and adds the UV and Algal tests if it is Exterior, the Washability and VOC tests if it is Interior, nothing otherwise |
| Pricing.ProductFeesAreFeeLines | agents/PricingAgent.ts:100-142 | every fee a product adds is one unit of 100, 150, 200, 250 or 300, described "QA Lab: ..." |
| Pricing.LabFeesAreFeeLines | agents/PricingAgent.ts:95-145 | over any list of matches, every collected lab fee is such a fee line |
| Pricing.ProductFeesByCategory | agents/PricingAgent.ts:100-142 | Exterior adds UV 150 then Algal 200, Interior Washability 100 then VOC 300, Industrial or a "floor" name one Abrasion 250; the rules are independent, so counts and sums add up |
| Pricing.NoFeeWithoutCatalogProduct | agents/PricingAgent.ts:96-98 | no fee for a match without a product id, with an empty one, or with an id the catalog does not know |
| Pricing.CatalogProductFees | agents/PricingAgent.ts:100-142 | against this catalog an Exterior product adds exactly UV and Algal, an Interior one exactly Washability and VOC, any other nothing; the abrasion rule never fires |
| Pricing.NoAbrasionFeeAgainstCatalog | agents/PricingAgent.ts:134-142 | so every lab fee collected against this catalog is 100, 150, 200 or 300 |
| Pricing.ExteriorMatchAddsTwoFees | agents/PricingAgent.ts:100-115 | a match on AP-002 adds the UV and Algal tests for "Apex Ultima Protek", 350 in all |
| Pricing.CalculationAddsUp | agents/PricingAgent.ts:151-166 | the result is the mapped items followed by the lab fees; its total equals its line items' sum exactly when the provider's total equals its own items' sum; a failed reply gives no items and total 0 |
| Pricing.PricingLogShape | agents/PricingAgent.ts:15-166 | one start line; for an answer, the fee-count line exactly when there are fees, then a success line; otherwise one error line; all the pricing agent's |
| Pricing.PushProductFees | agents/PricingAgent.ts:100-142 | the three rules append exactly the product's fees |
| Pricing.PushMatchFees | agents/PricingAgent.ts:96-98 | one iteration of the `forEach` appends exactly the match's fees |
| Pricing.CollectLabFees | agents/PricingAgent.ts:93-145 | the loop collects each match's fees in match order |
| Pricing.Calculate | agents/PricingAgent.ts:14-167 | `calculate` after the provider call: it returns the calculation and appends exactly the pricing log, and never fails |
| Integrity.Round | App.tsx:200 | `Math.round`: the integer r with r <= x + 1/2 < r + 1 |
| Integrity.ProductMatches | App.tsx:187 | the filter keeps exactly the items with recommendations, and no more items than it was given |
| Integrity.ProductMatchesCounts | App.tsx:187 | each item with recommendations is kept as often as it occurs, every other item is dropped |
| Integrity.ProductMatchesAppend | App.tsx:187 | the filter distributes over concatenation, so the kept items stay in their order |
| Integrity.NoProductMatchMeansZero | App.tsx:184-189 | with no matches, an empty list or no item with recommendations the index is 0: not passed, and sending blocked |
| Integrity.WeightedSum | App.tsx:198 | the weighted formula plus 1/2 equals 2S/5n + 56 exactly |
| Integrity.ClosedForm | App.tsx:183-201 | the index is 56 + floor(2S / 5n), with S the sum of the top scores (missing as 0) of the n items with recommendations |
| Integrity.IndexRange | App.tsx:191-200 | with top scores within 0..100 the index lies in 56..96 |
| Integrity.PassedIff | App.tsx:460 | the PASSED badge shows exactly when the qualifying items average at least 75 |
| Integrity.SendBlockedIff | App.tsx:507 | sending is blocked exactly when the qualifying items average below 35 |
| Integrity.ReviewBand | App.tsx:507-514 | one item scored 50 gives 76: not passed, yet sendable, so the two thresholds differ |
| Integrity.IndexMonotone | App.tsx:191-200 | raising top scores, with the same items qualifying, never lowers the index |
| Integrity.ServicesDoNotCount | App.tsx:187-191 | appending a service line (no recommendations) does not change the index |
| RfpIdentification.WithContactFallback | agents/RFPIdentificationAgent.ts:51-53 | an empty e-mail becomes procurement@client.com; a non-empty one and every other field are kept |
| RfpIdentification.Analyze | agents/RFPIdentificationAgent.ts:13-63 | `analyze` after the provider call: it fails on an empty or throwing reply, otherwise returns the reply with the e-mail fallback applied, and appends exactly its log |
| RfpIdentification.AnalyzeOutcome | agents/RFPIdentificationAgent.ts:45-62 | it succeeds iff the reply is an answer, then with a non-empty e-mail and the reply's client and requirements; a failure logs three lines ending in an error |
| RfpIdentification.CeilDivBounds | agents/RFPIdentificationAgent.ts:110 | `Math.ceil(a / d)` is the least count whose multiple of d reaches a |
| RfpIdentification.DiffDaysOfOffset | agents/RFPIdentificationAgent.ts:109-110 | a deadline k whole days away, on either side of today, is due in exactly abs(k) days |
| RfpIdentification.RejectedIff | agents/RFPIdentificationAgent.ts:108-116 | a tender is rejected iff its deadline is more than 90 days away, and its line is then a warning, else a success |
| RfpIdentification.ScreenLog | agents/RFPIdentificationAgent.ts:108-119 | exactly one screening line per tender, in order |
| RfpIdentification.FirstPickIsFirst | agents/RFPIdentificationAgent.ts:106-119 | the loop picks a tender iff some valid tender has id RFP-WEB-101, and then the first such tender |
| RfpIdentification.ScreenOne | agents/RFPIdentificationAgent.ts:109-118 | one iteration logs the tender's line and picks it only when nothing is picked yet and it is the valid RFP-WEB-101 |
| RfpIdentification.Screen | agents/RFPIdentificationAgent.ts:106-119 | the loop leaves the first pick and appends one line per tender |
| RfpIdentification.SelectionRule | agents/RFPIdentificationAgent.ts:116-124 | the selection falls back to the first tender exactly when no valid tender has id RFP-WEB-101; otherwise it is a valid RFP-WEB-101 |
| RfpIdentification.MockScreening | agents/RFPIdentificationAgent.ts:76-116 | with tenders due in 14, 150 and 30 days, only RFP-WEB-102 is rejected, whatever the date |
| RfpIdentification.AlwaysSelectsFirst | agents/RFPIdentificationAgent.ts:117-135 | RFP-WEB-101 is always selected, and the analysis carries its client, requirements and score 92 with procurement@nexushealth.com |
| RfpIdentification.ScanLogAgents | agents/RFPIdentificationAgent.ts:66-126 | every line `scanUrl` logs is the identification agent's |
| RfpIdentification.LogPreamble | agents/RFPIdentificationAgent.ts:66-104 | appends the connect, scrape and found lines |
| RfpIdentification.ScanTenders | agents/RFPIdentificationAgent.ts:65-135 | `scanUrl` over a tender list returns the analysis of the selected tender and appends exactly the scan log |
| RfpIdentification.ScanUrl | agents/RFPIdentificationAgent.ts:65-135 | `scanUrl` on the three mock tenders |
| ResponseGenerator.DraftResult | agents/ResponseGeneratorAgent.ts:37-41 | a draft exists iff the reply is a non-empty text, and it is that text |
| ResponseGenerator.DraftLogShape | agents/ResponseGeneratorAgent.ts:13-47 | the writer logs two lines, the second an error exactly when drafting fails |
| ResponseGenerator.GenerateProposal | agents/ResponseGeneratorAgent.ts:13-47 | `generateProposal` after the provider call returns the draft or fails, and appends exactly its two lines |
| Orchestrator.MailFor | App.tsx:175-180 | no mail without an analysis; otherwise the proposal addressed to the analysed contact under "Proposal for <client>" |
| Orchestrator.App.HandleSendEmail | App.tsx:175-180 | `handleSendEmail` opens exactly that mail, and nothing without an analysis |
| Orchestrator.App.constructor | App.tsx:113-119 | a fresh App has an empty log, no results and is not processing |
| Orchestrator.App.Abort | App.tsx:162-169 | the catch block appends exactly the SYSTEM error line |
| Orchestrator.App.Identification | App.tsx:139-146 | step 1 runs `scanUrl` in URL mode and `analyze` otherwise, with that stage's result and log |
| Orchestrator.App.RunFromAnalysis | App.tsx:148-169 | with the analysis set, matching, pricing and drafting leave the fields and log of the run from that analysis |
| Orchestrator.App.RunFromMatches | App.tsx:152-169 | with the matches set, pricing and drafting leave the fields and log of the run from those matches |
| Orchestrator.App.HandleRun | App.tsx:125-173 | after `handleRun` the results and the log are those of the pipeline for the current input, whatever they were before, and `isProcessing` is false |
| Orchestrator.AbortLoggedOnce | App.tsx:162-169 | a run logs exactly one SYSTEM entry, the abort line, as its last line, when some stage throws, and none otherwise |
| Orchestrator.PipelineAbortsOnce | App.tsx:138-172 | whatever the input mode, the whole run's log holds the abort line once exactly when some stage throws, and no other SYSTEM line |
| Orchestrator.AbortEntryIsSystem | App.tsx:164-169 | the abort line is itself a SYSTEM line |
| Orchestrator.AbortAfterAnalysis | App.tsx:150-169 | after the analysis is set, the run's SYSTEM lines are one abort line exactly when no proposal is drafted |
| Orchestrator.AbortAfterMatches | App.tsx:154-169 | after the matches are set, the same holds |
| Orchestrator.NoProposalIffAborted | App.tsx:158-169 | the run ends without a proposal exactly when some stage throws |
| Orchestrator.ResultsAreCumulative | App.tsx:138-169 | a later result is set only when the earlier ones are; pricing is set exactly when matching succeeded, since it never throws; the analysis is set iff identification succeeded |
| Orchestrator.StagesFeedForward | App.tsx:140-160 | each stage is fed the previous output: matching the analysed requirements, pricing the matched items, drafting the analysis and the pricing |
| Orchestrator.IdentificationLogsFirst | App.tsx:138-160 | identification's log comes first in the run's log, and something always follows it |
| Orchestrator.UrlModeAnalysesFirstTender | App.tsx:142-143 | in URL mode identification cannot fail, and the run works on Nexus Health Systems' tender |

## Left out

- The provider calls: `generateContent`, the prompts, the response schemas and the model name are not modelled. Each stage receives the reply (`Gateway.Reply`) as a parameter, and the Orchestrator's `Env` holds one reply function per stage. An empty `response.text` is `NoText`. A thrown call or a `JSON.parse` error is `Threw(message)`. A parsed answer is assumed to conform to its schema. Every field the code reads is required by its schema, except the pricing line's `discount_applied`, which is nullable and optional and is an `Option`. So a missing `requirement` or `recommendations` that would throw in JavaScript is not modelled.
- The 15% discount above 1000 units and the service price anchors: they are prompt text, not code. The provider's line items are taken as given.
- Floating point: money, confidences and the integrity index are exact reals and integers, so binary rounding error (for example near a .5 in `Math.round`) is not modelled. JavaScript numbers are doubles; the model's quantities, ranks and scores are unbounded integers, as the schema's INTEGER fields suggest.
- Text.ToLower: lowers only ASCII A-Z, whereas `toLowerCase` also lowers other scripts' letters. Every keyword the core looks for is ASCII. `toLowerCase` can also change a text's length (a capital I with a dot above becomes two code units), which the guardrail's length test would then see; the model keeps the length.
- Text.Prefix: counts characters, whereas `substring` counts UTF-16 code units and may cut a surrogate pair in half; a log line whose cut falls inside a character outside the Basic Multilingual Plane is not modelled.
- Clock and host formatting: `new Date()` is a parameter `today` in milliseconds. Mock deadlines are whole-day offsets from it. `toDateString` and `toLocaleString` are parameters (`formatDate`, `formatAmount`). Log timestamps, `toLocaleTimeString`, `console.log`/`console.error` and the `setTimeout` delay are not modelled.
- The UI: JSX, the layout and console components, the `useState`/`useMemo` mechanics (the state is the `App` class's fields), `window.open` and `encodeURIComponent` are not modelled. `MailFor` gives the mail's parts before URI encoding.
- async/await: the stages are strictly sequential calls.
- A missing `contact_email` is represented as the empty string; both are falsy in JavaScript and are treated the same by the fallback.
- ProductMatching.SortInPlace: an insertion sort stands in for the engine's `Array.prototype.sort`. Only its result, the stable sort by ascending rank, is claimed. Ranks are integers, so a comparator returning NaN is not modelled.
- RfpIdentification.ScanTenders: stated over any non-empty tender list; the application always passes the three mock tenders (`ScanUrl`).
- Orchestrator.AbortLoggedOnce: stated over any identification outcome and any identification log without SYSTEM lines; `PipelineAbortsOnce` discharges that for both input modes.
- Integrity.IndexRange: assumes top scores within 0..100, which types.ts documents but nothing enforces.
- The `Index` and `CanSend` functions of `App` give the gates' inputs; how the badge and button are drawn is not modelled.
