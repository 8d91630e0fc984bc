# Marketing-site decision logic, modelled in Dafny

This project models the small decision and record-building routines of a
marketing website that sells AI penetration-testing services under two
brands, AI Frontera Defender and AI Capital Defender. Six pieces are modelled:

- **Analytics** (`analytics.js`):
  - conversion events and their value tags;
  - lead scoring with its weight table and its three qualification tiers;
  - UTM campaign attribution stored in sessionStorage;
  - A/B variant assignment;
  - the behaviour tracker's running scroll maximum and its click log.
- **Brand loader** (`brands/brand-loader.js`):
  - brand detection: the `BRAND` variable, then hostname, then port, then the default;
  - the choice between the two static brand records;
  - the dotted-path content lookup that yields `undefined` instead of failing;
  - bilingual text;
  - currency text (USD, or USD with MXN at ×20);
  - compliance badges.
- **Branch configuration** (`config.js`), the global `AnimationConfig` object:
  - the animation-library override order: URL parameter, localStorage, hostname, meta tag;
  - the device score that decides `high` or `low` performance mode;
  - reduced motion;
  - `init`, `updateConfig` and the A/B test-variant storage;
  - `loadAnimationLibrary`, whose load outcome is an input and which always resolves.
- **Shared animation configuration** (`js/shared/config.js`), the `AnimationConfig` class:
  - the animation type, fixed at construction;
  - the animation counter;
  - the device-capability defaults.
- **Form handler** (`api/submit-form.js`):
  - HTTP method gating;
  - each form type's required fields, with `contact` as the fallback;
  - the lead record;
  - the response chosen from what `insertLead` answered;
  - when an assessment record is created.
- **Performance comparison** (`scripts/performance-test.js`):
  - the load-time and bundle-size differences;
  - the advice lines;
  - the recommendation;
  - the error short-circuit of the report.

## Layout

- Module `JsRuntime` (`js_runtime.dfy`) holds the few pieces of the JavaScript
  runtime that the scripts rely on:
  - `undefined`/`null` as `Option`;
  - `String.prototype.includes`;
  - `URLSearchParams.get`/`has`;
  - Web Storage as a class whose methods update a map;
  - body attributes;
  - the navigator's `|| 4` device defaults.
- One module per source file: `Analytics`, `BrandLoader`, `BranchConfig`,
  `SharedAnimationConfig`, `SubmitForm` and `PerformanceTest`.

The Dafny follows the form of each source file:

- Where the source changes state, the model does too:
  - a loop or a mutated record becomes a `method`;
  - an object whose fields are updated becomes a `class`.
- Pure conditionals and record literals become functions.
- Each method is tied to a specification function, and that function's
  properties are proved as lemmas.

`getConfig()` (config.js:132-134) is the `Config()` snapshot of
`BranchConfig.AnimationConfig`. It has no contract of its own. The members
below have no row in the table below because they carry no `ensures`. Each
is a definition that other members' contracts and lemmas are stated with,
and those members do have rows:

- `Analytics.Weight` and `Analytics.ScoreOf`: the `scoring` table and the
  sum the lead-score loop computes (analytics.js:79-92).
- `Analytics.LeadScoreAsWritten` and `Analytics.QualifyAsWritten`: the
  as-written half of the first finding, where a lookup can reach
  `Object.prototype` (analytics.js:90-96).
- `Analytics.TestKey` and `Analytics.Assigned`: the `ab_test_` storage key
  and the entries the A/B loop writes (analytics.js:136-139).
- `Analytics.ScrollDepthAfter`: the scroll depth after a run of scroll
  readings (analytics.js:154-157).
- `Analytics.IsTrackedTarget`, `Analytics.IsCtaTarget`, `Analytics.EntryFor`,
  `Analytics.ClickLogAfter` and `Analytics.CountTracked`: the two selector
  tests, the entry a tracked click adds, the click log after a run of
  clicks, and how many of those clicks are tracked (analytics.js:160-172).
- `BrandLoader.Prop`, `BrandLoader.Walk` and `BrandLoader.WalkFrom`: the
  `value?.[k]` step and the walk down a key path
  (brands/brand-loader.js:53-57).
- `BranchConfig.HighCapability`: the closed form of a `score` of 5 or more
  (config.js:46-63).
- `SubmitForm.Recovered`: the success answer that the `catch` block sends,
  which `AfterInsert` and `Handle` also give for a database error
  (api/submit-form.js:106-113).
- `PerformanceTest.RicherAnimations`: the `animationCount * 1.5` test,
  exact in integers (scripts/performance-test.js:132).

## Model

| member | source | states |
|---|---|---|
| `JsRuntime.QueryGet` | analytics.js:105-109 | the value of the first pair with that name, or null when no pair has it |
| `JsRuntime.QueryHas` | config.js:18 | true exactly when some pair has that name |
| `JsRuntime.Includes` | brands/brand-loader.js:18-20 | true exactly when the part occurs in the string as a contiguous block |
| `JsRuntime.DeviceMemoryOrDefault` | config.js:49 | an absent or zero `deviceMemory` becomes 4, any other value is kept; the result is never 0 |
| `JsRuntime.ConcurrencyOrDefault` | config.js:50 | an absent or zero `hardwareConcurrency` becomes 4, any other value is kept; the result is never 0 |
| `JsRuntime.WebStorage.SetItem` | analytics.js:116 | `setItem` overwrites that one key and nothing else |
| `JsRuntime.WebStorage.RemoveItem` | config.js:152 | `removeItem` drops that one key and nothing else |
| `JsRuntime.DocumentBody.SetAttribute` | config.js:90-91 | `setAttribute` overwrites that one attribute and nothing else |
| `Analytics.TrackConversion` | analytics.js:23-46 | `event_name` is the action; the category defaults to `marketing`; the four tagged actions get `high_intent`, `consideration`, `lead_generation` and `qualified_lead`; an action has a value exactly when it is one of those four |
| `Analytics.Qualify` | analytics.js:96 | `qualified` iff the score is at least 50; `interested` iff it is 25 to 49; `visitor` iff it is below 25 |
| `Analytics.CalculateLeadScore` | analytics.js:77-99 | the loop's score is the sum of the table weights over the actions; the tier is that sum's tier |
| `Analytics.ScoreOfAppend` | analytics.js:90-92 | the score of two action lists joined is the sum of their scores |
| `Analytics.ScoreOfPermutation` | analytics.js:90-92 | reordering the actions does not change the score |
| `Analytics.UnknownActionScoresZero` | analytics.js:91 | an action missing from the table, inserted anywhere, leaves the score unchanged |
| `Analytics.AppendingNeverLowersScore` | analytics.js:79-92 | all weights are non-negative, so more actions never lower the score |
| `Analytics.QualifyMonotone` | analytics.js:96 | a higher score never gets a lower tier |
| `Analytics.AsWrittenScoreAgreesOffPrototype` | analytics.js:79-92 | when no action names an `Object.prototype` member, the score as written is the numeric table sum |
| `Analytics.InheritedActionBreaksLeadScore` | analytics.js:90-96 | as written, `['demo_request', 'constructor']` gives a non-numeric score and the `visitor` tier; the table sum is 50, which is `qualified` |
| `Analytics.AttributionFrom` | analytics.js:103-113 | each UTM field is the first value of its query parameter, or null when the parameter is absent; referrer, landing page and timestamp are copied |
| `Analytics.TrackSource` | analytics.js:102-120 | returns that record and stores it under `marketing_attribution`, leaving every other session key alone |
| `Analytics.GoogleCpcAttribution` | analytics.js:105-109 | with `?utm_source=google&utm_medium=cpc` those two fields are set and the other three are null |
| `Analytics.TestKeyInjective` | analytics.js:138 | different test names get different `ab_test_` keys |
| `Analytics.AssignedKeys` | analytics.js:136-139 | the loop writes exactly one key per test, `ab_test_<name>` |
| `Analytics.KeyOfLastIsNew` | analytics.js:136-139 | with distinct names, no earlier test writes the last test's key |
| `Analytics.AssignedSpec` | analytics.js:136-139 | one entry per test, each holding that test's chosen variant, which is one of its listed variants |
| `Analytics.ReassignmentOverwrites` | analytics.js:136-139 | a second assignment run replaces every key the first one wrote; assignment is not sticky |
| `Analytics.ABTestsWellFormed` | analytics.js:124-133 | the two tests have distinct names and non-empty variant lists |
| `Analytics.InitializeABTesting` | analytics.js:123-142 | the loop leaves storage equal to the old contents updated with one entry per test |
| `Analytics.TrimStart` | analytics.js:164 | drops exactly the leading JavaScript whitespace |
| `Analytics.TrimEnd` | analytics.js:164 | drops exactly the trailing JavaScript whitespace |
| `Analytics.Trim` | analytics.js:164 | the result sits in the text with only whitespace before and after it, and has no whitespace at either end |
| `Analytics.Snippet` | analytics.js:164 | exactly the first 50 characters of the trimmed text, or all of it when it is shorter |
| `Analytics.ScrollDepthIsMaximum` | analytics.js:147-157 | the depth is the maximum of the starting 0 and every reported percentage, and it equals one of them |
| `Analytics.ScrollDepthNeverDecreases` | analytics.js:154-157 | further scroll events never lower the depth |
| `Analytics.ClickLogGrowth` | analytics.js:160-166 | the log grows by exactly one entry per tracked click, and its earlier entries stay as they were |
| `Analytics.FromTrackedClickExtends` | analytics.js:160-166 | an entry produced by one of the first clicks was produced by a click of the whole run |
| `Analytics.ClickLogEntries` | analytics.js:160-166 | every new entry is the entry of some tracked click: its tag name, trimmed text and time |
| `Analytics.ClickLogSpec` | analytics.js:160-166 | each tracked click adds exactly one entry, earlier entries stay as they were, and every new entry comes from a tracked click with text of at most 50 characters |
| `Analytics.BehaviorTracker.constructor` | analytics.js:146-151 | depth 0, time on page the current clock, and no clicks or form interactions |
| `Analytics.BehaviorTracker.OnScroll` | analytics.js:154-157 | the depth becomes the larger of the old depth and the percentage |
| `Analytics.BehaviorTracker.OnClick` | analytics.js:160-173 | a tracked target appends its entry and anything else leaves the log alone; a CTA among tracked targets raises a `cta_click` conversion in category `engagement` |
| `BrandLoader.FieldOf` | brands/brand-loader.js:56 | an object's own property is undefined exactly when no field has that key, and otherwise is the value stored under it (the modelled records have distinct keys) |
| `BrandLoader.FieldOfFirst` | brands/brand-loader.js:56 | the first field with the key is the one found |
| `BrandLoader.ArrayIndex` | brands/brand-loader.js:56 | a key indexes an array or a string exactly when it is a canonical decimal numeral (no leading zero), and the index is the number it denotes |
| `BrandLoader.ArrayIndexDecimal` | brands/brand-loader.js:56 | the decimal text of every natural number is the array index of that number |
| `BrandLoader.ArrayIndexIsDecimal` | brands/brand-loader.js:56 | every key that indexes an array is the decimal text of its index |
| `BrandLoader.WalkAppend` | brands/brand-loader.js:55-58 | walking a joined path is walking the first part and then the rest |
| `BrandLoader.MissingSegmentStaysUndefined` | brands/brand-loader.js:55-58 | once a segment is missing the result stays undefined, whatever follows |
| `BrandLoader.Split` | brands/brand-loader.js:52 | `split('.')` gives at least one part, and no part contains a dot |
| `BrandLoader.JoinSplit` | brands/brand-loader.js:52 | joining the parts of `split('.')` with dots gives back the key |
| `BrandLoader.SplitPrefix` | brands/brand-loader.js:52 | a dot-free prefix becomes the first part of the split |
| `BrandLoader.SplitJoin` | brands/brand-loader.js:52 | splitting dot-free parts joined with dots gives back those parts |
| `BrandLoader.DetectBrand` | brands/brand-loader.js:8-32 | a non-empty `BRAND` wins. Otherwise the result is `frontera` or `capital`, and it is `frontera` exactly in a browser whose hostname contains `frontera`, or whose hostname lacks `capital` while the port is 3001 |
| `BrandLoader.HostnameWithBothBrandsIsFrontera` | brands/brand-loader.js:18-22 | a hostname containing both brand names counts as Frontera |
| `BrandLoader.ResolvedBrand` | brands/brand-loader.js:36 | a non-empty override wins; otherwise the brand is the detected one |
| `BrandLoader.BrandRecordsDiffer` | brands/frontera.config.js:4 | the two brand records are different values |
| `BrandLoader.LoadBrandConfig` | brands/brand-loader.js:35-45 | always one of the two records, and the Frontera one exactly when the resolved brand is `frontera`; every other name gets Capital |
| `BrandLoader.GetBrandContent` | brands/brand-loader.js:48-61 | the loop, with its early exit, returns the dotted-path walk of the chosen record |
| `BrandLoader.ContactPathSplits` | brands/brand-loader.js:52 | `contact.solutions.phone` splits into its three segments |
| `BrandLoader.FronteraSolutionsPhone` | brands/frontera.config.js:17-19 | Frontera's solutions phone is `+1 (956) 555-SAFE` |
| `BrandLoader.CapitalSolutionsPhone` | brands/capital.config.js:17-19 | Capital's solutions phone is `+1 (888) 555-SCAN` |
| `BrandLoader.SolutionsPhone` | brands/brand-loader.js:48-61 | `getBrandContent('contact.solutions.phone', brand)` is each brand's solutions phone |
| `BrandLoader.NonexistentPathIsUndefined` | brands/brand-loader.js:55-58 | `nonexistent.path` is undefined for every brand |
| `BrandLoader.IsFrontera` | brands/brand-loader.js:64-66 | a set `BRAND` decides on its own; otherwise true exactly on a page whose hostname contains `frontera`, or lacks `capital` and is served on port 3001 |
| `BrandLoader.GetText` | brands/brand-loader.js:69-75 | the English text is replaced exactly when the brand is Frontera and a non-empty Spanish text is given, and then by `es \| en` |
| `BrandLoader.DigitChar` | brands/brand-loader.js:84 | a digit below 10 becomes the decimal digit character of that value |
| `BrandLoader.Decimal` | brands/brand-loader.js:84 | a natural number's decimal text is a canonical numeral that denotes the number, of one to three digits below 1000 |
| `BrandLoader.DecimalOfValue` | brands/brand-loader.js:84 | every canonical numeral is the decimal text of the number it denotes |
| `BrandLoader.Grouped` | brands/brand-loader.js:84 | the text is digit groups of three after a first group of one to three, separated by commas, and without its commas it is the decimal text of the number |
| `BrandLoader.LocaleInt` | brands/brand-loader.js:84-89 | a whole amount's en-US text starts with a minus exactly when the amount is negative, and the rest is the grouped decimal text of its magnitude |
| `BrandLoader.FormatCurrency` | brands/brand-loader.js:78-90 | Capital text is `$` followed by the grouped amount; Frontera appends ` USD`, and with `showBoth` also the MXN amount at twenty times the USD amount |
| `BrandLoader.GetComplianceBadges` | brands/brand-loader.js:93-96 | the resolved record's `compliance` list, which is Frontera's badges exactly for Frontera and Capital's otherwise |
| `BranchConfig.DetectBranch` | config.js:15-40 | the `animation` URL parameter wins, even when empty. Then a non-empty stored preference wins. Then an `anime-enhanced` host gives `anime`; a local host gives the `branch` meta tag's content, or `vanilla` without a tag; any other host gives `vanilla` |
| `BranchConfig.StoredVariantIsDetected` | config.js:145-147 | after storing a non-empty variant, a page without the URL parameter detects that variant |
| `BranchConfig.ClearedVariantIsForgotten` | config.js:151-153 | after the key is removed, the rest of localStorage plays no part in detection |
| `BranchConfig.AnimationConfig.constructor` | config.js:6-12 | the defaults are `vanilla`, animations on, motion preference respected, mode `auto` and no debug |
| `BranchConfig.AnimationConfig.DetectPerformance` | config.js:43-64 | a mode other than `auto` is returned unchanged. `auto` gives `high` or `low`, and `high` exactly when connection information is present and either memory and cores both reach 4, or the connection is `4g` and one of them does. So without a connection the result is always `low` |
| `BranchConfig.AnimationConfig.DetectMotionPreference` | config.js:67-72 | reduced motion applies exactly when it is both respected and preferred |
| `BranchConfig.AnimationConfig.Init` | config.js:75-99 | the library is the detected one. The mode is re-detected, and is stable once it is `high` or `low`. Animations end up on only if they were on and reduced motion does not apply; this never switches them back on. Both body attributes are set |
| `BranchConfig.AnimationConfig.LoadAnimationLibrary` | config.js:102-129 | disabled animations resolve `animations-disabled` with the library unchanged. `anime` resolves `anime` when the script loads, and otherwise falls back to `vanilla` in both the result and the config. Any other library resolves `vanilla` unchanged |
| `BranchConfig.AnimationConfig.UpdateConfig` | config.js:137-142 | each supplied key overwrites its field and each omitted key keeps it; both body attributes are rewritten from the new config |
| `BranchConfig.AnimationConfig.SetTestVariant` | config.js:145-149 | stores the variant under `animationLibrary` and adopts it |
| `BranchConfig.AnimationConfig.ClearTestVariant` | config.js:151-154 | removes only the `animationLibrary` key |
| `SharedAnimationConfig.DetectAnimationType` | js/shared/config.js:16-31 | always `anime` or `vanilla`. It is `anime` exactly when `anime=true` is given, or when `vanilla=true` is not given and the host contains `anime-animations`. Only the exact string `true` counts |
| `SharedAnimationConfig.GetDeviceCapabilities` | js/shared/config.js:58-69 | the two feature flags are passed through; absent or zero memory and cores default to 4 and are kept otherwise; the connection is copied |
| `SharedAnimationConfig.AnimationConfig.constructor` | js/shared/config.js:7-14 | fixes the detected type and starts the counters at 0 and the clock at `now` |
| `SharedAnimationConfig.AnimationConfig.GetAnimationType` | js/shared/config.js:33-35 | returns the type fixed at construction, which is `anime` or `vanilla` |
| `SharedAnimationConfig.AnimationConfig.TrackAnimation` | js/shared/config.js:38-39 | adds exactly one to `totalAnimations` and changes no other metric |
| `SubmitForm.FormTypeOf` | api/submit-form.js:29 | a truthy `formType` is used as it is; otherwise the form type is `contact` |
| `SubmitForm.RequiredFor` | api/submit-form.js:32-38 | `signup` and `demo` get their own lists and every other form type gets the `contact` list; every list includes `email` and `company` |
| `SubmitForm.MissingFields` | api/submit-form.js:39 | exactly the required fields that are absent or falsy, kept in the required-list order |
| `SubmitForm.Property` | api/submit-form.js:51-52 | a body property is copied when present and is undefined when absent |
| `SubmitForm.BuildLead` | api/submit-form.js:49-67 | `form_type` is the resolved type and `source` is `website`; `email` and `company` are copied. Each optional column is its field when truthy and null otherwise, so no column holds a falsy non-null value. The whole body is the metadata |
| `SubmitForm.ValidatedLeadHasContact` | api/submit-form.js:38-52 | a body that passes validation gives a lead with a truthy email and company |
| `SubmitForm.AfterInsert` | api/submit-form.js:72-104 | every database answer gives 200 and success. A truthy database warning gives the "pending database setup" message and is echoed as it came; otherwise the message is "Form submitted successfully" and no warning is sent. Without a warning or an error the `leadId` is the returned row's id (`lead?.id`); with one there is no `leadId`. An assessment is requested exactly for a `signup` whose insert returned a row with a truthy id, and for that id |
| `SubmitForm.Validated` | api/submit-form.js:38-70 | the answer is 400 exactly when some required field is not truthy in the body, and it then lists exactly those fields; a body with every required field gets the insert answer for the lead built from it |
| `SubmitForm.Handle` | api/submit-form.js:16-114 | `OPTIONS` gives 200 and an empty body; any other non-POST method gives 405. The status is 400 exactly when a POST body lacks some required field, and the response then lists those fields. Every other POST gives 200 and success. An assessment is requested only for a `signup` and with a truthy id |
| `SubmitForm.CompletePayloadIsAccepted` | api/submit-form.js:39-46 | a body that has every field its type requires is never refused |
| `SubmitForm.SignupWithoutCompanySize` | api/submit-form.js:33-46 | a `signup` with only email and company gives 400 with `fields: ['companySize']` |
| `SubmitForm.AssessmentCondition` | api/submit-form.js:94-96 | after validation, an assessment is created exactly for a `signup` whose insert had no warning or error and returned a row with a truthy id, and for that id |
| `SubmitForm.LookupAsWritten` | api/submit-form.js:38 | the table lookup finds a list for the three table names, finds an inherited function exactly for `Object.prototype` member names, and finds undefined otherwise |
| `SubmitForm.HandleAsWritten` | api/submit-form.js:6-114 | as written, the handler fails to answer exactly for a POST with a null body |
| `SubmitForm.AsWrittenAgreesOffPrototype` | api/submit-form.js:28-39 | except for a null body or an inherited form-type name, the handler as written and the corrected one give the same answer |
| `SubmitForm.InheritedFormTypeSkipsValidation` | api/submit-form.js:38-113 | as written, `formType: 'toString'` with no other fields is answered 200 and success; corrected, it gets 400 with the `contact` list |
| `SubmitForm.MissingAllWhenAbsent` | api/submit-form.js:39 | when a body has none of the required fields, all of them are reported, in order |
| `SubmitForm.NullBodyRejects` | api/submit-form.js:28-112 | as written, a POST with a null body gets no answer; corrected, it gets 200 with form type `contact` |
| `SubmitForm.ServerResponse.SetHeader` | api/submit-form.js:8 | sets that one header and nothing else |
| `SubmitForm.ServerResponse.Send` | api/submit-form.js:18-24 | `status(code)` then `json(...)` or `end()`: records the status and the body |
| `SubmitForm.SetCorsHeaders` | api/submit-form.js:8-14 | every request gets the four CORS headers and keeps its other headers |
| `SubmitForm.Handler` | api/submit-form.js:6-114 | the early-return branches set the CORS headers and send exactly the status and body that `Handle` picks; they request an assessment exactly when `Handle` does |
| `SubmitForm.SendValidated` | api/submit-form.js:38-104 | the part after the form type is known sends what `Validated` picks |
| `SubmitForm.SendInsertAnswer` | api/submit-form.js:72-104 | the three answers to `insertLead` send what `AfterInsert` picks |
| `PerformanceTest.ErrorOf` | scripts/performance-test.js:82 | a result has an `error` exactly when its request failed; the report's truthiness test reads it |
| `PerformanceTest.LoadDiff` | scripts/performance-test.js:88 | a number exactly when both results are measurements, and then anime's load time minus vanilla's |
| `PerformanceTest.SizeDiff` | scripts/performance-test.js:97 | a number exactly when both results are measurements, and then anime's bundle size minus vanilla's |
| `PerformanceTest.RecommendationFor` | scripts/performance-test.js:171-177 | `anime.js` iff loadDiff < 200 and sizeDiff < 100000. Otherwise `vanilla` iff loadDiff > 500 or sizeDiff > 200000. Otherwise `manual_review_needed`. Always one of the three strings |
| `PerformanceTest.NoCostMeansAnimeJs` | scripts/performance-test.js:171-172 | whenever both differences are at most 0 the recommendation is `anime.js` |
| `PerformanceTest.SlowerButSmallNeedsReview` | scripts/performance-test.js:171-177 | loadDiff 300 with sizeDiff 0 needs manual review |
| `PerformanceTest.RecommendationMonotone` | scripts/performance-test.js:171-177 | a slower or larger anime build never gets a recommendation more favourable to it |
| `PerformanceTest.MissingNumbersNeedReview` | scripts/performance-test.js:168-177 | a NaN difference never gives `anime.js`, and without a number over a limit the result is manual review |
| `PerformanceTest.GenerateRecommendations` | scripts/performance-test.js:119-134 | minimal impact iff loadDiff < 100 and sizeDiff < 50000. Significant load iff not minimal impact and loadDiff > 500. Large bundle iff sizeDiff > 100000. Enhanced capabilities iff 2·anime > 3·vanilla animations. The lines come in the source's order (impact, then bundle, then capabilities), so none appears twice |
| `PerformanceTest.ImpactLinesExclusive` | scripts/performance-test.js:122-126 | the minimal-impact and significant-load lines never appear together |
| `PerformanceTest.PerformanceMonitor.constructor` | scripts/performance-test.js:13-19 | both results start empty |
| `PerformanceTest.PerformanceMonitor.GetRecommendation` | scripts/performance-test.js:167-178 | `anime.js` exactly when both results are measured and below the two limits; missing measurements give manual review |
| `PerformanceTest.PerformanceMonitor.GenerateReport` | scripts/performance-test.js:75-117 | a truthy error on either side, vanilla's first, stops the report with that error. Otherwise the report carries both differences, the advice for them and the recommendation |
| `PerformanceTest.PerformanceMonitor.RunTests` | scripts/performance-test.js:58-73 | stores the two answers and reports on them |
| `PerformanceTest.NumberlessReportNeedsReview` | scripts/performance-test.js:79-177 | results without numbers and without a truthy error (never filled, or an error with an empty message) give no advice and manual review |
| `PerformanceTest.FailureShortCircuits` | scripts/performance-test.js:82-85 | an error on either side ends the report with a non-empty error message |

## Left out

- Clocks: `new Date().toISOString()`, `Date.now()` and `performance.now()` become parameters (`timestamp`, `now`, `createdAt`).
- Other environment reads become parameters: `navigator.userAgent`, `window.location.pathname`, `document.referrer`, `matchMedia`, the `IntersectionObserver`/`requestAnimationFrame` feature tests and the `<meta name="branch">` tag.
- `Math.random()` in the A/B assignment becomes a caller-supplied index per test, required to be in range.
- `Math.round` of the scroll fraction, including its NaN on a page that cannot scroll: the listener receives the integer percentage.
- Query strings arrive already decoded into ordered name/value pairs; percent-decoding and `+` handling are not modelled.
- `JSON.stringify`: the stored attribution is the record itself, tagged as JSON, not its text.
- Strings are sequences of Unicode code points. `substring(0, 50)` counts UTF-16 code units, so characters outside the Basic Multilingual Plane are counted differently.
- `BrandLoader.Prop`: properties inherited from a prototype are not modelled, so `getBrandContent` with `constructor` or `toString` gives undefined here where JavaScript finds a function.
- `BrandLoader.LocaleInt`: `toLocaleString` is modelled as en-US grouping of whole amounts; other locales and fractional amounts are not modelled.
- `BrandLoader.LoadBrandConfig`: only six fields of each brand record are encoded: `brand`, `siteName`, `language`, `currency`, `contact` and `compliance`. The records' other fields (`domain`, `tagline`, `colors`, `pricing`, `testimonials`, …) are left out. So `BrandLoader.GetBrandContent` answers undefined for a path into any of them, where the source returns the stored value; the default export of the whole record is not modelled either.
- Logging and analytics calls: `console.*` and `gtag`.
- Event-listener registration and `beforeunload`.
- `trackPerformance` and `initializeAnalytics` in analytics.js compute and log only.
- `window.location.reload()` in `setTestVariant` and `clearTestVariant`: only the storage effect and the config update are modelled.
- DOM work in `loadAnimationLibrary`: creating and appending the script element is not modelled. Whether it loads is the `scriptLoads` input, and the promise's asynchrony is not modelled.
- `BranchConfig.AnimationConfig.UpdateConfig`: the update carries only the five known keys. An explicit `undefined` value and extra keys, which `Object.assign` would also copy, are not modelled.
- `getConfig` returns the live object; the model returns a snapshot value, so aliasing of the config object is not captured.
- `prefersReducedMotion` (js/shared/config.js:53-55) only reads the media query and holds no logic.
- api/lib/supabase.js is not part of this model. `insertLead` is a function parameter that maps the lead record to its `{ data, error, warning }` answer. `createAssessment` appears only as the lead id it is called with; the handler ignores its result.
- Exceptions thrown by `insertLead` or `createAssessment` are not modelled; both catch their own errors.
- `SubmitForm.FormTypeOf`: a non-string `formType` names no entry of the table here. An array such as `['signup']`, which JavaScript converts to the key `signup`, is not modelled.
- A request body that is a string (a non-JSON content type) is not modelled; the body is either null or a parsed JSON object.
- The response's JSON serialisation is modelled as the `Body` datatype. The `true` value of the credentials header is its string `"true"`.
- `testLoadTime`: the HTTPS request, the byte count and the regular-expression animation count are inputs to `RunTests`.
- The percentage and KB figures printed by `generateReport` are floating point and printed only.
- `saveResults` writes a file. The recommendation it records is the report's `recommendation`.
- The unused `comparison` entry of `results` is not modelled.
- The Playwright scripts (`complete-spanish-test.js`, `test-spanish.js`, `test-spanish-fixed.js`), `scripts/compare-branches.js`, `js/loader.js`, `js/anime/animations.js` and `js/vanilla/animations.js` are not part of this model. They are browser automation, shell and filesystem work, and DOM presentation.
- `Analytics.Element`: `matches` is modelled on the upper-case `tagName` of HTML elements and on class names. Other selector forms and the lower-case tag names of SVG elements are not modelled.
- `form_interactions` is never updated by the source, and `time_on_page` only records the start time.

## Findings

| source | as written | input that shows it | evidently intended | confidence | as-written member | corrected member |
|---|---|---|---|---|---|---|
| analytics.js:90-96 | `scoring[action] \|\| 0` also finds members inherited from `Object.prototype`. The function found there turns the running score into text, and every later weight is concatenated to it | `calculateLeadScore(['demo_request', 'constructor'])` gives a non-numeric score and `visitor` (`Analytics.InheritedActionBreaksLeadScore`) | only the table's own entries count and unknown actions add 0, so the score is 50, `qualified` | not executed; high | `Analytics.LeadScoreAsWritten` | `Analytics.CalculateLeadScore` |
| api/submit-form.js:38-39 | `requiredFields[formType]` finds an inherited function for a `formType` such as `toString`. `.filter` then throws, and `catch` answers 200 and success without any validation | a POST with body `{"formType": "toString"}` (`SubmitForm.InheritedFormTypeSkipsValidation`) | an unknown form type uses the `contact` list, so 400 with the five contact fields | not executed; high | `SubmitForm.HandleAsWritten` | `SubmitForm.Handle` |
| api/submit-form.js:28-112 | with a null body, `formData.formType` throws inside `try`, and `req.body.formType` throws again inside `catch`, so the handler rejects instead of answering | a POST whose body is JSON `null` (`SubmitForm.NullBodyRejects`) | the `catch` fallback answers 200 with form type `contact` | not executed; medium | `SubmitForm.HandleAsWritten` | `SubmitForm.Handle` |
