# FIXO core in Dafny

FIXO is a home-repair assistant. A user uploads a photo or a description. An
analyzer names the object and the fault, and returns repair steps and safety
warnings. A Next.js application adds sign-in, monthly analysis quotas and a
database seeded from a repair catalogue.

This project models the decision and table-update rules beneath that
application:

- how the analyzer chooses its provider, simulates an analysis and
  normalises a model's answer (`Analyzer`);
- the route guard (`Middleware`);
- the client-side user and quota derivation (`UseUser`) and the analysis
  request state machine (`UseAnalysis`);
- the NextAuth providers, callbacks and events (`Auth`);
- the daily maintenance endpoint (`CronCleanup`);
- the browser data store's lookups (`DataLoader`);
- the database seed script (`Seed`);
- the sign-in error page's message lookup (`AuthError`).

Supporting modules:

- `Wrappers`: `Option` and `Result`.
- `Js`: JavaScript's falsy `x || d`, `startsWith`, plain objects as ordered
  entries, `String(n)` and `parseInt`.
- `Catalog`: the repair-catalogue records.
- `Store`: the Prisma tables as one `Database` object.

Everything the code gets from outside is a parameter:

- environment variables, the parsed catalogue file and the clock (`Ambient`,
  `Now`);
- `Math.random()`, as reals in [0, 1) (`Draws`);
- the outcome of the OpenAI call (`Answered(answer)` or `Failed`);
- the reply to the client's `fetch`;
- `new URL(url).origin`, as a function;
- the point at which a database call throws (`Failure`);
- the id the database hands out for a new user.

Where the source updates state in place, the model does too:

- `AIAnalyzer` is a class whose two fields are set once in its constructor.
- `AnalysisHook` holds the hook's `isAnalyzing`, `result` and `error` state,
  plus logs of the requests sent and the callbacks made.
- `FixoData` holds `window.FIXO`'s five data fields.
- `Database` holds the tables. The cron endpoint, the demo sign-in, the
  `createUser` event and the seed loops update them through `modifies`
  frames.

Each loop of the seed script is a method proved equal to a function that
folds one row's upsert over the rows before it. The seeding properties are
then lemmas about those functions.

JavaScript's `x || d` is modelled as written: `undefined`, `null`, `""` and
`0` all give the default. So a risk score of 0 from the model becomes 5, a
usage limit of 0 becomes 3, and a `timeEstimate` that parses to 0 becomes 15.

Where the design notes and the code differ, the model follows the code:

- The OpenAI path passes `recommendations` through unchanged, with no safety
  tiers.
- That path's default category is `'ostatní'`, not "other".
- The Google path awaits the simulation inside its `try`, so a simulation that
  throws is run a second time, with fresh random draws, by the `catch`.
- Missing `category` and `riskScore` are defaulted only on that path, not in
  the simulation.

## Model

| member | source | states |
|---|---|---|
| Analyzer.DetectProvider | src/aiAnalyzer.js:24-32 | The provider is OpenAI iff the API key is non-empty and starts with `sk-`. Otherwise it is Google iff both Google variables are non-empty. Otherwise it is simulation. |
| Analyzer.LoadRepairDatabase | src/aiAnalyzer.js:37-46 | The catalogue is the file's `repairs`. It is empty when the file is unreadable or has no `repairs`. |
| Analyzer.AIAnalyzer.constructor | src/aiAnalyzer.js:15-19 | The provider and the catalogue are fixed once, from the environment and the file. |
| Analyzer.LowerChar | src/aiAnalyzer.js:166 | A capital becomes a different, non-capital letter that the independent `UpperOf` maps back to that capital; `Ÿ` becomes `ÿ`. A character that is not upper case is left as it is. |
| Analyzer.LowerCaseIsUnique | src/aiAnalyzer.js:166 | A capital has exactly one lower-case letter: any other letter that `UpperOf` maps to it is the one `LowerChar` gives. |
| Analyzer.Slug | src/aiAnalyzer.js:166 | Same length as the name. Every space becomes `-`. Each capital becomes its lower-case letter, which maps back to it. No spaces or upper-case letters remain. Other characters are kept. |
| Analyzer.SlugIdempotent | src/aiAnalyzer.js:166 | Slugging a slug changes nothing. |
| Analyzer.AnalysisId | src/aiAnalyzer.js:263-265 | The analysis id is never empty. |
| Analyzer.SafetyWarnings | src/aiAnalyzer.js:244-258 | Risk >= 8 gives exactly the two high-risk lines. 5 <= risk < 8 gives exactly the two caution lines. Anything else, including a missing score, gives the one basic line. The list is never empty. |
| Analyzer.TiersAreDistinct | src/aiAnalyzer.js:247-255 | A score below 5 and a score of 5 or more get different warnings. |
| Analyzer.GenerateSafetyWarnings | src/aiAnalyzer.js:244-258 | Pushing into a local list yields exactly the tier function's warnings. |
| Analyzer.PickIndex | src/aiAnalyzer.js:157-158 | `floor(r * n)` lies in [0, n) for r in [0, 1) and n > 0. |
| Analyzer.RandomConfidence | src/aiAnalyzer.js:267-269 | `r * (max - min) + min` lies in [min, max). |
| Analyzer.Scaled | src/aiAnalyzer.js:268 | `r * w` lies in [0, w) for r in [0, 1). |
| Analyzer.Simulated | src/aiAnalyzer.js:145-187 | An empty catalogue gives the no-data error. A result is tagged `simulation`, carries the generated id and the timestamp, and its warnings are the tier function's for its risk score. |
| Analyzer.SimulatedFrom | src/aiAnalyzer.js:157-186 | Defines a result assembled from a given repair and issue: slug and name, category, the confidence ranges, the copied issue fields and the defaulted tools, steps and warnings. |
| Analyzer.SimulationEmptyCatalogue | src/aiAnalyzer.js:152-155 | An empty catalogue raises "No repair data available" and gives no result. |
| Analyzer.SimulationFailure | src/aiAnalyzer.js:152-158 | The simulation fails iff the catalogue is empty or the chosen repair has no issues. It fails with the no-data error iff the catalogue is empty. |
| Analyzer.SimulationDrawsFromCatalogue | src/aiAnalyzer.js:157-186 | A successful result is built from a catalogue value and one of its issues. It is tagged `simulation`, its object id is the slug of the name, and its issue id is copied. Tools and steps default to `[]`, and the warnings are the tier function's. The id and the timestamp are non-empty. |
| Analyzer.SimulationSingleEntry | src/aiAnalyzer.js:157-186 | A one-repair, one-issue catalogue always yields that repair and that issue. |
| Analyzer.FaucetScenario | src/aiAnalyzer.js:145-187 | A faucet whose issue has risk 2 yields object "Faucet", issue risk 2 and only the basic warning. |
| Analyzer.FormatAnalysisResult | src/aiAnalyzer.js:217-239 | A result exists iff the answer has an object name and an issue name; otherwise the code throws. Both ids are slugs of the names. The category defaults to `'ostatní'`, both confidences to 0.5 and the risk score to 5, all falsy defaults. `recommendations` are passed through, or `{}` when absent. The provider tag is the analyzer's. |
| Analyzer.FormatDefaultsAreTruthy | src/aiAnalyzer.js:226-234 | After normalisation the category is non-empty and the risk score is non-zero. |
| Analyzer.FormatZeroRiskBecomesFive | src/aiAnalyzer.js:234 | A risk score of 0 is reported as 5. |
| Analyzer.OpenAiPath | src/aiAnalyzer.js:70-126 | A normalisable answer gives its normalised result, tagged `openai`. A failed call or an answer that cannot be normalised gives exactly the simulation. |
| Analyzer.OpenAiFailureFallsBack | src/aiAnalyzer.js:121-125 | A failed OpenAI call gives exactly the simulation result. |
| Analyzer.OpenAiPathTags | src/aiAnalyzer.js:112-125 | A result of the OpenAI path is tagged `openai` or `simulation`. It fails only when the simulation fails. |
| Analyzer.GooglePath | src/aiAnalyzer.js:131-140 | A simulation that succeeds is the answer. When it throws, the answer is a second simulation with fresh draws, clock and id. |
| Analyzer.GooglePathFailure | src/aiAnalyzer.js:131-140 | The Google path fails iff both simulations fail. A result is tagged `simulation`. It fails with the no-data error iff the catalogue is empty. |
| Analyzer.GoogleRetryRecovers | src/aiAnalyzer.js:132-139 | A first draw that lands on a repair without issues fails with a TypeError, and a second draw on a repair with issues answers with that repair. |
| Analyzer.AIAnalyzer.AnalyzeWithSimulation | src/aiAnalyzer.js:145-187 | The method's result equals the simulation function's. |
| Analyzer.AIAnalyzer.AnalyzeWithGoogle | src/aiAnalyzer.js:131-140 | The method runs the simulation, and runs it again with the retry's draws when the first run fails; its result equals `GooglePath`. |
| Analyzer.AIAnalyzer.AnalyzeWithOpenAI | src/aiAnalyzer.js:70-126 | A normalisable answer gives its normalised result. Any failure, including failed normalisation, gives exactly the simulation result. |
| Analyzer.AIAnalyzer.Analyze | src/aiAnalyzer.js:54-65 | Dispatch on the provider: openai takes the OpenAI path, google the Google path with its retry, simulation the simulation. A result is tagged with the provider or `simulation` and has a non-empty id and timestamp. An error means the simulation failed. |
| Middleware.Authorized | fixo-v2/src/middleware.ts:14-46 | The eight public routes are always allowed. So is any path starting with `/api/health`, `/api/repairs` or `/api/auth`. Every other path is allowed iff a token is present. |
| Middleware.AnonymousAccess | fixo-v2/src/middleware.ts:18-42 | Without a token, a path is allowed iff it is public or under an open API prefix. |
| Middleware.TokenIsMonotone | fixo-v2/src/middleware.ts:14-46 | Adding a token never turns an allowed path into a refused one. |
| Middleware.TokenOpensEverything | fixo-v2/src/middleware.ts:45 | With a token every path is allowed. |
| Middleware.PublicMatchIsExact | fixo-v2/src/middleware.ts:30-32 | Public routes match exactly: `/pricing/x` and `/dashboard` are refused without a token. |
| Middleware.OpenPrefixesCoverContinuations | fixo-v2/src/middleware.ts:35-42 | Anything after an open API prefix is allowed without a token. |
| UseUser.DeriveUser | fixo-v2/src/hooks/use-user.ts:9-30 | No session user gives no user. Otherwise the plan defaults to FREE, used to 0 and limit to 3, as falsy defaults. `isPremium` holds iff the plan is PLUS, PRO or LIFETIME. `canAnalyze` holds iff the user is premium or used < limit. The identity fields are copied. |
| UseUser.UseUser | fixo-v2/src/hooks/use-user.ts:32-37 | `isLoading` holds iff the status is loading. `isAuthenticated` holds iff it is authenticated. |
| UseUser.UseRequireAuth | fixo-v2/src/hooks/use-user.ts:40-49 | The user is the derived user. `isLoading` and `isAuthenticated` hold iff the status is loading or authenticated. `isReady` holds iff not loading and authenticated. |
| UseUser.ReadyIffAuthenticated | fixo-v2/src/hooks/use-user.ts:47 | Ready holds iff the status is authenticated. |
| UseUser.PremiumCanAnalyze | fixo-v2/src/hooks/use-user.ts:20-28 | A premium user can always analyse. |
| UseUser.DefaultPlanIsFree | fixo-v2/src/hooks/use-user.ts:17 | A missing or empty plan reads as FREE and is not premium. |
| UseUser.ZeroLimitBecomesThree | fixo-v2/src/hooks/use-user.ts:19-24 | A stored limit of 0 reads as 3, so a FREE user with 2 used can still analyse. |
| UseUser.LimitNeverZero | fixo-v2/src/hooks/use-user.ts:19 | The derived limit is never 0. |
| UseAnalysis.FailureMessage | fixo-v2/src/hooks/use-analysis.ts:79-87 | A reply fails iff it lacks `success`. The message is `data.error`, or "Analýza selhala" when that is falsy. A thrown value gives its message if it is an `Error`, else "Neočekávaná chyba". |
| UseAnalysis.GuardError | fixo-v2/src/hooks/use-analysis.ts:54-63 | With neither image nor description, the upload-required error. With input, a user who cannot analyse gets the limit error. No error iff there is input and the user is absent or may analyse. |
| UseAnalysis.EmptyInputBeforeQuota | fixo-v2/src/hooks/use-analysis.ts:54-63 | The empty-input check wins over the quota check, whatever the user. |
| UseAnalysis.AnalysisHook.constructor | fixo-v2/src/hooks/use-analysis.ts:46-50 | The hook starts idle, with no result, no error and nothing sent. |
| UseAnalysis.AnalysisHook.CanAnalyze | fixo-v2/src/hooks/use-analysis.ts:109 | True when there is no user; otherwise the user's `canAnalyze`. |
| UseAnalysis.AnalysisHook.AnalysesRemaining | fixo-v2/src/hooks/use-analysis.ts:110 | 3 when there is no user; otherwise limit minus used, possibly negative. |
| UseAnalysis.AnalysisHook.Begin | fixo-v2/src/hooks/use-analysis.ts:65-77 | Sets analysing and clears the error. Sends exactly one request. Leaves the result alone. |
| UseAnalysis.AnalysisHook.Analyze | fixo-v2/src/hooks/use-analysis.ts:52-96 | A guard error is stored and null is returned; no request is sent and nothing else changes. Otherwise one request is sent and analysing ends false. Success stores and returns `data.data` and notifies `onSuccess`. Failure stores the failure message, returns null, notifies `onError` and keeps the old result. |
| UseAnalysis.AnalysisHook.Reset | fixo-v2/src/hooks/use-analysis.ts:98-101 | Clears the result and the error and nothing else. |
| Store.UpsertUserByEmail | fixo-v2/src/lib/auth.ts:41-51 | An upsert by e-mail with an empty update. An existing user's row is left unchanged. Otherwise exactly one row is added, under the new id. Unique e-mails stay unique. |
| Auth.Providers | fixo-v2/src/lib/auth.ts:11-61 | Google first iff both its id and secret are set. GitHub next iff both of its are set. The demo credentials provider is always last, and only there. |
| Auth.Authorize | fixo-v2/src/lib/auth.ts:37-59 | A falsy e-mail gives null and no change. Otherwise an existing user is left unchanged and a new one is created with "Demo uživatel", FREE, 0 and 3. The stored row's id, e-mail, name and image are returned, and unique e-mails stay unique. |
| Auth.AuthorizeTwiceSameUser | fixo-v2/src/lib/auth.ts:41-51 | Signing in twice with one address returns the same user and adds at most one row. |
| Auth.SessionCallback | fixo-v2/src/lib/auth.ts:73-94 | Without a session user or a truthy `token.sub`, the session is unchanged. Otherwise the user id becomes `sub`. The plan and counters are copied only when the DB user exists, and the name, e-mail and image are never changed. |
| Auth.SessionCarriesStoredQuota | fixo-v2/src/lib/auth.ts:87-91 | A stored user's plan, used count and limit reach `useUser` as stored. |
| Auth.Jwt | fixo-v2/src/lib/auth.ts:95-106 | The keys are the token's, plus `id` when a user is given, plus the session's on an update. Session values win on an update. Every other key holds the user id or the old token value. |
| Auth.JwtUpdateOverridesId | fixo-v2/src/lib/auth.ts:101-103 | On an update the session's `id` overrides the signed-in user's. |
| Auth.JwtIdentity | fixo-v2/src/lib/auth.ts:95-106 | With no user and no session the token is returned unchanged. |
| Auth.Redirect | fixo-v2/src/lib/auth.ts:107-113 | A url starting with `/` gives `baseUrl + url`. Otherwise a same-origin url is returned unchanged and any other url gives `baseUrl`. An unparsable url throws. |
| Auth.RedirectStaysOnSite | fixo-v2/src/lib/auth.ts:107-113 | The redirect target always starts with `baseUrl` or has `baseUrl` as its origin. |
| Auth.CreateUserEvent | fixo-v2/src/lib/auth.ts:116-125 | Sets FREE, limit 3 and used 0 on the new user only. A missing user makes the update throw and nothing changes. |
| CronCleanup.Unauthorized | fixo-v2/src/app/api/cron/cleanup/route.ts:11-13 | Defines the refusal: a secret is set and non-empty, and the header is not `Bearer ` followed by it. |
| CronCleanup.FreeUsers | fixo-v2/src/app/api/cron/cleanup/route.ts:21-24 | Selects exactly the users whose plan is FREE. |
| CronCleanup.ResetFree | fixo-v2/src/app/api/cron/cleanup/route.ts:21-29 | Every FREE user gets used 0 and reset date now. Other users are unchanged. No user is added or removed. |
| CronCleanup.ResetFreeIdempotent | fixo-v2/src/app/api/cron/cleanup/route.ts:21-29 | The reset keeps the set of FREE users, and running it twice equals running it once. |
| CronCleanup.Live | fixo-v2/src/app/api/cron/cleanup/route.ts:42-57 | A row survives iff it was in the table and `expires >= now`, so one that expires exactly now is kept. No rows are added. |
| CronCleanup.Expired | fixo-v2/src/app/api/cron/cleanup/route.ts:42-57 | A row is deleted iff it was in the table and `expires < now`, matching `lt`. |
| CronCleanup.LiveAndExpiredPartition | fixo-v2/src/app/api/cron/cleanup/route.ts:42-57 | Survivors and deleted rows together are the table, as multisets and in number. |
| CronCleanup.ResetMessage | fixo-v2/src/app/api/cron/cleanup/route.ts:35 | Defines the day-1 message, with the count written by `String`; `Js.DecimalValue` reads those digits back as the count. |
| CronCleanup.ReportedCountsAreRemovedRows | fixo-v2/src/app/api/cron/cleanup/route.ts:59-65 | The reported counts are the numbers of rows that disappeared. |
| CronCleanup.NoSecretNoCheck | fixo-v2/src/app/api/cron/cleanup/route.ts:11 | With no secret, or an empty one, no request is refused. |
| CronCleanup.SecretCheckIsExact | fixo-v2/src/app/api/cron/cleanup/route.ts:11-13 | With a secret, a request passes iff its header is exactly `Bearer <secret>`. |
| CronCleanup.Get | fixo-v2/src/app/api/cron/cleanup/route.ts:6-73 | A wrong bearer gives 401 and no change. On day 1, the FREE users are reset and the result reports how many; tokens and sessions are untouched. On other days, the expired tokens and then the expired sessions are deleted and both deleted counts reported; users are untouched. A failing call gives 500 "Cleanup failed", keeping whatever earlier calls did. |
| DataLoader.InCategory | public/js/fixo-data-loader.js:49-55 | The filter never grows the catalogue. |
| DataLoader.InCategoryMembers | public/js/fixo-data-loader.js:49-55 | An entry is in the result iff it is in the catalogue with that category: the same keys and values, nothing missed. |
| DataLoader.InCategoryKeysDistinct | public/js/fixo-data-loader.js:49-55 | The filtered object has no duplicate keys when the catalogue has none. |
| DataLoader.MissingCategorySelectsUncategorised | public/js/fixo-data-loader.js:49-51 | With no argument, `value.category === undefined` keeps exactly the repairs without a category. |
| DataLoader.CategoryLookup | public/js/fixo-data-loader.js:49-55 | A key of the filtered object gives the catalogue's record iff that record has the category. |
| DataLoader.FixoData.constructor | public/js/fixo-data-loader.js:7 | The data store starts with empty fields. |
| DataLoader.FixoData.InitData | public/js/fixo-data-loader.js:10-30 | Each of the five fields is its global when defined, else `[]` or `{}`. |
| DataLoader.FixoData.TextTable | public/js/fixo-data-loader.js:34-35 | The language defaults to `cs`. The table is `translations[lang]`, else `translations.cs`, else `originalTexts`. |
| DataLoader.FixoData.T | public/js/fixo-data-loader.js:33-37 | The table's text if truthy, else the original text if truthy, else the key itself. An empty text comes only from an empty key. |
| DataLoader.FixoData.GetRepair | public/js/fixo-data-loader.js:40-42 | The record stored under the id, or null when there is none. |
| DataLoader.FixoData.GetRepairsByCategory | public/js/fixo-data-loader.js:45-56 | `'all'` gives the whole catalogue. Any other category, or a missing argument, gives the loop's filter, equal to `InCategory`. |
| DataLoader.UntranslatedFallsBack | public/js/fixo-data-loader.js:35-36 | With no translations, `t` gives the original text, else the key. |
| DataLoader.EmptyLanguageIsCzech | public/js/fixo-data-loader.js:34 | An empty or missing language reads as `cs`. |
| Js.Get | public/js/fixo-data-loader.js:41 | A lookup finds an entry of the object, or there is no entry with that key. |
| Js.GetEntry | public/js/fixo-data-loader.js:41 | In an object without duplicate keys, a lookup finds exactly the entry's value. |
| Js.Values | src/aiAnalyzer.js:152 | `Object.values` keeps the object's order and length. |
| Js.Decimal | fixo-v2/src/app/api/cron/cleanup/route.ts:35 | `String(n)` is a non-empty run of digits with no leading zero: it starts with `0` iff n is 0. |
| Js.DecimalValue | fixo-v2/src/app/api/cron/cleanup/route.ts:35 | The digits of `String(n)` read back as `n`. |
| Js.TrimStart | fixo-v2/prisma/seed.ts:116 | `parseInt` drops exactly the leading white space. |
| Js.DigitRun | fixo-v2/prisma/seed.ts:116 | `parseInt` reads exactly the longest leading run of digits. |
| Js.ParseInt | fixo-v2/prisma/seed.ts:116 | `parseInt` with no radix: skips white space and one sign, takes `0x` as base 16 and reads the longest digit run. An empty or all-white-space string gives `NaN`. |
| Js.ParseIntOfLeadingDigit | fixo-v2/prisma/seed.ts:116 | A string that starts with a non-zero digit reads as a positive number. |
| Js.ParseIntOfRun | fixo-v2/prisma/seed.ts:116 | A decimal run ended by a non-digit is read as its value. |
| Js.ParseIntOfDecimal | fixo-v2/prisma/seed.ts:116 | `parseInt(String(n) + suffix)` is `n` when the suffix starts with neither a digit nor `x`. |
| Seed.DifficultyOf | fixo-v2/prisma/seed.ts:42-48 | The five Czech labels map to VERY_EASY … VERY_HARD. Any other or missing label maps to MEDIUM. |
| Seed.TimeEstimate | fixo-v2/prisma/seed.ts:116 | The parsed leading integer, or 15 when it is missing, unparsable or 0. Never 0. |
| Seed.TimeEstimateOfMinutes | fixo-v2/prisma/seed.ts:116 | "`n` min" gives n, or 15 when n is 0. |
| Seed.UpsertCategory | fixo-v2/prisma/seed.ts:69-78 | An existing category is never modified. A missing one is created with the listed row. |
| Seed.UpsertRepair | fixo-v2/prisma/seed.ts:97-109 | An existing repair gets the new name, and the new icon when one is given, but keeps its `categoryId`. A new repair gets all three. Other repairs are untouched. |
| Seed.IssueRowFrom | fixo-v2/prisma/seed.ts:114-143 | The difficulty comes from the label map. The time estimate is `parseInt \|\| 15`, the risk score `riskScore \|\| 1` (never 0), and the safety warnings default to `[]`. A missing description keeps the prior one. |
| Seed.StepRowFrom | fixo-v2/prisma/seed.ts:153-161 | Time defaults to "1 min" and icon to "🔧", as falsy defaults. The number, action and hint are copied. |
| Seed.StepRows | fixo-v2/prisma/seed.ts:152-163 | One row per step, in order. |
| Seed.SeedCategories | fixo-v2/prisma/seed.ts:68-79 | Defines the category loop as a fold of upserts, entry by entry in order. |
| Seed.SeedIssue | fixo-v2/prisma/seed.ts:115-177 | Defines one issue's pass: the upserted issue row, its steps and its tools replaced. |
| Seed.SeedIssues | fixo-v2/prisma/seed.ts:114-178 | Defines the issue loop as a fold of `SeedIssue`, in order. |
| Seed.SeedRepair | fixo-v2/prisma/seed.ts:88-178 | Defines one repair's pass: skipped unless its category exists, else the repair upsert, its issue loop and both counters advanced. |
| Seed.SeedRepairs | fixo-v2/prisma/seed.ts:87-179 | Defines the repair loop as a fold of `SeedRepair`, in order. |
| Seed.Seeded | fixo-v2/prisma/seed.ts:87-95 | The repairs the loop does not skip: exactly those whose category exists. |
| Seed.SeedCategoriesKeepsExisting | fixo-v2/prisma/seed.ts:68-79 | The category loop never changes an existing row, and adds every listed slug. |
| Seed.SeedCategoriesAddsMissing | fixo-v2/prisma/seed.ts:68-79 | Every listed slug the table lacked gets its listed row. |
| Seed.FreshCategoriesContents | fixo-v2/prisma/seed.ts:8-39 | In an empty database the category table stores every `categoryMap` row under its slug, and holds no other slug. |
| Seed.FreshCategoriesCoverBuiltIn | fixo-v2/prisma/seed.ts:8-39 | The four categories the built-in repairs use are seeded. |
| Seed.SeedIssueReplaces | fixo-v2/prisma/seed.ts:118-177 | Seeding an issue upserts its row and replaces its steps and tools outright, so earlier ones are gone. No other issue is touched. |
| Seed.LastWithId | fixo-v2/prisma/seed.ts:114 | A listed issue with that id that no later record shares, or none when no issue has it. |
| Seed.SeedIssuesLastWins | fixo-v2/prisma/seed.ts:114-178 | After a repair's issue loop, an id's steps and tools are those of the last record with that id. Ids not listed keep what they had. |
| Seed.SeedIssuesKeepsOtherRepairs | fixo-v2/prisma/seed.ts:114-178 | A repair's issue loop leaves other repairs' issues, steps and tools alone. |
| Seed.SeedRepairsCounts | fixo-v2/prisma/seed.ts:83-179 | The repair loop leaves categories alone. `repairCount` is the number of repairs not skipped. `issueCount` is the total number of their issues. |
| Seed.UnknownCategorySkipped | fixo-v2/prisma/seed.ts:87-95 | A repair whose category is missing changes nothing and is not counted. |
| Seed.SeedRepairsKeepsCategoryId | fixo-v2/prisma/seed.ts:97-109 | Once a repair row exists, no upsert changes its `categoryId`. |
| Seed.EffectiveRepairs | fixo-v2/prisma/seed.ts:58-64 | An unreadable file gives the built-in repairs. Otherwise the map is `data.repairs`, or `data` itself when that is absent. |
| Seed.SeededAllKnown | fixo-v2/prisma/seed.ts:87-95 | When every category exists, no repair is skipped. |
| Seed.IssueTotalOfSingles | fixo-v2/prisma/seed.ts:114-145 | One issue per repair means as many issues as repairs. |
| Seed.BuiltInShape | fixo-v2/prisma/seed.ts:201-326 | Each built-in repair has one issue and a category from `categoryMap`. |
| Seed.BuiltInFullySeeded | fixo-v2/prisma/seed.ts:201-326 | Seeding the built-in repairs after the categories counts 5 repairs and 5 issues. |
| Seed.SeedCategoryTable | fixo-v2/prisma/seed.ts:68-79 | The category loop equals the category fold. |
| Seed.ReplaceSteps | fixo-v2/prisma/seed.ts:148-163 | Delete-then-create leaves exactly the step rows, in order. Other issues' steps are untouched. |
| Seed.ReplaceTools | fixo-v2/prisma/seed.ts:166-177 | Delete-then-create leaves exactly the tool names, in order. Other issues' tools are untouched. |
| Seed.SeedIssueRows | fixo-v2/prisma/seed.ts:114-178 | The issue loop equals the issue fold and counts one per issue. |
| Seed.SeedRepairTable | fixo-v2/prisma/seed.ts:83-179 | The repair loop, with both counters, equals the repair fold. |
| Seed.RunSeed | fixo-v2/prisma/seed.ts:50-198 | Categories first, then the effective repairs against the seeded categories. Last, the demo user is created unless its e-mail exists, and an existing one is left unchanged. |
| AuthError.ReadErrors | fixo-v2/src/app/auth/error/page.tsx:9-23 | Property access: an own message iff the code is in the table; an inherited member iff it is an `Object.prototype` name not in the table. |
| AuthError.ShownAsWritten | fixo-v2/src/app/auth/error/page.tsx:28 | The lookup as written yields a message or an inherited member. |
| AuthError.PrototypeCodeShowsNoMessage | fixo-v2/src/app/auth/error/page.tsx:28 | As written, `?error=toString` yields the inherited function, not a message. |
| AuthError.ErrorMessage | fixo-v2/src/app/auth/error/page.tsx:9-28 | No code gives the Default message. A known code gives exactly its message. An unknown code gives the Default message. The message is always one of the table's values. |
| AuthError.CorrectedAgreesOffPrototype | fixo-v2/src/app/auth/error/page.tsx:28 | For every code that is not a prototype member, the corrected lookup shows what the page shows. |
| AuthError.MessageIdentifiesCode | fixo-v2/src/app/auth/error/page.tsx:9-23 | A known code other than Default never shows the default message. |
| AuthError.MessagesAreDistinct | fixo-v2/src/app/auth/error/page.tsx:9-23 | Two different known codes show different messages. |

## Left out

- The OpenAI HTTP request itself: the prompt, headers, status, `response.json` and `JSON.parse`. Only its outcome is modelled, as an answer or a failure. `_createAnalysisPrompt` is not modelled.
- Floating point: confidences and `r * n` are exact reals. Rounding could in principle make `_randomConfidence` reach its upper bound; the model does not capture that.
- Clocks and timers: `Date.now()`, `toISOString()`, the day of the month and `_simulateProcessingTime` are parameters or left out. The base-36 random id suffix is an opaque string.
- Analyzer.LowerChar: models `toLowerCase` for ASCII, Latin-1 and Latin Extended-A (with `Ÿ`, U+0178) only, and leaves `İ` alone. Some other scripts' case mappings, and mappings that change a string's length, are not modelled.
- Analyzer.Simulated: a catalogue record whose `issues` is missing or empty makes the source throw a TypeError. The model reports it as an error, not a particular exception.
- A catalogue record without `name` would make the simulation throw on `name.toLowerCase()`. The model's repair record always has a name, so that error path cannot be expressed.
- An `onSuccess` callback that throws is caught by `useAnalysis`'s own `catch` after the result was stored. The model's callbacks are log entries and cannot throw.
- A failing Prisma call inside the `authorize` or `session` callbacks of the auth options is not modelled; those database calls always succeed in the model.
- `Object.entries` and `Object.values` list integer-like keys first, in ascending order, then the rest in insertion order. The model takes an object's entry sequence as already in that order and does not compute it from insertion order. Only the random pick's index-to-repair mapping depends on it.
- Fetch I/O in `useAnalysis`, and `fetchFromAPI` / `loadFromJSON` in the data loader: the replies are inputs, and the two load functions are not modelled.
- React's deferred state updates, `useSession`, `useMemo` and `useCallback`: state changes are applied in program order, and the callbacks are recorded in a log.
- The middleware's `config.matcher` regex and the NextAuth `session`, `pages` and `debug` options: this is routing configuration.
- `new URL(url).origin`: a function parameter; `None` stands for a url the constructor rejects.
- Prisma-generated ids: a repair's `categoryId` holds the category's slug, and an issue is keyed by its repair's slug and its own slug. A new user's id is supplied by the caller.
- Prisma distinguishes `undefined` (leave unchanged) from `null` (set null) in an update. The model treats a missing optional field as `undefined`.
- Seed: a repair with no `category` is treated as not found. Prisma would instead reject `slug: undefined` and end the script.
- Seed: `difficultyMap` and the auth error table are read by own properties only (see Findings for the error page). A label such as `toString` inherits a member in both.
- The data loader's `t` and `getRepair` read own properties only, so `Object.prototype` members are not modelled there. A global defined as `null` would make `initData`'s logging throw, which is not modelled.
- `window.FIXO` before `initData` has undefined fields, and `t` would throw. The model starts with empty fields.
- Js.ParseInt: digits are read exactly. Numbers beyond 2^53 do not lose precision as JavaScript's do.
- The seed script's `main().catch/finally` process exit and disconnect, and all console logging.

## Findings

| source | as written | input that shows it | evidently intended | confidence | as-written member | corrected member |
|---|---|---|---|---|---|---|
| fixo-v2/src/app/auth/error/page.tsx:28 | `errors[error]` reads the prototype chain of an object literal. | `?error=toString` (or `constructor`, `valueOf`, …) renders the inherited function where a message is expected. | Read own properties only, so an unknown code shows the Default message. | not executed | AuthError.PrototypeCodeShowsNoMessage | AuthError.ErrorMessage |
