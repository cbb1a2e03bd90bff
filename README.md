# MVP Launchpad — a verified model of its state machines and exporters

MVP Launchpad is a small React application. A user types a business idea.
Two generation services turn the idea into an MVP plan and landing-page copy.
The application shows both, keeps a history of past results in the browser's
`localStorage`, and limits each browser to five generations per calendar day.

This project models the logic behind that in Dafny and proves properties of it:

- `Usage` (`usage.dfy`): the daily usage gate. One storage key holds
  `{count, date}`. Reading that key purges a stale or malformed record. The
  in-memory copy of the count decides whether the limit is reached.
- `History` (`history.dfy`): the history store. It keeps entries most recent
  first, in memory, and mirrors them best-effort to a second storage key.
- `Orchestrator` (`app.dfy`): the generate handler. It has a single-flight
  flag and the limit check. It calls the two services in order, then commits
  the result to history and then to usage. It also models what the page
  shows: the latest result, and the paywall or the idea form.
- `PlanText` (`plan_text.dfy`): the plain-text export of a plan.
- `LandingPage` (`landing_page.dfy`): the feature-icon lookup with its star
  fallback, the preview's feature cards, and the stand-alone HTML page export.
- `Types` (`types.ts` records), `Storage` (`localStorage` as a map whose calls
  can throw), `Text` (concatenation, joining and splitting of strings, with
  placement and round-trip lemmas) and `Common` (`Option`, and `Completion`
  for a call that returns normally or throws).

Each imperative part of the source is a class whose fields are the hook's
state: `Usage.UsageTracker`, `History.HistoryStore`, `Orchestrator.App`, and
`Storage.Store` for the shared store. Each method's `ensures` says that its
new state is a pure function of the old state. The properties are proved as
lemmas over those functions.

The world outside is passed in as inputs:

- the date text (`toDateString`), the entry's id and timestamp, and the year;
- whether each storage write fits the quota;
- the two generation services, given as functions that return `Ok(v)` or
  `Fail`.

Three behaviours of the code worth knowing; the model follows the code:

- The gate reads the in-memory count, not today's stored count. A page left
  open across midnight stays closed until it is reloaded
  (`Usage.StaleMemoryAcrossMidnight`).
- The history commit and the usage commit do not form one transaction. The
  usage increment reads storage outside its `try`. If storage has become
  unavailable, that read throws after the history entry was already added.
  The handler then shows the error message next to the new result
  (`Orchestrator.Generate`, the case where the store is not available).
- If the usage write does not fit the quota, the count never moves, so the
  gate never closes (`Orchestrator.QuotaFullNeverCloses`).

## Model

| member | source | states |
|---|---|---|
| Types.ParseIcon | types.ts:21 | each of the six tags reads back as its own icon; any tag it accepts is one of the six |
| Types.ParseIconName | types.ts:21 | writing an icon's tag and reading it back gives the same icon, so the six tags are distinct |
| Usage.ReadUsage | hooks/useUsageTracker.ts:12-31 | for a working store it returns today's count (0 when the record is missing, blank, stale or malformed); a missing, blank or today-dated record leaves storage as it was; anything else is purged; only the usage key changes; an unavailable store throws and nothing changes |
| Usage.MountEffect | hooks/useUsageTracker.ts:35-37 | the in-memory count becomes today's stored count, and the store becomes exactly what `getUsageCount`'s read leaves, so the key is settled; it throws exactly when storage is unavailable, and then nothing changes |
| Usage.Increment | hooks/useUsageTracker.ts:41-52 | a successful write stores `{count: today's count + 1, date: today}` and memory holds that same count; a failed write leaves memory as it was, with the read's purge applied; a throwing read changes nothing; only the usage key changes |
| Usage.IncrementAfterPurge | hooks/useUsageTracker.ts:41-48 | after a stale or malformed record, a successful increment gives count 1, stored with today's date |
| Usage.MountSyncs | hooks/useUsageTracker.ts:35-37 | after mounting on a working store, memory agrees with storage |
| Usage.IncrementKeepsSync | hooks/useUsageTracker.ts:41-52 | from agreement, a successful increment keeps agreement and adds exactly one |
| Usage.IsLimitReached | hooks/useUsageTracker.ts:39 | the gate is closed exactly when the in-memory count is at least 5; the store plays no part |
| Usage.GateFollowsStoreWhenInSync | hooks/useUsageTracker.ts:39 | when memory agrees with storage, the limit is reached exactly when today's stored count is at least 5 |
| Usage.RolloverOnMount | hooks/useUsageTracker.ts:17-22 | yesterday's record at the limit is purged on mount whatever its count, the gate opens, and the next increment counts 1 |
| Usage.StaleMemoryAcrossMidnight | hooks/useUsageTracker.ts:39 | the gate can be closed while today's stored count is 0, because it compares the in-memory count |
| Usage.UsageTracker.constructor | hooks/useUsageTracker.ts:33 | the count starts at 0 |
| Usage.UsageTracker.GetUsageCount | hooks/useUsageTracker.ts:12-31 | the branch-by-branch read does what `ReadUsage` states |
| Usage.UsageTracker.Mount | hooks/useUsageTracker.ts:35-37 | the effect does what `MountEffect` states |
| Usage.UsageTracker.IncrementUsage | hooks/useUsageTracker.ts:41-52 | the read-modify-write does what `Increment` states |
| History.LoadEffect | hooks/useHistory.ts:9-19 | a missing or blank key leaves the list alone; a stored list replaces it; a malformed text is purged and the list is left alone; only the history key changes; it throws exactly when storage is unavailable |
| History.AddEntry | hooks/useHistory.ts:21-38 | the new list is the new entry (with the given plan, content, id and timestamp) followed by every old entry, unchanged and in order; a successful write stores exactly that list; a failed write leaves storage as it was and still updates memory |
| History.ClearEffect | hooks/useHistory.ts:40-47 | the list becomes empty even when the removal fails; on a working store the key is gone; only the history key changes |
| History.ReloadAfterAdd | hooks/useHistory.ts:29-36 | after a successful add, a reload shows the same list |
| History.ReloadAfterFailedAdd | hooks/useHistory.ts:31-35 | after a failed write, a reload shows the old stored list, not the list in memory |
| History.ReloadAfterClear | hooks/useHistory.ts:40-47 | after a clear on a working store, a reload shows no history and the key is absent |
| History.LoadMalformed | hooks/useHistory.ts:15-18 | loading an unparsable text on mount keeps the list empty and removes only that key |
| History.HistoryStore.constructor | hooks/useHistory.ts:7 | the history starts empty |
| History.HistoryStore.Load | hooks/useHistory.ts:9-19 | the effect does what `LoadEffect` states |
| History.HistoryStore.AddHistoryEntry | hooks/useHistory.ts:21-38 | the add does what `AddEntry` states |
| History.HistoryStore.ClearHistory | hooks/useHistory.ts:40-47 | the clear does what `ClearEffect` states |
| Orchestrator.Generate | App.tsx:18-36 | when loading or at the limit, nothing changes and nothing is called; otherwise loading is on and the error cleared before the first call, and loading is off at the end; the page service is called only after the plan succeeds, with that plan and the same idea; a failed step sets the fixed message and leaves history, usage and storage alone; success gives exactly one history commit and then one usage increment, with the new entry at the head; after success on a working store the history key holds the new list when its write fits, and the usage key holds `{count, today}` with the new in-memory count when its write fits; a failed history write leaves the history key as it was, and a failed usage write leaves the usage key settled with today's count unchanged; the count is unchanged when storage is unavailable or the usage write does not fit; an unavailable store is not changed at all; a failed plan step leaves exactly the plan request in the trace, and a failed page step exactly the plan and page requests; storage changes only at the two keys |
| Orchestrator.Guarded | App.tsx:19 | the handler returns at once exactly when a run is in flight or the limit is reached |
| Orchestrator.TodaysCountIgnoresHistory | App.tsx:28-29 | the history commit does not change the count the usage increment reads |
| Orchestrator.LatestResult | App.tsx:38 | the head of the history when there is one, else nothing |
| Orchestrator.ViewOf | App.tsx:54-78 | the paywall (with limit 5) is shown exactly when the limit is reached, otherwise the form; the error banner is shown for a non-empty error; the loader is shown while loading; the latest result and the history list are shown only when not loading and the history is not empty |
| Orchestrator.SuccessShowsNewEntry | App.tsx:28-38 | after a successful run on a working store, the page shows the new entry as the result and at the head of the list, with no error and no loader |
| Orchestrator.FailureShowsError | App.tsx:30-32 | after a failed step, the page shows the fixed error and keeps the previous result and panel |
| Orchestrator.GenerateKeepsSync | App.tsx:19-29 | from an idle state whose count agrees with storage, one run whose usage write fits keeps agreement, and the count grows by the number of commits (zero or one) |
| Orchestrator.SessionRespectsLimit | App.tsx:19-29 | over any sequence of runs on one day, starting in agreement and with usage writes that fit, at most `5 - count` generations are committed, whatever each service answers on each run (a retried idea may fail and then succeed) |
| Orchestrator.MountedPageInSync | App.tsx:15-16 | after the page loads on a working store (usage effect, then history effect), the usage effect has succeeded and memory agrees with the store, which is where `SessionRespectsLimit` starts |
| Orchestrator.QuotaFullNeverCloses | App.tsx:19-29 | when the usage write does not fit, a successful run adds to the history but leaves the count and the open gate as they were |
| Orchestrator.App.constructor | App.tsx:13-16 | idle, no error, count 0, empty history |
| Orchestrator.App.Mount | App.tsx:15-16 | the usage effect runs, then the history effect over the store it left; a throwing usage effect stops the page with nothing changed |
| Orchestrator.App.HandleGenerate | App.tsx:18-36 | the handler, run step by step through its try, catch and finally, does what `Generate` states |
| PlanText.Bulleted | components/MVPResult.tsx:16 | one `- ` bullet per item, in order |
| PlanText.BulletsRoundTrip | components/MVPResult.tsx:16-21 | when no item holds a line break, reading a list body back line by line gives the items unchanged and in order; the body is empty exactly for the empty list |
| PlanText.BulletsEnd | components/MVPResult.tsx:21 | a non-empty list body ends with its last bullet |
| PlanText.TechStackLines | components/MVPResult.tsx:18 | when no name holds a line break, the tech stack body is exactly three lines: Frontend, Backend, Database |
| PlanText.SectionsWritten | components/MVPResult.tsx:15-21 | the seven sections, in the fixed order, each a heading line followed by its body |
| PlanText.PlanLayout | components/MVPResult.tsx:14-21 | the text opens with `MVP Plan for: <name>` and a blank line; each section sits at its start; every section but the last is followed by one blank line and then the next; the last ends the text |
| PlanText.EmptyListSection | components/MVPResult.tsx:16-21 | an empty list leaves nothing after its heading line |
| PlanText.PlanEndsWithLastMetric | components/MVPResult.tsx:21 | the text ends with the last success-metric bullet, with no trailing blank line |
| PlanText.PlanText | components/MVPResult.tsx:13-23 | the export in closed form: the title, then the seven sections joined by one blank line |
| PlanText.PlanToText | components/MVPResult.tsx:13-23 | the eight successive appends build exactly the text the layout lemmas describe |
| LandingPage.Glyph | components/LandingPageResult.tsx:13-20 | the six table entries, component and colour class, one per icon |
| LandingPage.GlyphsDistinct | components/LandingPageResult.tsx:13-20 | each of the six icons has its own table entry |
| LandingPage.IconFor | components/LandingPageResult.tsx:98 | a known tag is drawn with its own entry; any other tag with the star's; the lookup is total |
| LandingPage.StarExactlyForStarOrUnknown | components/LandingPageResult.tsx:98 | the star is drawn exactly for `star` and for tags outside the six |
| LandingPage.IconCellAsWritten | components/LandingPageResult.tsx:98 | the lookup as written: an inherited `Object.prototype` name yields that inherited member instead of an icon |
| LandingPage.PrototypeTagsMissTheFallback | components/LandingPageResult.tsx:98 | for `toString` and `__proto__`, the lookup as written yields no star, while `IconFor` draws the star |
| LandingPage.WellTypedFeatureDrawn | components/LandingPageResult.tsx:98 | for a feature whose icon is one of the six declared tags, the lookup as written and the corrected lookup draw the same icon |
| LandingPage.PreviewCards | components/LandingPageResult.tsx:96-102 | one card per feature, in order, with the feature's icon (with the fallback), title and description; the icon is the corrected lookup `IconFor`, so for `toString` or `__proto__` the model draws a star where the code does not (see Findings) |
| LandingPage.FeatureBlock | components/LandingPageResult.tsx:26-31 | one feature's block: the fixed markup around its title and then its description |
| LandingPage.FeatureBlockLayout | components/LandingPageResult.tsx:26-31 | a feature block holds the title, then the description, each whole |
| LandingPage.FeatureBlocks | components/LandingPageResult.tsx:26-31 | one block per feature, in order |
| LandingPage.FeaturesHtml | components/LandingPageResult.tsx:26-31 | the blocks of all features with nothing between them |
| LandingPage.FeaturesHtmlAppend | components/LandingPageResult.tsx:26-31 | the blocks of two lists follow each other with nothing between them |
| LandingPage.FeatureBlockAt | components/LandingPageResult.tsx:26-31 | every feature's block, the last one included, is found whole at the offset of the blocks before it |
| LandingPage.FeatureBlocksInOrder | components/LandingPageResult.tsx:26-31 | a feature's block ends before any later feature's block starts |
| LandingPage.FeatureBlocksAppend | components/LandingPageResult.tsx:26-31 | the blocks of two feature lists are the blocks of the first, then those of the second |
| LandingPage.FeaturesHtmlIgnoresIcons | components/LandingPageResult.tsx:26-31 | the exported features do not depend on the icons |
| LandingPage.DecimalText | components/LandingPageResult.tsx:62 | the year is written as at least one decimal digit, with no leading zero when it has more than one |
| LandingPage.DecimalRoundTrip | components/LandingPageResult.tsx:62 | the written year reads back as the same number |
| LandingPage.GenerateHtml | components/LandingPageResult.tsx:25-68 | the page: the fixed template pieces with the name, headline, subheading, call to action, features, year and name between them |
| LandingPage.PagePiece | components/LandingPageResult.tsx:33-67 | every piece of the page, fixed text or inserted value, is found whole at its offset |
| LandingPage.PagePiecesInOrder | components/LandingPageResult.tsx:50-62 | the pieces appear in order: name in the title, then headline, subheading, call to action, features, year and name in the footer |
| LandingPage.PageStartsWithHead | components/LandingPageResult.tsx:33-39 | the page opens with its fixed head, which ends in `<title>`, so the project name follows |
| LandingPage.PageIgnoresIcons | components/LandingPageResult.tsx:25-68 | the exported page does not depend on the features' icons |

## Left out

- The two generation services (`services/geminiService.ts`) are foreign calls. Each is a function parameter that returns `Ok(v)` or `Fail`. Their API-key check and response schemas are not part of this model.
- `JSON.parse` and `JSON.stringify` are library calls. A stored text is described by what parsing makes of it (`Storage.StoredValue`), not by its characters.
- History.LoadEffect: a stored text that parses to something other than an array (such as a usage record under the history key) is treated as malformed and purged. The code would instead put that value into the history state as it is.
- Usage.ReadUsage: the stored `count` is taken to be an integer. The code returns whatever value the parsed record holds.
- Usage.Increment: one `today` stands for both clock reads in `incrementUsage` (inside `getUsageCount` and after it). A call that straddles midnight is not modelled.
- The clock, `crypto.randomUUID`, `toDateString`, `toISOString` and `getFullYear` are inputs. Whether a storage write fits the quota is an input too.
- Asynchrony is not modelled. The handler runs to completion in one step, and the `isLoading` flag is the only mutual exclusion. Cross-tab races on `localStorage` are not modelled.
- React rendering is modelled only as the `Orchestrator.View` record of what is shown. Markup, styles, clipboard writes, the `copied` flag and its timer are not modelled. The components `Hero`, `HistoryItem`, `HistorySection`, `Paywall`, `ResultCard` and `Loader` are not part of this model. The empty-idea check exists only in the form's button, not in the handler.
- React's batching, and the double invocation of a state updater in development mode (which would write the history twice), are not modelled.
- Orchestrator.App.Mount: an effect that throws ends the page. The model stops there and does not model React's error-boundary behaviour.

## Findings

| source | as written | input that shows it | evidently intended | confidence | as-written member | corrected member |
|---|---|---|---|---|---|---|
| components/LandingPageResult.tsx:98 | the icon is `featureIcons[feature.icon]`, or the star entry when that is falsy; the lookup is on an object literal, which also finds the names every object inherits | a feature whose `icon` is `toString` (the inherited function is drawn, so no icon) or `__proto__` (the inherited `Object.prototype`, an object React refuses to render) | any tag outside the six falls back to the star icon | not executed; high that the fallback is skipped, medium for the render failure | LandingPage.PrototypeTagsMissTheFallback | LandingPage.IconFor |
