# Expert matching for the Alfie trip-guide widget, in Dafny

This project models the core of the Alfie chat widget, a Next.js application that writes a trip guide from a traveller's questionnaire and matches it with local outdoor experts. The model covers these parts:

- **Selector** (`Js`, `ExpertSelection`): the prompt it sends to the language model, and the checks the model's free-text reply must pass. A single-destination guide needs one known expert id or `NO_MATCH`. A multi-idea guide needs exactly three distinct known ids.
- **Planner** (`TripPlanner`): it requests the guide and the expert pool together, then fails, degrades to the guide alone, or validates the model's choice. It has its own, slightly different copy of the reply checks.
- **Expert directory** (`ExpertDirectory`): it maps store records to experts, with a process-wide single-slot cache in front of the store.
- **HTTP routes** (`GenerateTripRoute`, `SelectExpertRoute`, `SubmitEmailRoute`, `ErrorRules`): request validation, and the ordered keyword classifiers that turn error texts into status codes. It also covers the CRM contact built from the questionnaire through JavaScript `||` fallback chains, and the e-mail pattern.
- **Guide page** (`GuideParser`): the parser that reads five quick facts and the sections out of a guide's text, and the e-mail gate with its session memory.
- **Loading card** (`LoadingFacts`): the message list chosen for a destination, and its rotation.
- **Migration route** (`LocationMigration`): it groups destination records per expert and writes each expert's locations back.

Remote services are inputs rather than calls, each given as its outcome (a value, or what it throws):

- the language model, the record store and the CRM;
- `JSON.parse` and `JSON.stringify`;
- the clock.

The JavaScript semantics the code relies on are stated once, in `Js`:

- truthiness;
- `||`;
- `String(v)`;
- `includes`;
- `trim` with the ECMAScript whitespace set;
- `split` and `join`;
- `SameValueZero` for `Set`;
- case folding under a regular expression's `i` flag.

Code that updates state step by step is modelled imperatively:

- the guide parser's loops (`ParseFacts`, `ScanLine`, `ParseSections`, `ReadSection`);
- the e-mail gate (`EmailGate`);
- the loading card's rotation (`FactRotator`);
- the expert cache (`ExpertCache`);
- the planner's procedure;
- the migration's grouping and update loops.

Each of these is proved against a function that specifies it. The rest is functions and lemmas.

## Model

| member | source | states |
|---|---|---|
| Js.Trim | src/components/TripGuide/EmailGatedTripGuide.tsx:75 | the trimmed text is a slice of the input, everything cut away is whitespace, and neither of its ends is whitespace |
| Js.TrimIdempotent | src/components/TripGuide/EmailGatedTripGuide.tsx:75 | trimming an already trimmed line changes nothing |
| Js.ToLower | src/components/TripGuide/TripGuideLoading.tsx:70 | lower-casing keeps the length and maps each character on its own, ASCII capitals to small letters |
| Js.IncludesIff | src/components/TripGuide/TripGuideLoading.tsx:72 | `includes` holds exactly when the searched text occurs at some offset |
| Js.JoinSplit | src/components/TripGuide/EmailGatedTripGuide.tsx:75 | splitting on one character and joining on it again gives the text back, so no line is lost |
| Js.SplitJoin | src/components/TripGuide/EmailGatedTripGuide.tsx:75 | lines joined by a separator that none of them contains split back into the same lines |
| Js.Or | src/app/api/submit-email/route.ts:36-40 | `a \|\| b` is truthy exactly when one operand is, and is `a` whenever `a` is truthy |
| ErrorRules.FirstMatch | src/app/api/generate-trip-with-experts/route.ts:52-68 | the rule found is the first whose keywords the text mentions: it matches, and no earlier rule does |
| ErrorRules.Classify | src/app/api/select-expert/route.ts:103-172 | the answer is the verdict of the first rule the text matches, and the fallback when it matches none |
| ErrorRules.InsufficientQuotaIsQuota | src/app/api/generate-trip-with-experts/route.ts:53 | a text containing "insufficient_quota" contains "quota", so the second keyword of the quota test never changes its outcome |
| ExpertDirectory.FromRecord | src/lib/simpleExpertFetcher.ts:37-51 | id is the record id; name defaults to 'Expert' and profession to 'Professional Guide'; the bio repeats the one-line bio; the avatar is the first photo exactly when there is one |
| ExpertDirectory.FromRecords | src/lib/simpleExpertFetcher.ts:37-51 | one expert per record, in record order |
| ExpertDirectory.Fetched | src/lib/simpleExpertFetcher.ts:18-62 | a populated slot answers as it is; otherwise the mapped records, or the store's error rethrown |
| ExpertDirectory.ExpertCache.constructor | src/lib/simpleExpertFetcher.ts:16 | the slot starts empty |
| ExpertDirectory.ExpertCache.FetchAll | src/lib/simpleExpertFetcher.ts:18-62 | the store is contacted exactly when the slot is empty; a cached list, even an empty one, is returned unchanged; a success stores and returns the same list; a failure rethrows and leaves the slot empty |
| ExpertDirectory.ExpertCache.GetCached | src/lib/simpleExpertFetcher.ts:65-67 | returns the slot and changes nothing |
| ExpertDirectory.ExpertCache.Clear | src/lib/simpleExpertFetcher.ts:70-72 | empties the slot |
| ExpertDirectory.FetchTwice | src/lib/simpleExpertFetcher.ts:18-62 | after a successful fetch a second one answers the same list without contacting the store, whatever the store would now say; after a failed one the store is asked again |
| ExpertSelection.Find | src/lib/expertSelector.ts:106 | finds an expert exactly when some pool expert has the id, and what it finds is the first pool member with that id, as `find` returns |
| ExpertSelection.ExpertLines | src/lib/expertSelector.ts:55-71 | one line per pool expert, in pool order |
| ExpertSelection.BuildRequest | src/lib/expertSelector.ts:62-73 | the request starts with the selection instructions and ends with the reminder to return only the ids; the planner (`TripPlanner.AskForExperts`) sends this same request |
| ExpertSelection.RequestShowsGuide | src/lib/expertSelector.ts:62-66 | the request shows the guide's flow type after the guide banner, and its content, as `String` renders it, after its label |
| ExpertSelection.RequestListsEveryExpert | src/lib/expertSelector.ts:62-73 | the request sent to the model contains the `ID: … \| Profession: … \| Bio: …` line of every pool expert |
| ExpertSelection.StripQuotes | src/lib/expertSelector.ts:103 | no backtick or double quote is left, every character kept comes from the input, the text never grows, and a text without them is unchanged |
| ExpertSelection.CleanId | src/lib/expertSelector.ts:103 | the id read from a single-destination reply has no quote characters and no surrounding whitespace |
| ExpertSelection.CheckSingle | src/lib/expertSelector.ts:106-108 | accepted exactly when the id is `NO_MATCH` or a pool id; the error names the id |
| ExpertSelection.FirstUnknown | src/lib/expertSelector.ts:124-128 | finds nothing exactly when every element is a pool id; otherwise the first element that is not one |
| ExpertSelection.CheckTriple | src/lib/expertSelector.ts:114-128 | accepted exactly when the value is an array of three distinct texts, all pool ids, returned in the model's order; refused for length first, then duplicates, then unknown ids, naming the first element that is not a pool id |
| ExpertSelection.TripleIdsDistinct | src/lib/expertSelector.ts:119-122 | an accepted triple holds three different pool ids |
| ExpertSelection.ParseSelection | src/lib/expertSelector.ts:101-134 | single-destination: accepted exactly when the cleaned id is `NO_MATCH` or a pool id. Multi-idea: accepted exactly when the reply parses to a valid triple, and every failure carries the "Failed to parse expert IDs array: " prefix. Any other flow: refused as unsupported |
| ExpertSelection.FailedSelection | src/lib/expertSelector.ts:143-150 | a failure carries its message, an empty list for multi-idea and `NO_MATCH` for any other flow |
| ExpertSelection.SelectBestExpert | src/lib/expertSelector.ts:38-152 | falsy content, whatever its type, fails first, and a failed or empty pool fails next, each before the model is asked; truthy content of any type, an array included, goes on. The request holds the guide and every expert. A model call that throws fails with its `Error` message or 'Unknown error occurred'; an empty or absent reply fails; a reply the parse step refuses fails with the parse step's message. Success holds exactly when the parse step accepts the trimmed reply |
| ExpertSelection.SuccessfulSelectionIsValid | src/lib/expertSelector.ts:101-141 | whatever the model replies, a successful selection is one valid id or three distinct pool ids, and only the two known flows succeed |
| ExpertSelection.Details | src/lib/expertSelector.ts:165-170 | no more experts than ids, each a pool member whose id is not dropped; with only known ids, one expert per id in order |
| ExpertSelection.DetailsConcat | src/lib/expertSelector.ts:165-170 | the experts for a list of ids are those of its pieces, in the same order |
| ExpertSelection.DetailsOfOne | src/lib/expertSelector.ts:165-170 | one id gives its pool expert, or nobody when the id is dropped or unknown |
| ExpertSelection.SelectedExpertsDetails | src/lib/expertSelector.ts:161-171 | drops `NO_MATCH` and unknown ids and returns no more experts than ids; a single id gives its pool expert, or nobody when it is `NO_MATCH` or unknown |
| ExpertSelection.SelectedDetailsInOrder | src/lib/expertSelector.ts:161-171 | the experts of a list of ids are those of its pieces, in order, and a one-element list gives what the single id gives |
| ExpertSelection.DetailsOfValidSelection | src/lib/expertSelector.ts:161-171 | `NO_MATCH` names nobody; when no expert has the id `NO_MATCH`, any other valid selection names one expert per id, in order |
| TripPlanner.ValidateReply | src/lib/integratedTripPlannerWithExperts.ts:144-167 | single-destination as in the selector; every other flow must parse to three distinct pool ids, and a parse error surfaces as its bare message |
| TripPlanner.ValidatorsAgree | src/lib/integratedTripPlannerWithExperts.ts:144-167 | on the two known flows the planner and the selector accept the same replies and read the same ids; on any other flow the selector refuses while the planner still reads a triple |
| TripPlanner.EmptyPoolOnlyNoMatch | src/lib/integratedTripPlannerWithExperts.ts:144-167 | with an empty pool the only reply accepted is single-destination `NO_MATCH` |
| TripPlanner.GenerateTripWithExperts | src/lib/integratedTripPlannerWithExperts.ts:41-199 | multi-idea uses the inspire generator and any other flow the planning one. The model is asked only when the guide and the pool both arrived. A guide failure fails with no guide. A pool failure gives the guide with `[]` or `NO_EXPERTS`, the note and a zero selection time. Every failure drops the guide and reports both phases as 0 |
| TripPlanner.AskForExperts | src/lib/integratedTripPlannerWithExperts.ts:104-183 | the request lists the guide and every expert; a model call that throws fails with its message; otherwise the trimmed reply decides |
| TripPlanner.SelectionOutcome | src/lib/integratedTripPlannerWithExperts.ts:137-183 | success exactly when the reply is non-empty and passes the planner's checks, with the guide, the ids read and the timings; otherwise the check's message, no guide, and both phases 0 |
| TripPlanner.ReplyText | src/lib/integratedTripPlannerWithExperts.ts:134 | a non-empty text is the trimmed message content |
| TripPlanner.Failed | src/lib/integratedTripPlannerWithExperts.ts:185-197 | an `Error`'s message, or "Unknown error occurred"; no guide, no ids, both phases 0 |
| TripPlanner.PlannerExpertsDetails | src/lib/integratedTripPlannerWithExperts.ts:204-212 | a failed fetch rejects; otherwise both sentinels and unknown ids are dropped and no more experts than ids are returned; a single id gives its pool expert, or nobody when it is a sentinel or unknown |
| TripPlanner.PlannerDetailsInOrder | src/lib/integratedTripPlannerWithExperts.ts:204-212 | the experts of a list of ids are those of its pieces, in order, and a one-element list gives what the single id gives |
| TripPlanner.DegradedNamesNoExpert | src/lib/integratedTripPlannerWithExperts.ts:204-212 | a degraded outcome's ids name no expert |
| GenerateTripRoute.OutcomeVerdict | src/app/api/generate-trip-with-experts/route.ts:49-68 | the first keyword group mentioned decides, in the order quota, rate limit, auth, network, store; no text or no match is a 500 |
| GenerateTripRoute.ThrownReply | src/app/api/generate-trip-with-experts/route.ts:90-158 | only an `Error` is classified, in the order quota, rate limit, auth, store (206), network; anything else is a 500; the reply is always one of the fixed texts |
| GenerateTripRoute.Post | src/app/api/generate-trip-with-experts/route.ts:16-159 | an unreadable or `null` body is answered as a thrown error. Missing fields, then an unknown flow, each give a 400 before planning. Any successful plan is a 200 with guide, ids and timing. A failed plan keeps its own error text and timing, with the status its error text classifies to |
| GenerateTripRoute.GetRequest | src/app/api/generate-trip-with-experts/route.ts:162-177 | always 405 |
| GenerateTripRoute.RejectedBeforePlanning | src/app/api/generate-trip-with-experts/route.ts:21-40 | a refused request never depends on the planner and is never a 200 |
| GenerateTripRoute.StoreAndNetworkDisagree | src/app/api/generate-trip-with-experts/route.ts:62-148 | an error naming both the store and the network is a 503 network error as an outcome but a 206 when thrown |
| GenerateTripRoute.QuotedIdCanReadAsRateLimit | src/app/api/generate-trip-with-experts/route.ts:56-58 | the planner's unknown-id error quotes the id, so an id containing "429" is answered as a rate limit |
| SelectExpertRoute.ThrownReply | src/app/api/select-expert/route.ts:99-173 | the first keyword group decides, in the order quota, rate limit, auth, store, network, with its status and kind; anything else is a 500 `unknown`; the raw text is never returned |
| SelectExpertRoute.CheckBody | src/app/api/select-expert/route.ts:32-64 | missing guide, then incomplete guide, then unknown flow, each a 400 `validation_error`; no answer exactly when the body passes |
| SelectExpertRoute.GuideOf | src/app/api/select-expert/route.ts:81 | the guide handed to the selector keeps the posted flow, one of the two known ones, and the posted content as it is, whatever its type, which is truthy |
| SelectExpertRoute.Answer | src/app/api/select-expert/route.ts:27-174 | a refused body is answered by its check; a failed pool by the classifier; an empty pool is a 404 `no_experts`; an admitted body with a non-empty pool always reaches the model, with the request built from its guide; a failed selection is a 500 with the selector's message or "Expert selection failed"; a 200 carries ids valid for the flow |
| SelectExpertRoute.Post | src/app/api/select-expert/route.ts:27-174 | answers as `Answer` over the pool the cache gives; a refused body leaves the cache alone, and an admitted one keeps the fetched list cached, or the slot empty when the store failed |
| SelectExpertRoute.GetRequest | src/app/api/select-expert/route.ts:177-182 | always 405 |
| SelectExpertRoute.RefusedBeforeSelection | src/app/api/select-expert/route.ts:32-78 | a refused body or an empty pool never depends on the model's reply and is never a 200 |
| SubmitEmailRoute.EmailTest | src/app/api/submit-email/route.ts:21-22 | the test holds exactly when the text matches `^[^\s@]+@[^\s@]+\.[^\s@]+$` |
| SubmitEmailRoute.EmailTestAt | src/app/api/submit-email/route.ts:21 | at the first '@', the pattern holds exactly when the local part is non-empty, neither part has whitespace or another '@', and a '.' in the domain is neither its first nor its last character |
| SubmitEmailRoute.Pick | src/app/api/submit-email/route.ts:36-39 | truthy exactly when some key holds a truthy value, and then the first such value |
| SubmitEmailRoute.Chain | src/app/api/submit-email/route.ts:36-52 | the first truthy value of the key list, else 'Not specified'; never falsy |
| SubmitEmailRoute.ActivityPreferences | src/app/api/submit-email/route.ts:55-59 | 'Not specified' when both activity keys are falsy, else the JSON of the chosen value, wrapped in a list when it is not one |
| SubmitEmailRoute.GuidedPreferences | src/app/api/submit-email/route.ts:62-69 | 'Not specified' when all three keys are falsy; `travel_style` only when both guided keys are falsy, and always wrapped |
| SubmitEmailRoute.FieldsOf | src/app/api/submit-email/route.ts:75-90 | planning_stage is the flow and full_survey_data the questionnaire's JSON; with a truthy flow and a `JSON.stringify` that never returns the empty text, every field is filled |
| SubmitEmailRoute.ContactOf | src/app/api/submit-email/route.ts:75-90 | the contact carries the body's e-mail, names and flow; with a `JSON.stringify` that never returns the empty text, every custom field is filled |
| SubmitEmailRoute.Post | src/app/api/submit-email/route.ts:5-123 | a missing field is a 400 before the e-mail check, and a bad e-mail a 400. Saved exactly when both checks pass and the CRM reports success, with the CRM id. Any other 500 carries one of the two fixed texts |
| SubmitEmailRoute.GetRequest | src/app/api/submit-email/route.ts:126-131 | always 405 |
| SubmitEmailRoute.TravelStyleListIsNested | src/app/api/submit-email/route.ts:66-68 | a `travel_style` list is sent nested one level deeper than the same list under a guided key |
| GuideParser.Lines | src/components/TripGuide/EmailGatedTripGuide.tsx:75 | every line kept is non-empty and already trimmed |
| GuideParser.TrimmedNonEmpty | src/components/TripGuide/EmailGatedTripGuide.tsx:75 | no more lines than parts, each non-empty and trimmed; a single part gives its trimmed text, or nothing when that is empty |
| GuideParser.TrimmedNonEmptyConcat | src/components/TripGuide/EmailGatedTripGuide.tsx:75 | the lines of a list of parts are those of its pieces, in order, since each part is kept or dropped on its own |
| GuideParser.LinesOfJoin | src/components/TripGuide/EmailGatedTripGuide.tsx:75 | a text of lines joined by line feeds yields those lines, trimmed, with the blank ones dropped |
| GuideParser.Capture | src/components/TripGuide/EmailGatedTripGuide.tsx:80-90 | a capture is non-empty and holds no line terminator |
| GuideParser.CaptureOfTrimmedLine | src/components/TripGuide/EmailGatedTripGuide.tsx:91-92 | on a trimmed line a capture never trims to nothing, so a stored fact is always truthy |
| GuideParser.FirstCapture | src/components/TripGuide/EmailGatedTripGuide.tsx:87-96 | nothing exactly when no line matches, else the trimmed capture of the first matching line |
| GuideParser.FirstMatchWins | src/components/TripGuide/EmailGatedTripGuide.tsx:87-96 | on trimmed lines each fact is the trimmed capture of the first matching line and is never overwritten |
| GuideParser.ScanLine | src/components/TripGuide/EmailGatedTripGuide.tsx:88-95 | each key takes the line's trimmed capture unless it already holds a truthy fact |
| GuideParser.ParseFacts | src/components/TripGuide/EmailGatedTripGuide.tsx:78-96 | after the loops every key holds what reading the lines in order gives it |
| GuideParser.NextHeader | src/components/TripGuide/EmailGatedTripGuide.tsx:101-154 | the scan for the next header stays within the lines |
| GuideParser.NextHeaderIsNext | src/components/TripGuide/EmailGatedTripGuide.tsx:101-154 | the next header found is a header, and no line before it is one |
| GuideParser.OneSectionPerHeader | src/components/TripGuide/EmailGatedTripGuide.tsx:99-155 | from any position, the sections are titled by the header lines from there on, one each, in order |
| GuideParser.SectionsFollowHeaders | src/components/TripGuide/EmailGatedTripGuide.tsx:99-155 | one section per header line, in order, so lines before the first header belong to none |
| GuideParser.ReadSection | src/components/TripGuide/EmailGatedTripGuide.tsx:101-154 | a header opens a section, and the loop moves past it to the next header or the end |
| GuideParser.SectionAtKeyed | src/components/TripGuide/EmailGatedTripGuide.tsx:101-154 | a section opened at a header line is titled by it, keyed by its slug, and has a trimmed body |
| GuideParser.SectionsFromKeyed | src/components/TripGuide/EmailGatedTripGuide.tsx:99-155 | from any position there are no more sections than lines left, each keyed by the slug of its title, with a trimmed body |
| GuideParser.SectionsKeyed | src/components/TripGuide/EmailGatedTripGuide.tsx:99-155 | the guide has no more sections than lines, each keyed by the slug of its title, with a trimmed body |
| GuideParser.ParseSections | src/components/TripGuide/EmailGatedTripGuide.tsx:99-155 | the loop builds exactly the sections the headers define |
| GuideParser.Squash | src/components/TripGuide/EmailGatedTripGuide.tsx:109 | only small letters, digits and single '-' separators remain, every letter and digit is kept in order, the text is empty only when the input is, and a single letter or digit is kept as it is |
| GuideParser.SquashSeparators | src/components/TripGuide/EmailGatedTripGuide.tsx:109 | a non-empty run with no letter or digit becomes a single '-' |
| GuideParser.SquashConcat | src/components/TripGuide/EmailGatedTripGuide.tsx:109 | where a letter or digit sits at the join, the squashed text is the squashed pieces joined, so each run of separators becomes exactly one '-' in place |
| GuideParser.Slug | src/components/TripGuide/EmailGatedTripGuide.tsx:109 | a key holds only small letters, digits and single '-', keeps every letter and digit of the lower-cased title, and is no longer than it |
| GuideParser.SlugConcat | src/components/TripGuide/EmailGatedTripGuide.tsx:109 | titles joined where a letter or digit meets the join have the slugs of their pieces joined |
| GuideParser.SlugOfSeparators | src/components/TripGuide/EmailGatedTripGuide.tsx:109 | a title with no ASCII letter or digit has the key '-' |
| GuideParser.SlugOfLetter | src/components/TripGuide/EmailGatedTripGuide.tsx:109 | a one-character title that is an ASCII letter or digit is its own key, lower-cased |
| GuideParser.SquashShorter | src/components/TripGuide/EmailGatedTripGuide.tsx:143 | replacing runs by one '-' never lengthens the text |
| GuideParser.ParseGuide | src/components/TripGuide/EmailGatedTripGuide.tsx:74-158 | each fact is the first match's trimmed capture and never empty, and the sections are those the header lines define |
| GuideParser.Rejection | src/components/TripGuide/EmailGatedTripGuide.tsx:47-67 | a failed `fetch` or `response.json()` is rethrown unchanged; a `null` body throws a `TypeError` reading `success` when the response is ok and `error` otherwise; any other refused body throws an `Error` with `result.error` as text, or 'Failed to submit email' when that is falsy |
| GuideParser.Shown | src/components/TripGuide/EmailGatedTripGuide.tsx:67 | an `Error` shows its message, anything else the fixed text |
| GuideParser.EmailGate.constructor | src/components/TripGuide/EmailGatedTripGuide.tsx:30-32 | closed, idle, no error |
| GuideParser.EmailGate.Restore | src/components/TripGuide/EmailGatedTripGuide.tsx:35-41 | a submission remembered for this guide opens the gate; nothing else changes |
| GuideParser.EmailGate.BeginSubmit | src/components/TripGuide/EmailGatedTripGuide.tsx:44-45 | busy, with the earlier error cleared |
| GuideParser.EmailGate.FinishSubmit | src/components/TripGuide/EmailGatedTripGuide.tsx:47-70 | an accepted reply writes the session key and opens the gate, and a callback error is shown without closing it; any other reply changes neither and shows why; idle at the end |
| GuideParser.EmailGate.HandleEmailSubmit | src/components/TripGuide/EmailGatedTripGuide.tsx:43-71 | the gate opens exactly on an accepted reply, the key is written exactly then, the earlier error is always replaced, and the gate ends idle |
| GuideParser.RevisitAfterSubmit | src/components/TripGuide/EmailGatedTripGuide.tsx:35-71 | after an accepted submission, a later visit in the same session opens on mount; both gates then keep the invariant that a remembered submission means an open gate |
| LoadingFacts.FirstKey | src/components/TripGuide/TripGuideLoading.tsx:71-75 | the key found occurs in the destination, and no earlier key does |
| LoadingFacts.FactsFor | src/components/TripGuide/TripGuideLoading.tsx:67-78 | the list has 13 or 17 messages, so it is never empty |
| LoadingFacts.FactsForChoice | src/components/TripGuide/TripGuideLoading.tsx:67-78 | no destination, or an empty one, gives the generic messages. Otherwise the first table key that the lower-cased destination contains gives its four facts before them, and a destination containing no key gives the generic messages. The generic messages always close the list |
| LoadingFacts.JapanHasItsOwnFacts | src/components/TripGuide/TripGuideLoading.tsx:70-73 | "Japan" in any letter case gets the Japan facts first |
| LoadingFacts.Greeting | src/components/TripGuide/TripGuideLoading.tsx:125 | the message when truthy, else the default greeting |
| LoadingFacts.FactRotator.Current | src/components/TripGuide/TripGuideLoading.tsx:177 | the shown message, or none exactly when the index is past the list |
| LoadingFacts.FactRotator.constructor | src/components/TripGuide/TripGuideLoading.tsx:64-78 | the destination's list, from the first message |
| LoadingFacts.FactRotator.Tick | src/components/TripGuide/TripGuideLoading.tsx:81-87 | the next index modulo the list length, which stays in range |
| LoadingFacts.FactRotator.ChangeDestination | src/components/TripGuide/TripGuideLoading.tsx:64-87 | the list is recomputed and the index kept; the index is kept in range at least when it was below 13 |
| LoadingFacts.FactRotator.ChangeDestinationAndRestart | src/components/TripGuide/TripGuideLoading.tsx:64-87 | the list is recomputed and the index reset, so a message is always shown |
| LoadingFacts.ShowMessages | src/components/TripGuide/TripGuideLoading.tsx:81-87 | n ticks from the first message of a longer list reach message n |
| LoadingFacts.BlankAfterShrink | src/components/TripGuide/TripGuideLoading.tsx:64-87 | a Japan guide shown to its sixteenth message, then left without a destination, points past the generic list and shows nothing |
| LocationMigration.OrEmpty | src/app/api/migrate-expert-locations/route.ts:22-23 | the first truthy value, else the empty text |
| LocationMigration.GroupKey | src/app/api/migrate-expert-locations/route.ts:22-30 | skipped exactly when both the expert id and the name are falsy; otherwise the id when truthy, else the name |
| LocationMigration.Add | src/app/api/migrate-expert-locations/route.ts:51-56 | a truthy value ends up in the set, only it is added, and the set keeps its order, its distinct members and their truthiness |
| LocationMigration.AddAll | src/app/api/migrate-expert-locations/route.ts:51-56 | the set holds the old members and exactly the truthy values offered, with no repeats |
| LocationMigration.EmptyGroup | src/app/api/migrate-expert-locations/route.ts:33-41 | a new group has five empty sets |
| LocationMigration.Fill | src/app/api/migrate-expert-locations/route.ts:44-56 | the group keeps the first record's expert id and name |
| LocationMigration.FillSlot | src/app/api/migrate-expert-locations/route.ts:44-56 | each set gains the record's values for it; sub-region and specific location both go to the specific areas |
| LocationMigration.FillKeepsWellFormed | src/app/api/migrate-expert-locations/route.ts:44-56 | filling keeps every set free of falsy values and repeats |
| LocationMigration.AddRecord | src/app/api/migrate-expert-locations/route.ts:21-57 | a skipped record changes nothing; otherwise exactly its key is added, and other groups are untouched |
| LocationMigration.GroupDestinations | src/app/api/migrate-expert-locations/route.ts:20-57 | the loop builds the groups of all records |
| LocationMigration.GroupKeys | src/app/api/migrate-expert-locations/route.ts:20-57 | the group keys are exactly the keys of the records not skipped |
| LocationMigration.GroupsWellFormed | src/app/api/migrate-expert-locations/route.ts:44-56 | no set of any group holds a falsy value or a value twice |
| LocationMigration.GroupsCollectOffers | src/app/api/migrate-expert-locations/route.ts:44-56 | each set of a group holds exactly the truthy values its records offer to it |
| LocationMigration.Entry | src/app/api/migrate-expert-locations/route.ts:99-101 | a field is set exactly when its set is non-empty |
| LocationMigration.PayloadOf | src/app/api/migrate-expert-locations/route.ts:97-117 | each of the five fields is set exactly when its set is non-empty, always with its own group's set; no other entry; fields in the route's order Country, State, Region, Specific area, City / Town, so none repeats |
| LocationMigration.NonEmptyFrom | src/app/api/migrate-expert-locations/route.ts:98-116 | keeps only entries with a non-empty set, each the field its name ranks, from the given field on, in strictly increasing rank |
| LocationMigration.NonEmptyFromKeeps | src/app/api/migrate-expert-locations/route.ts:99-117 | every field from a given one on whose set is non-empty is in the update |
| LocationMigration.FieldsKept | src/app/api/migrate-expert-locations/route.ts:99-117 | each of the five fields is in the update exactly when its set is non-empty |
| LocationMigration.PayloadEmpty | src/app/api/migrate-expert-locations/route.ts:96-119 | the update is empty exactly when all five sets are |
| LocationMigration.LocationFor | src/app/api/migrate-expert-locations/route.ts:79-82 | the group by record id, and by 'Author Name' only when that misses and the name is truthy |
| LocationMigration.ExpertOutcome | src/app/api/migrate-expert-locations/route.ts:75-152 | no group gives 'skipped'; an empty payload gives 'skipped'; otherwise 'updated' with the payload, or 'failed' with the update's message |
| LocationMigration.UpdateCall | src/app/api/migrate-expert-locations/route.ts:119-122 | the store is asked to update the expert exactly when it has a group and a non-empty payload, and what it sends is that group's payload |
| LocationMigration.UpdateCalls | src/app/api/migrate-expert-locations/route.ts:74-153 | no more updates than experts, none of them empty |
| LocationMigration.CallMeansAttempt | src/app/api/migrate-expert-locations/route.ts:119-142 | an expert is asked to be updated exactly when its outcome is updated or failed |
| LocationMigration.UpdateCallsCounted | src/app/api/migrate-expert-locations/route.ts:74-153 | the store is asked for exactly as many updates as there are updated and failed results |
| LocationMigration.CallFromExpert | src/app/api/migrate-expert-locations/route.ts:74-153 | every update asked for is the call of some expert |
| LocationMigration.ExpertCallListed | src/app/api/migrate-expert-locations/route.ts:74-153 | every expert's call, when it has one, is asked for |
| LocationMigration.UpdateCallsExact | src/app/api/migrate-expert-locations/route.ts:74-153 | the updates asked for are exactly the calls of the experts |
| LocationMigration.CountsAddUp | src/app/api/migrate-expert-locations/route.ts:70-153 | every result is counted once, as updated, skipped or failed |
| LocationMigration.UpdateOne | src/app/api/migrate-expert-locations/route.ts:75-152 | one pass gives the expert's outcome and its store call |
| LocationMigration.Outcomes | src/app/api/migrate-expert-locations/route.ts:72-153 | one result per expert |
| LocationMigration.OutcomesAt | src/app/api/migrate-expert-locations/route.ts:72-153 | result i is the outcome of expert i, independent of the others |
| LocationMigration.UpdateExperts | src/app/api/migrate-expert-locations/route.ts:70-153 | the loop's results, counters and store calls are those the outcomes define |
| LocationMigration.Post | src/app/api/migrate-expert-locations/route.ts:7-179 | a failed read is a 500 with its message. Otherwise there is one result per expert, in order. The summary counts the records, the groups and the experts. Updated, skipped and failed add up to the experts |

## Left out

- Concurrency. `Promise.allSettled` in the planner is modelled by its settled outcomes, which are inputs.
- Remote calls. The language model, the record store's reads and updates, and the CRM client are not modelled; their outcomes are parameters (a value or what it throws).
- The selection instructions. The prompt module is not part of this model; its text is a parameter.
- The dynamic imports of the prompt and of the client are not modelled.
- `JSON.parse` and `JSON.stringify` are function parameters. No JSON grammar is modelled.
- The clock. `Date.now()` readings are integer parameters, and `new Date().toISOString()` is a text parameter.
- `console` logging is left out.
- The 100 ms pause between migration updates is left out, because it only delays.
- The `maxRecords` limits of the two table reads are treated as behaviour of the store: the model takes the records the reads return.
- Property names that collide with `Object.prototype` (such as `constructor` or `__proto__`) are left out. This affects both property access on parsed bodies and the migration's plain-object dictionary. The model treats every key as an ordinary own property.
- Js.ToLower: only ASCII letters are lower-cased. The section keys therefore do not model the two characters whose `toLowerCase` is an ASCII letter: capital I with dot above, and the Kelvin sign. The `i` flag of the regular expressions is modelled exactly, since without the `u` flag it folds only ASCII.
- SelectExpertRoute.GuideOf: the guide's title and id are rendered with `String`, but only the flow type and the content reach the selector's request.
- GuideParser.NullRead: the text of the `TypeError` for reading a property of a `null` body follows the V8 engine's wording. Firefox and Safari word it differently, and the model does not capture their text.
- The selector's guard against a `null` guide is left out, because both callers always pass a guide.
- The usage notes sent with the 405 answers are left out; only the status and the error text are modelled.
- The session storage's own failures are left out (storage that is unavailable or full throws).
- Rendering is left out: the accordion, chips and expert cards, the loading card's layout, and the progress dots.
- The diagnostic store routes, the test panel and fixtures, and the command-line copy of the migration are not part of this model.
- LoadingFacts.Message: the loading messages are an enumeration, and `Message` gives each one's exact text. Lists and indices are proved over the enumeration.
- LoadingFacts.FactsFor: its own contract states only the two possible lengths. The full characterisation is in `FactsForChoice`.

## Findings

| source | as written | input that shows it | evidently intended | confidence | as-written member | corrected member |
|---|---|---|---|---|---|---|
| src/components/TripGuide/TripGuideLoading.tsx:64-87 | a new destination recomputes the list and restarts the timer, but `currentFactIndex` is not reset | a guide for "Japan" (17 messages) shown until message 16, then re-rendered without a destination: index 15 on a 13-message list, so the fact card is blank until the next tick | the index goes back to the first message whenever the list changes | not executed | LoadingFacts.BlankAfterShrink | LoadingFacts.FactRotator.ChangeDestinationAndRestart |
