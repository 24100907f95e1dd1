# TurboScout core, modelled in Dafny

TurboScout is a scouting app for a robotics competition. It has a form that
scouts fill in during a match, a dashboard that reads the team's published
scouting sheet, and an offline-caching service worker. This project models
the parts of it that carry logic, and proves what each part promises:

- **The offline-caching service worker.** There are two revisions:
  - `ServiceWorkerV4`: cache generation `turboscout-cache-v4`.
  - `ServiceWorkerV1`: cache generation `turboscout-cache-v1`.

  Each revision is a class whose fields are the browser's CacheStorage and a
  log of the platform actions it requested (`skipWaiting`, `clients.claim`).
  Its install, activate, fetch and message handlers are methods that update
  those fields. The Cache and CacheStorage interfaces of the W3C Service
  Workers specification are modelled as values in `CacheStorage`: `open`,
  `match`, `put`, the atomic `addAll`, and the purge of older generations.
  The network is an input that either delivers a response or fails.
- **The page-side registrar** (`Registrar`). A class records the listeners
  that `registerSW` attaches and the `SKIP_WAITING` messages and reloads it
  performs. The browser's events (`load`, `updatefound`, `statechange`) are
  methods on it.
- **The scouting form** (`Scout`):
  - the `sanitize` normaliser;
  - the fixed 28-column tab-separated row and its header line;
  - the integer scoring rules;
  - the climb chip, the climb-level toggle and the clear-for-next-match
    transformer;
  - the match, increment and team input clamps;
  - the defense-shift rule.
- **The dashboard** (`Analysis`):
  - the hand-written CSV line splitter, as the character loop it is;
  - the mapping of lines onto the header row;
  - the grouping of rows by team, as the loop that fills `teamData`, both
    over a plain object (as written) and over a map;
  - the picklist toggle.
- **The selection widgets the form uses:**
  - `ChipSelect`: multi-select toggle and single-select deselect;
  - `CycleButton`: the next option, wrapping around;
  - `BigStepper`: clamped minus and plus and their disabled conditions. The
    plain stepper is an instance of the same rule.

Supporting modules:
- `Text` gives the JavaScript string built-ins the code relies on: `trim`,
  the `\s` class, `split`/`join` on one character, `\D`, and decimal
  rendering and reading.
- `Collections` gives `Set` deduplication in insertion order and `filter`
  removal.
- `WorkerEvents` holds the manifest, message and outcome types the two
  workers share.

Scenario methods in `Registrar` (`WaitingWorkerScenario`, `UpdateScenario`,
`DevelopmentScenario`) drive the registrar through whole event sequences and
assert what it posts.

## Model

| member | source | states |
|---|---|---|
| Collections.Dedup | service-worker.js:24 | `[...new Set(s)]` holds each element of `s` exactly once and nothing else |
| Collections.DedupSnoc | public/service-worker.js:29-44 | adding to an insertion-ordered set appends the element, or leaves the set unchanged when the element is already in it |
| Collections.DedupOfDistinct | service-worker.js:24 | a list without repetitions is its own set |
| Collections.Without | src/components/ChipSelect.js:8 | `filter(v => v !== x)` removes every `x` and keeps every occurrence of every other element (the multiset of the input with `x` taken out) |
| Collections.WithoutIsSubsequence | src/components/ChipSelect.js:8 | removing an element keeps the others in their order |
| Collections.WithoutAbsent | src/components/Analysis.js:211 | removing an element that is not there changes nothing |
| Text.Trim | src/components/Analysis.js:42 | `trim` gives a slice of the input with no whitespace at either end |
| Text.TrimRemovesSpace | src/components/Analysis.js:48 | everything `trim` drops, before and after the kept slice, is whitespace |
| Text.TrimIdentity | src/components/Scout.js:164 | `trim` leaves a string unchanged exactly when it has no whitespace at its ends |
| Text.Split | src/components/Analysis.js:27 | `split` on one character gives at least one part, and no part contains the separator |
| Text.SplitJoin | src/components/Scout.js:235-236 | joining separator-free fields and splitting the result gives the fields back |
| Text.DigitsOnly | src/components/Scout.js:348 | `replace(/\D/g, '')` keeps only decimal digits and is no longer than its input; a one-character string is kept exactly when it is a digit |
| Text.DigitsOnlyConcat | src/components/Scout.js:348 | the digits of `a + b` are the digits of `a` followed by the digits of `b`, so every digit is kept in order and every other character dropped |
| Text.DigitsOnlyOfDigits | src/components/Scout.js:329 | a string of digits passes through `replace(/\D/g, '')` unchanged |
| Text.NatToString | src/components/Scout.js:160 | `String(n)` of a natural number is a non-empty run of digits, with no leading zero: it starts with `0` only when it is `"0"` |
| Text.DecimalValueOfNatToString | src/components/Scout.js:329 | `parseInt` reads the decimal text of `n` back as `n` |
| Text.IntToString | src/components/Scout.js:160 | `String(n)` has no whitespace and starts with a digit exactly when `n >= 0`. For `n >= 0` it is all digits reading back as `n`; for `n < 0` it is `-` followed by digits reading back as `-n`. No leading zero: a `0` starts only the text `"0"`, and never follows the minus sign |
| BigStepper.Minus | src/components/BigStepper.js:12 | minus gives at least `min`, exactly `value - increment` when that is at least `min`, and never more than `value` |
| BigStepper.Plus | src/components/BigStepper.js:19 | plus gives at most `max`, exactly `value + increment` when that is at most `max`, and never less than `value` |
| BigStepper.StaysInRange | src/components/BigStepper.js:12-20 | a value in range stays in range under either button, and an enabled button with a positive increment moves the value |
| BigStepper.StepperMinus | src/components/Stepper.js:11 | the plain stepper's minus is the big stepper's minus with increment 1 |
| BigStepper.StepperPlus | src/components/Stepper.js:19 | the plain stepper's plus is the big stepper's plus with increment 1 |
| BigStepper.DefaultSteps | src/components/BigStepper.js:4 | with the default increment 1, minimum 0 and maximum 100, minus stops at 0 and plus at 100; the plain stepper's plus stops at 10 |
| ChipSelect.ToggleMulti | src/components/ChipSelect.js:7-9 | the clicked value is selected afterwards exactly when it was not before; every other value keeps its membership and its number of occurrences: removal takes out every occurrence of the clicked value, adding puts in one |
| ChipSelect.ToggleMultiOrder | src/components/ChipSelect.js:7-9 | removing keeps the rest in order, with all their occurrences, and shortens the list; adding appends at the end |
| ChipSelect.ToggleMultiTwice | src/components/ChipSelect.js:7-9 | clicking an unselected value twice restores the selection exactly |
| ChipSelect.SelectSingle | src/components/ChipSelect.js:12 | single-select gives `null` exactly when the clicked value was selected, and otherwise that value |
| ChipSelect.SelectSingleTwice | src/components/ChipSelect.js:12 | two clicks on the selected chip restore it; two clicks on another chip leave nothing selected |
| CycleButton.IndexOfSpec | src/components/CycleButton.js:6 | `indexOf` is -1 exactly for an absent value, and otherwise the position of its first occurrence |
| CycleButton.Next | src/components/CycleButton.js:5-9 | the click gives the option after the current one, the first option after the last one or for a value that is not an option, and nothing for no options |
| CycleButton.NextDistinct | src/components/CycleButton.js:6-8 | with distinct options, option `j` is followed by option `j + 1` |
| CycleButton.WrapLast | src/components/CycleButton.js:7 | with distinct options, the last option is followed by the first |
| CycleButton.ClicksCompose | src/components/CycleButton.js:5-9 | `a` clicks followed by `b` clicks are `a + b` clicks |
| CycleButton.ClicksAdvance | src/components/CycleButton.js:6-8 | with distinct options, `k` clicks from option `i` reach option `i + k` while it exists |
| CycleButton.ClicksWrap | src/components/CycleButton.js:7 | with distinct options, clicking from option `i` to the end and once more reaches the first option |
| CycleButton.FullCycleAt | src/components/CycleButton.js:6-8 | with distinct options, as many clicks as there are options bring option `i` back |
| CycleButton.FullCycle | src/components/CycleButton.js:6-8 | with distinct options, as many clicks as there are options bring any option back |
| CacheStorage.Resolve | service-worker.js:26 | a reference resolved against the origin's root is a URL under that root |
| CacheStorage.Open | service-worker.js:14 | `caches.open` adds an empty cache under a new name and changes nothing else; an existing cache is left as it is |
| CacheStorage.OpenThenStore | service-worker.js:14-28 | opening a cache and then storing it under the same name is the same as storing it |
| CacheStorage.MatchUrl | service-worker.js:62 | `cache.match(url)` finds a response exactly when the URL is cached, and finds the cached one |
| CacheStorage.MatchRequest | service-worker.js:72 | `cache.match(request)` finds a response exactly for a cached GET request |
| CacheStorage.Put | service-worker.js:78 | `cache.put` stores the response under the URL and keeps every other entry; a partial response is refused |
| CacheStorage.PutAll | service-worker.js:28 | storing a list of fetched responses caches each URL's response and keeps every entry not in the list |
| CacheStorage.AddAll | service-worker.js:16 | `addAll` succeeds exactly when the URLs are distinct and each fetches to an ok, non-partial response; then it caches all of them and keeps every other entry |
| CacheStorage.AddAllIdempotent | service-worker.js:28 | a second successful `addAll` of the same list caches the same contents as the first |
| CacheStorage.Purge | service-worker.js:40-45 | exactly the caches with the prefix that are not the current generation are deleted; the survivors are unchanged |
| CacheStorage.SingleLiveGeneration | service-worker.js:40-45 | after the purge the current cache is the only one with the prefix, and every cache with another prefix survives |
| ServiceWorkerV4.Abs | service-worker.js:7-9 | `abs(path)` is a URL under the registration scope: `./x`, `/x` and `x` all become the scope followed by `x` |
| ServiceWorkerV4.ShellUrls | service-worker.js:16 | the shell is three distinct URLs: the root, `index.html` and the manifest |
| ServiceWorkerV4.KeepTruthy | service-worker.js:25 | `filter(Boolean)` keeps exactly the truthy values, in their original order |
| ServiceWorkerV4.KeepTruthyCounts | service-worker.js:25 | `filter(Boolean)` keeps every occurrence of a truthy value and no occurrence of any other |
| ServiceWorkerV4.ResolveAll | service-worker.js:26 | each kept value is resolved against the origin, one for one |
| ServiceWorkerV4.PrecacheUrlsMembers | service-worker.js:22-26 | the asset list names exactly the resolved truthy values of `files` and `entrypoints`, and is no longer than the two together |
| ServiceWorkerV4.DedupKeepsTwoSpellings | service-worker.js:24-25 | the raw-value deduplication keeps two spellings of one asset |
| ServiceWorkerV4.TwoSpellingsResolveAlike | service-worker.js:26 | a root-relative and a relative spelling of one asset resolve to the same URL |
| ServiceWorkerV4.PrecacheUrlsRepeatsAsset | service-worker.js:22-28 | for such a manifest the asset list names one URL twice, so `addAll` rejects whatever the network does |
| ServiceWorkerV4.PrecacheUrlsDeduped | service-worker.js:22-28 | the list deduplicated after resolution names the same URLs once each, and `addAll` caches it whenever every URL is served |
| ServiceWorkerV4.AfterAssetPrecache | service-worker.js:18-30 | the asset step as written keeps every cached entry. An unreadable manifest changes nothing. When the list names no URL twice and the network serves every asset, all of them are cached; otherwise the cache is as it was. No key outside the cache and the asset list appears, and every entry not on the list is unchanged |
| ServiceWorkerV4.TwoSpellingsNotPrecached | service-worker.js:22-30 | for a manifest that spells one asset two ways, the asset step as written leaves the cache as it was, whatever the network serves |
| ServiceWorkerV4.AfterAssetPrecacheDeduped | service-worker.js:18-30 | the asset step with the list deduplicated after resolution: when the network serves every asset, all of them are cached; otherwise the cache is as it was; no other entry is added or changed |
| ServiceWorkerV4.TwoSpellingsPrecachedDeduped | service-worker.js:22-30 | with the corrected list, the asset spelled two ways is cached whenever the network serves it |
| ServiceWorkerV4.PrecacheAssets | service-worker.js:18-30 | the best-effort asset step, with the list as written, leaves exactly what `AfterAssetPrecache` describes |
| ServiceWorkerV4.Worker.Install | service-worker.js:11-35 | a shell that fails to cache rejects the install without `skipWaiting`; otherwise the install resolves, requests `skipWaiting` once, and stores the shell and the result of the asset step as written in the current cache only |
| ServiceWorkerV4.Worker.Activate | service-worker.js:37-49 | the storage becomes the purge of older generations, then `clients.claim` is requested |
| ServiceWorkerV4.Worker.HandleFetch | service-worker.js:51-86 | cross-origin requests pass through untouched. A navigation gets the cached `index.html`, else the network's answer, else the cached document or a 503 page. Other requests get the cached copy without the network; on a miss they get the network's answer, stored only for an ok GET, or a 504 response |
| ServiceWorkerV4.Worker.HandleMessage | service-worker.js:88-92 | only a `SKIP_WAITING` message requests `skipWaiting`; the caches are untouched |
| ServiceWorkerV1.DotPrefixed | public/service-worker.js:36-44 | `"." + u` is added for every string value `u`, and nothing for other values |
| ServiceWorkerV1.AddDotPrefixed | public/service-worker.js:36-39 | one of the two loops adds the dot-prefixed string values, in order, to the insertion-ordered set |
| ServiceWorkerV1.SetAdd | public/service-worker.js:32-33 | `set.add` keeps the set equal to the deduplication of everything added so far |
| ServiceWorkerV1.CollectPrecacheSet | public/service-worker.js:29-44 | the set is the deduplication of the root, the root document, then the dot-prefixed strings of `files` and of `entrypoints` |
| ServiceWorkerV1.PrecacheSetMembers | public/service-worker.js:29-44 | the set holds the root, the root document and every dot-prefixed string value, each once, and nothing else |
| ServiceWorkerV1.ResolveRefs | public/service-worker.js:46 | each relative reference is resolved against the worker's location, one for one |
| ServiceWorkerV1.Worker.Install | public/service-worker.js:12-56 | the install never rejects. It caches the manifest document, then the precache set in one atomic step, and only then requests `skipWaiting`. The first failure abandons the later steps and keeps what was already cached |
| ServiceWorkerV1.Worker.Activate | public/service-worker.js:59-73 | the storage becomes the purge of older generations, then `clients.claim` is requested |
| ServiceWorkerV1.Worker.HandleFetch | public/service-worker.js:78-120 | cross-origin requests pass through. A navigation gets the cached `index.html`, else the network's answer, and a network failure reaches the page. Other requests get the cached copy, else the network's answer, stored only for an ok GET, or a 504 response |
| ServiceWorkerV1.Worker.HandleMessage | public/service-worker.js:123-127 | only a `SKIP_WAITING` message requests `skipWaiting`; the caches are untouched |
| Registrar.PromoteShape | src/sw.js:24-30 | each firing `statechange` listener posts `SKIP_WAITING` to its worker and then reloads |
| Registrar.PromoteCounts | src/sw.js:27-28 | `n` firing listeners post `n` messages and perform `n` reloads |
| Registrar.Registrar.RegisterSW | src/sw.js:3-7 | outside production or without service worker support nothing is attached; otherwise the `load` listener is attached |
| Registrar.Registrar.OnLoad | src/sw.js:7-19 | a waiting worker gets exactly one `SKIP_WAITING` message, followed by one reload, and no `updatefound` listener is attached; otherwise the listener is attached and nothing is posted; a failed registration changes nothing |
| Registrar.Registrar.OnUpdateFound | src/sw.js:20-23 | with no installing worker nothing happens; otherwise a `statechange` listener is attached to it; nothing is posted |
| Registrar.Registrar.OnStateChange | src/sw.js:24-30 | on "installed" under a controller each listener posts `SKIP_WAITING` and reloads; in every other state, and on a first install, nothing happens |
| Scout.ReplaceTabs | src/components/Scout.js:161 | the tab replacement keeps the length, turns each tab into a space and keeps every other character where it was |
| Scout.ReplaceTabsConcat | src/components/Scout.js:161 | the tab replacement works on each part of a string independently |
| Scout.ReplaceNewlines | src/components/Scout.js:162 | the line-break replacement never lengthens the text |
| Scout.ReplaceNewlinesNoLineFeed | src/components/Scout.js:162 | no line feed is left after the line-break replacement |
| Scout.ReplaceNewlinesConcat | src/components/Scout.js:162 | the line-break replacement works on each part of a string independently, unless the cut splits a `\r\n` pair |
| Scout.ReplaceNewlinesBreak | src/components/Scout.js:162 | a `\n`, and a `\r\n` pair, each become exactly one space between the text before and after them |
| Scout.ReplaceNewlinesKeepsSpace | src/components/Scout.js:162 | a non-empty run of whitespace stays a non-empty run of whitespace |
| Scout.Collapse | src/components/Scout.js:163 | collapsing never lengthens the text |
| Scout.CollapseShape | src/components/Scout.js:163 | after collapsing, every whitespace character is a plain space and no two are adjacent; the first character is the input's, with whitespace turned into a space |
| Scout.CollapseConcat | src/components/Scout.js:163 | collapsing works on each side of a cut made just after a non-space character |
| Scout.CollapseLeadingRun | src/components/Scout.js:163 | a run of whitespace at the start becomes exactly one space, and the rest collapses on its own |
| Scout.CollapseRun | src/components/Scout.js:163 | a maximal run of whitespace after a word becomes exactly one space, and the text on each side of it collapses on its own |
| Scout.CollapseSingleSpaced | src/components/Scout.js:163 | collapsing leaves text that is already single-spaced unchanged |
| Scout.Sanitize | src/components/Scout.js:159-165 | `sanitize` output has no tab or newline, no two adjacent whitespace characters and no whitespace at either end |
| Scout.SanitizeValue | src/components/Scout.js:160 | `null`/`undefined` sanitizes to the empty string, and every result is clean |
| Scout.SanitizeIdentity | src/components/Scout.js:159-165 | `sanitize` leaves a string unchanged exactly when it is already clean |
| Scout.SanitizeIdempotent | src/components/Scout.js:159-165 | sanitizing twice is sanitizing once |
| Scout.SanitizeKeepsText | src/components/Scout.js:159-165 | `sanitize` changes only whitespace: the other characters come through in order |
| Scout.SanitizeSeparatesWords | src/components/Scout.js:159-165 | two words separated by any run of spaces, tabs and line breaks come out as the two words with one space between them |
| Scout.CleanHasNoTab | src/components/Scout.js:200 | a sanitized value contains no tab, so it can sit between tab separators |
| Scout.GetAutoScore | src/components/Scout.js:109-115 | the auto score is twice the fuel plus 15 exactly for a climb or pull-up plus 4 exactly for winning auto |
| Scout.GetEndgameScore | src/components/Scout.js:117-123 | the endgame score is 0, 10, 20 or 30: 10 at level 1, 20 at level 2, 30 exactly at level 3, and 0 exactly off levels 1 to 3 |
| Scout.TotalScoreParts | src/components/Scout.js:88-107 | the total score is the auto score plus the total fuel plus the endgame score |
| Scout.ColumnIndex | src/components/Scout.js:128-157 | `FIELDS` has 28 entries and names each column at its position |
| Scout.SanitizeAll | src/components/Scout.js:235 | the map sanitizes each value in place, and every result is clean |
| Scout.Titles | src/components/Scout.js:168-199 | the header values are the titles of the columns, in order |
| Scout.Entries | src/components/Scout.js:204-235 | the row values are the entries of the row object for the columns, in order |
| Scout.SanitizedLineSplits | src/components/Scout.js:235-236 | a tab-joined line of sanitized values splits back into exactly those values |
| Scout.CleanLineSplits | src/components/Scout.js:200 | a tab-joined line of clean values splits back into exactly those values |
| Scout.BuildTSVHeadersSplits | src/components/Scout.js:167-201 | the header line splits into 28 fields, the sanitized title of each column in `FIELDS` order |
| Scout.BuildTSVSplits | src/components/Scout.js:203-237 | the data row splits into 28 fields, the sanitized entry of each column in `FIELDS` order |
| Scout.RowEntry | src/components/Scout.js:235 | field `k` of the data row is the sanitized text of column `k`'s entry |
| Scout.BuildTSVAutoWon | src/components/Scout.js:211 | winning auto is the field `Y`, losing it `N` |
| Scout.BuildTSVDescend | src/components/Scout.js:228 | being able to descend is the field `Y` or `N` |
| Scout.BuildTSVDied | src/components/Scout.js:229 | having died is the field `Y` or `N` |
| Scout.BuildTSVNoPosition | src/components/Scout.js:208 | a position not yet picked is an empty field |
| Scout.BuildTSVNoClimb | src/components/Scout.js:226 | a cleared endgame climb (`null`) is an empty field |
| Scout.BuildTSVTransition | src/components/Scout.js:212 | the transition keywords are comma-joined and then sanitized |
| Scout.BuildTSVKeywords | src/components/Scout.js:231 | the keywords are comma-joined and then sanitized |
| Scout.SanitizeFlag | src/components/Scout.js:211 | `Y` and `N` pass through `sanitize` unchanged |
| Scout.SanitizeEmpty | src/components/Scout.js:208 | the empty string passes through `sanitize` unchanged |
| Scout.ClimbLevelChange | src/components/Scout.js:76-86 | re-selecting the level clears it to `None` and keeps the climb; another level is selected and sets the climb to `Success`; nothing else changes |
| Scout.EndgameClimbClick | src/components/Scout.js:509-512 | clicking the selected climb chip clears the climb to `null`, clicking another selects it, and nothing else changes |
| Scout.ClimbLevelTwice | src/components/Scout.js:76-86 | clicking a new level twice leaves no level selected but the climb marked a success |
| Scout.Clear | src/components/Scout.js:282-298 | clearing advances the match by one, keeps the initials and the increment, and resets every other field to the initial form |
| Scout.ClearTwice | src/components/Scout.js:282-298 | clearing twice advances two matches and is otherwise clearing once; a cleared sheet scores nothing |
| Scout.StepDown | src/components/Scout.js:320 | the minus button never goes below 1 and otherwise subtracts one |
| Scout.StepUp | src/components/Scout.js:335 | the plus button adds exactly one, so a value of at least 1 stays at least 2 |
| Scout.StepDownIsClampedMinus | src/components/Scout.js:360 | the form's minus button is the big stepper's minus with step 1 and minimum 1 |
| Scout.TypedPositive | src/components/Scout.js:328-331 | a typed match or increment is at least 1: its digits read as a number when that is positive, and 1 when there are no digits or they read as zero |
| Scout.TypedPositiveRoundTrip | src/components/Scout.js:368-371 | typing the decimal text of a positive number enters that number |
| Scout.TeamInput | src/components/Scout.js:347-350 | the typed team is at most five digits, a prefix of the input's digits, and all of them when there are at most five |
| Scout.TeamInputStable | src/components/Scout.js:348 | retyping a team number the input already holds leaves it unchanged |
| Scout.DefenseShiftsSplit | src/components/Scout.js:461-463 | shifts 1 and 3 are defense shifts after winning auto, shifts 2 and 4 otherwise; the two outcomes split the four shifts |
| Analysis.ParseCsvLine | src/components/Analysis.js:31-50 | the character loop returns exactly the fields of the left-to-right scan |
| Analysis.ScanQuotes | src/components/Analysis.js:39-40 | quoted mode is open exactly after an odd number of quotes |
| Analysis.ScanFieldCount | src/components/Analysis.js:41-43 | each comma outside quotes closes one field |
| Analysis.FieldCount | src/components/Analysis.js:36-49 | a line gives one field more than it has commas outside quotes, so never none |
| Analysis.FieldsClean | src/components/Analysis.js:39-48 | no field contains a quote character, and every field is trimmed |
| Analysis.QuotedField | src/components/Analysis.js:39-45 | a quoted field comes out whole, with its commas and without its surrounding whitespace |
| Analysis.Lines | src/components/Analysis.js:27 | the trimmed text splits into at least one line |
| Analysis.MakeRow | src/components/Analysis.js:57-61 | the row object's keys are exactly the headers other than `__proto__`, whose assignment on a `{}` row goes to the inherited setter and stores nothing |
| Analysis.MakeRowValue | src/components/Analysis.js:58-59 | each header other than `__proto__` holds the value in its last column, or the empty string when the line is short |
| Analysis.SheetRows | src/components/Analysis.js:26-62 | fewer than two lines give no rows; otherwise there is one row per line after the header line |
| Analysis.RowsOf | src/components/Analysis.js:55-62 | each line becomes the row object of its fields under the header row |
| Analysis.RowsHaveHeaders | src/components/Analysis.js:55-61 | every row holds a header of the sheet as a key exactly when the header is not `__proto__` |
| Analysis.GroupByTeam | src/components/Analysis.js:70-104 | over a plain object, the loop throws exactly when some row's team is a property name every object inherits; otherwise `teamData` has an entry for exactly the teams some row names, the empty name excluded, and each entry holds that team's rows in order |
| Analysis.ConstructorTeamLost | src/components/Analysis.js:88-99 | a sheet whose one row is for team `constructor` makes the grouping throw |
| Analysis.GroupByTeamMap | src/components/Analysis.js:70-104 | keyed by a map, every sheet is grouped: an entry for exactly the teams some row names, the empty name excluded, each holding that team's rows in order |
| Analysis.GroupStep | src/components/Analysis.js:86-99 | one more row adds its team, when it names one, and adds itself to that team's matches |
| Analysis.MatchesCount | src/components/Analysis.js:123 | a team's `matches` is the number of rows that name it |
| Analysis.TogglePicklist | src/components/Analysis.js:208-216 | a listed team is removed everywhere, an unlisted one is appended, and every other team keeps its membership |
| Analysis.TogglePicklistOrder | src/components/Analysis.js:208-216 | toggling keeps the other teams in order, and toggling an unlisted team twice restores the picklist |

## Left out

- Asynchrony and concurrency. Each handler runs to completion as one step. `cache.put` in the fetch handlers is not awaited in the program, but it is applied at once here. Events that interleave are not modelled.
- `event.waitUntil` and `event.respondWith` are represented by the outcome a handler returns.
- `skipWaiting`, `clients.claim`, `postMessage` and `location.reload` are recorded in an action log. Their effect on the browser is not modelled.
- URL parsing by the WHATWG URL Standard. `CacheStorage.Resolve` covers only the case both workers rely on: a scope equal to the origin's root. Under it, `./x`, `/x` and `x` name the same path. The origin check compares a request's origin field with the worker's origin.
- CacheStorage.Resolve: states only that the result lies under the root. The exact string is its body.
- CacheStorage.MatchRequest: ignores the `Vary` header and URL fragments. Request headers are not modelled.
- The response body, headers and `clone()`. A response is its status, status text and body text.
- JSON parsing. A manifest that fails to load or to parse is an input (`ManifestRead`). The `files` object is the list of its values in key order. A `files` or `entrypoints` field of the wrong type is not modelled.
- The plain `Stepper` and `ConfigurableStepper` repeat the big stepper's rule. The model covers them as instances of it (`BigStepper.StepperMinus`, `BigStepper.StepperPlus`).
- Network I/O in `fetchAndParseData`, the `localStorage` reads and writes, the QR code generation and locale time formatting.
- Floating-point work in `Analysis.js`: `parseFloat` of the score columns, the averages, the standard deviation and the sort of the statistics. The grouping keeps the rows per team; the score arrays pushed beside them are not kept.
- Analysis.GroupByTeam: a map has no key order, so the insertion order of `teamData` (which `Object.values` would expose) is not modelled. The thrown `TypeError` is `None`; the catch block that turns it into an error message (`src/components/Analysis.js:170-171`) is not modelled.
- Analysis.GroupByTeamMap: the same map has no key order either.
- Scout.EndgameClimbClick: the endgame climb is the form's one single-select chip, so clicking its selected chip stores `null` (`None` here). The multi-select chips and the cycle buttons are covered by `ChipSelect` and `CycleButton`, not as clicks on the form.
- `Date.now()` in `buildTSV` is the parameter `now`.
- `buildTSV` reads the total fuel and total score from the form state rather than from its argument. The model computes both from the same form record.
- Scout.BuildTSVHeadersSplits: states the fields as the sanitized titles. It does not state that every title is already clean.
- `parseInt` beyond exact integers. JavaScript reads a very long run of digits as a rounded floating-point number. `Scout.TypedPositive` reads it exactly.
- The `maxLength` attribute of the inputs and the upper-casing of the initials.
- The generic setters `handleInputChange`, `handleNestedChange` and `handleShiftChange`. Each only assigns one field.
- Each widget click calls `onChange` exactly once. The model states this by making each click a function that returns the one new value.
- All JSX rendering, React state plumbing, and the purely presentational components.
- CycleButton.IndexOf: its own contract states only the range of the result. `CycleButton.IndexOfSpec` states the rest.
- Registrar.Promote: its own contract states only the length. `Registrar.PromoteShape` and `Registrar.PromoteCounts` state the rest.

## Findings

| source | as written | input that shows it | evidently intended | confidence | as-written member | corrected member |
|---|---|---|---|---|---|---|
| src/components/Analysis.js:88-99 | `teamData` is a plain object, and `!teamData[team]` decides whether the team needs an entry | a sheet row whose Team cell is `constructor` (or `toString`, `__proto__`, ...). `teamData["constructor"]` is the inherited `Object` function, so no entry is made and `teamData[team].matches.push` throws a `TypeError`. The catch block shows an error and the dashboard gets no statistics for any team | look only at the object's own entries (`Object.hasOwn`, a `Map`, or `Object.create(null)`), so every team is grouped | not executed | Analysis.GroupByTeam | Analysis.GroupByTeamMap |
| service-worker.js:24-26 | the manifest values are deduplicated as raw strings, before they are resolved to URLs | a manifest in the usual build-tool shape: `files` holds `"/static/js/main.js"` and `entrypoints` holds `"static/js/main.js"`. Both resolve to the same URL, so `addAll` gets a duplicate and rejects, and the catch block swallows it. No asset is precached | deduplicate after resolution, so that one asset gives one URL and `addAll` can succeed | not executed | ServiceWorkerV4.PrecacheUrlsRepeatsAsset | ServiceWorkerV4.AfterAssetPrecacheDeduped |

`Analysis.GroupByTeam` is the loop as written, over a plain object.
`Analysis.GroupByTeamMap` is the corrected loop, over a map.

`ServiceWorkerV4.PrecacheUrls` is the list as written. The install handler
(`ServiceWorkerV4.PrecacheAssets`, `ServiceWorkerV4.Worker.Install`) uses it
as written, and `ServiceWorkerV4.TwoSpellingsNotPrecached` shows that it then
caches no asset. `ServiceWorkerV4.AfterAssetPrecacheDeduped` is the corrected
asset step. It runs `addAll` on `ServiceWorkerV4.PrecacheUrlsDeduped`, which
names the same URLs once each, so every asset is cached whenever the network
serves each of them.
