# MT5 trading dashboard — a verified model of its core

This project models the core of a dashboard that tracks prop-firm ("fund")
and personal MetaTrader 5 accounts. The core has two halves.

The browser side:
- the two client stores: the MT5 telemetry store, whose equity history holds
  at most 300 points, and the account list;
- the reconnecting telemetry WebSocket consumer (`useMT5Stream`);
- the connection handling of the accounts page;
- the position-sizer page: a debounced symbol probe with abort-on-supersede,
  the available/unavailable partition, the preview and the
  confirmation-gated batch execution.

The server side:
- the database rows of funds, programs, phase rules and accounts, and the
  shared queries;
- `detect_phase`, which classifies an MT5 account name into a program and
  phase with first-match-wins patterns;
- `parse_starting_balance`, which reads "$6K", "1M" or "$50,000" out of an
  account name;
- the fund routes and their three built-in templates;
- the account routes, whose auto-classification matches the server name
  against each fund's server pattern;
- the rule checker: daily and max drawdown, margin and profit target;
- the analytics routes: summary, fund status with ok/warning/violated labels,
  and the light update;
- the two batch trading routes.

Each source file is one module. Code that works by updating state is
imperative Dafny:
- the stores, the stream session, both pages and the database session are
  classes whose methods state their whole new state;
- the route handlers and the rule checker's append loops are methods proved
  against specification functions.

Pure computations are functions, with the promised properties proved as
lemmas about them. Examples:
- first-match and leftmost-match searches;
- the ring bound of the equity history;
- the lookup order of phase rules;
- a lock that is never released by a lower equity;
- the precedence of the three balance formats;
- the partition of accounts by availability;
- the all-or-nothing margin gate.

Outside effects are parameters:
- the MT5 terminal (login, account information, order placement);
- the position sizer;
- the HTTP answers the pages receive;
- timer firings and socket events.

Each event is its own method call, so interleavings are explicit. The
scenario methods chain these calls. They show three things: a stale probe
answer is ignored; a socket closed by `cleanup` never reconnects; an error
followed by a close reconnects exactly when the store still says connected.

## Model

| member | source | states |
|---|---|---|
| `Text.TrimEmptyIff` | frontend/app/trading/page.tsx:46 | `s.trim()` is empty exactly when every character of `s` is JavaScript whitespace |
| `Text.TrimIsInnerSlice` | frontend/app/trading/page.tsx:62 | the trimmed symbol is a contiguous slice of the input with no whitespace at either end |
| `Text.TrimStartSpec` | frontend/app/trading/page.tsx:62 | the leading trim drops exactly a maximal whitespace prefix |
| `Text.TrimEndSpec` | frontend/app/trading/page.tsx:62 | the trailing trim drops exactly a maximal whitespace suffix |
| `Text.Lower` | backend/app/services/phase_detector.py:98 | lower-casing keeps the length and maps each character independently |
| `Text.ContainsIff` | backend/app/services/phase_detector.py:98 | the substring test holds exactly when the needle occurs at some index |
| `Text.ContainsEmpty` | backend/app/routes/accounts.py:47 | an empty pattern is contained in every string, so an empty server pattern matches any server |
| `Store.AppendCappedShape` | frontend/lib/store.ts:66-69 | after `addEquityPoint` the length is min(old + 1, 300) and the new point is last |
| `Store.AppendCappedIsSuffix` | frontend/lib/store.ts:68 | the new history is a suffix of the old history plus the point, so order is kept and only the oldest points drop |
| `Store.AppendCappedBelowCap` | frontend/lib/store.ts:68 | below 300 points nothing is evicted |
| `Store.AppendCappedAtCap` | frontend/lib/store.ts:68 | a full history loses exactly its oldest point |
| `Store.AppendAllIsWindow` | frontend/lib/store.ts:39-69 | any stream of appends to a history within the cap leaves exactly the last 300 points seen, in arrival order |
| `Store.RingBound` | frontend/lib/store.ts:39 | from an empty history, more than 300 points leave exactly the last 300 |
| `Store.MT5Store.constructor` | frontend/lib/store.ts:56-61 | the store starts disconnected, with no account id, no info, no positions and an empty history |
| `Store.MT5Store.SetConnected` | frontend/lib/store.ts:62 | replaces `connected` only |
| `Store.MT5Store.SetConnectedAccountId` | frontend/lib/store.ts:63 | replaces `connectedAccountId` only |
| `Store.MT5Store.SetAccountInfo` | frontend/lib/store.ts:64 | replaces `accountInfo` only |
| `Store.MT5Store.SetPositions` | frontend/lib/store.ts:65 | replaces `positions` only |
| `Store.MT5Store.AddEquityPoint` | frontend/lib/store.ts:66-69 | the history becomes the capped append, keeping the 300-point bound; the other fields are untouched |
| `Store.MT5Store.ClearEquityHistory` | frontend/lib/store.ts:70 | empties the history only |
| `Store.MT5Store.Reset` | frontend/lib/store.ts:71-76 | empties info, positions and history and leaves the connection fields alone |
| `Store.WithoutIdMembers` | frontend/lib/store.ts:35 | removal keeps exactly the accounts with another id |
| `Store.WithoutIdAppend` | frontend/lib/store.ts:35 | removal distributes over concatenation, so kept accounts keep their order |
| `Store.WithoutIdIdempotent` | frontend/lib/store.ts:34-36 | removing an id twice equals removing it once |
| `Store.AccountStore.constructor` | frontend/lib/store.ts:26-28 | the account store starts empty, with no selection |
| `Store.AccountStore.SetAccounts` | frontend/lib/store.ts:29 | replaces the list and keeps the selection |
| `Store.AccountStore.SetSelectedAccount` | frontend/lib/store.ts:30 | replaces the selection and keeps the list |
| `Store.AccountStore.AddAccount` | frontend/lib/store.ts:31-33 | appends at the end |
| `Store.AccountStore.RemoveAccount` | frontend/lib/store.ts:34-36 | the list becomes the id-filtered list |
| `Stream.PointOf` | frontend/hooks/useMT5Stream.ts:52-56 | the equity point carries the update's balance, equity and time |
| `Stream.StreamSession.AtMostOneLiveSocket` | frontend/hooks/useMT5Stream.ts:39-43 | at most one socket can deliver messages, and it is the referenced one |
| `Stream.StreamSession.AtMostOnePendingTimer` | frontend/hooks/useMT5Stream.ts:65-82 | at most one reconnect timer is ever pending |
| `Stream.StreamSession.constructor` | frontend/hooks/useMT5Stream.ts:15-17 | no socket, no timer and no effect run yet |
| `Stream.StreamSession.Cleanup` | frontend/hooks/useMT5Stream.ts:78-88 | cancels the timer, detaches the close handler before closing, drops the reference: no live socket, no pending timer, and the closed socket cannot reconnect |
| `Stream.StreamSession.Connect` | frontend/hooks/useMT5Stream.ts:39-76 | cleans up, then opens exactly one new live socket with its close handler attached |
| `Stream.StreamSession.OnClose` | frontend/hooks/useMT5Stream.ts:65-71 | a close with the handler still attached schedules one reconnect exactly when the store is connected to a truthy account id; otherwise the timers are unchanged |
| `Stream.StreamSession.OnError` | frontend/hooks/useMT5Stream.ts:73-75 | an error on a live socket starts closing that socket and nothing else |
| `Stream.StreamSession.OnTimer` | frontend/hooks/useMT5Stream.ts:69 | a cleared timer changes nothing; a pending one reconnects, ending in exactly the state `Connect` leaves |
| `Stream.StreamSession.OnMessage` | frontend/hooks/useMT5Stream.ts:45-63 | only a live socket's well-formed "update" changes the store; account info also appends one capped equity point; positions default to empty; the connection fields never change |
| `Stream.StreamSession.Render` | frontend/hooks/useMT5Stream.ts:25-37 | unchanged `[connected, connectedAccountId]` change nothing; otherwise a falsy pair leaves the cleaned-up state and disarms the effect, and a truthy one leaves the connected state and arms it; every field is stated |
| `Stream.StreamSession.Unmount` | frontend/hooks/useMT5Stream.ts:34-36 | an armed effect's disposer leaves the cleaned-up state with no socket and no timer; an unarmed one changes nothing |
| `Stream.LocalCloseNeverReconnects` | frontend/hooks/useMT5Stream.ts:84 | a socket closed by `cleanup` leaves no pending timer when its close event arrives |
| `Stream.ErrorThenCloseReconnects` | frontend/hooks/useMT5Stream.ts:65-75 | an error followed by the close schedules a reconnect while the store says connected to an account |
| `Stream.DropThenReconnect` | frontend/hooks/useMT5Stream.ts:25-75 | a render that connects, then an error, the close and the timer firing, end with a fresh live socket that can drop and reconnect again |
| `AccountsPage.ProgramLabel` | frontend/app/accounts/page.tsx:57-67 | no label for a falsy id; for a set id, no label exactly when no program has that id |
| `AccountsPage.ProgramLabelIsFirst` | frontend/app/accounts/page.tsx:59-63 | the label is "fund - program" of the first program with the id, in fund order then program order |
| `AccountsPage.AtMostOneConnectedRow` | frontend/app/accounts/page.tsx:177 | with distinct row ids at most one row is highlighted, and none while disconnected |
| `AccountsPage.Page.constructor` | frontend/app/accounts/page.tsx:11-17 | the page shares the store and starts with no funds and no connect in flight |
| `AccountsPage.Page.LoadFunds` | frontend/app/accounts/page.tsx:37-44 | a loaded list replaces the funds; a failed load keeps them |
| `AccountsPage.Page.CheckMT5Status` | frontend/app/accounts/page.tsx:46-54 | the status answer is copied into both connection fields; a failure changes nothing |
| `AccountsPage.Page.BeginConnect` | frontend/app/accounts/page.tsx:92-95 | marks the account as connecting and clears the equity history before the request |
| `AccountsPage.Page.FinishConnect` | frontend/app/accounts/page.tsx:96-104 | a success records connected to that account; a failure keeps the connection; either way the connect ends |
| `AccountsPage.Page.HandleDisconnect` | frontend/app/accounts/page.tsx:107-116 | a success drops the connection and empties all telemetry; a failure changes nothing |
| `TradingPage.Ids` | frontend/app/trading/page.tsx:63 | the request's ids are the accounts' ids, position by position |
| `TradingPage.OrNull` | frontend/app/trading/page.tsx:135 | a falsy take-profit (unset or 0) is sent as null; a truthy one unchanged |
| `TradingPage.AvailabilityOf` | frontend/app/trading/page.tsx:68-71 | the map has a key exactly for each id the answer reports |
| `TradingPage.LastEntryWins` | frontend/app/trading/page.tsx:71 | an id's flag is that of its last entry in the answer |
| `TradingPage.SelectedAreAvailable` | frontend/app/trading/page.tsx:69-74 | an id is auto-selected exactly when some entry reports it available; without repeated ids its flag is then true |
| `TradingPage.ReadAvailability` | frontend/app/trading/page.tsx:68-75 | the loop builds the availability map and the auto-selection the specification functions describe |
| `TradingPage.AvailableAccounts` | frontend/app/trading/page.tsx:180 | an account is listed exactly when its id maps to true |
| `TradingPage.UnavailableAccounts` | frontend/app/trading/page.tsx:181 | an account is listed exactly when its id maps to false |
| `TradingPage.AvailableAppend` | frontend/app/trading/page.tsx:180 | the available list distributes over concatenation, so it keeps the accounts' order |
| `TradingPage.UnavailableAppend` | frontend/app/trading/page.tsx:181 | the unavailable list distributes over concatenation, so it keeps the accounts' order |
| `TradingPage.PartitionDisjoint` | frontend/app/trading/page.tsx:180-181 | the two lists are disjoint; unreported accounts are in neither; together they hold at most all accounts |
| `TradingPage.TotalLotsAdditive` | frontend/app/trading/page.tsx:151-153 | the total lots of two blocks of rows is the sum of their totals; a row without a calculation or with an error adds nothing; a priced row adds its lot size |
| `TradingPage.Page.constructor` | frontend/app/trading/page.tsx:24-42 | the first render has symbol "EURUSD", the default form and an empty selection, and starts the debounce timer over the store's accounts |
| `TradingPage.Page.RestartDebounce` | frontend/app/trading/page.tsx:93-105 | clears availability, selection, preview and tick, and replaces the timer with a fresh one capturing the current symbol and accounts |
| `TradingPage.Page.SetSymbol` | frontend/app/trading/page.tsx:194 | an unchanged symbol changes nothing; a new one restarts the debounce, and every other field is kept |
| `TradingPage.Page.SetAccounts` | frontend/app/trading/page.tsx:105 | a new account list always restarts the debounce over it, and every other field is kept |
| `TradingPage.Page.CheckSymbolAvailability` | frontend/app/trading/page.tsx:45-64 | a blank symbol or no accounts clears the derived state and sends nothing; otherwise the previous probe is aborted and one probe is sent with the trimmed symbol and all ids |
| `TradingPage.Page.DebounceFire` | frontend/app/trading/page.tsx:100-103 | only the pending timer fires: it sets the chart symbol and runs the availability check on the values it captured, with the check's whole effect on the page |
| `TradingPage.Page.ProbeSucceeded` | frontend/app/trading/page.tsx:66-90 | an aborted probe's answer changes nothing; the current one sets the availability map, the auto-selection, the checked flag and the tick, and ends the check; an answer without `results` takes the failure path; nothing else changes |
| `TradingPage.Page.ProbeFailed` | frontend/app/trading/page.tsx:80-90 | an aborted probe's failure changes nothing; the current one clears the derived state and ends the check; nothing else changes |
| `TradingPage.Page.EditForm` | frontend/app/trading/page.tsx:246-368 | editing the form changes the form and nothing else: the preview, the selection and the availability stay |
| `TradingPage.Page.ToggleAccount` | frontend/app/trading/page.tsx:405-411 | ticking appends the id; unticking leaves exactly the other ids, in their order; nothing but the selection changes |
| `TradingPage.Page.HandleCalculate` | frontend/app/trading/page.tsx:119-139 | no request without a selection and a truthy stop loss; otherwise one request from the trimmed symbol, the form and the selection, and only `loading` changes |
| `TradingPage.Page.CalculateResponse` | frontend/app/trading/page.tsx:140-145 | a success replaces the preview and a failure keeps it; loading ends; nothing else changes |
| `TradingPage.Page.HandleExecute` | frontend/app/trading/page.tsx:148-170 | no request without a preview or confirmation; otherwise the request carries the live form and selection, and only `executing` changes |
| `TradingPage.Page.ExecuteResponse` | frontend/app/trading/page.tsx:171-177 | a success clears the preview and a failure keeps it; executing ends; nothing else changes |
| `TradingPage.Without` | frontend/app/trading/page.tsx:409 | the filtered list holds exactly the other ids |
| `TradingPage.WithoutAppend` | frontend/app/trading/page.tsx:409 | removing an id distributes over concatenation, so the kept ids keep their order |
| `TradingPage.StaleAnswerIgnored` | frontend/app/trading/page.tsx:54-103 | the pending timer fires a probe, a new symbol's timer fires a second one; the first answer is ignored, and the second is applied and ends the check |
| `Db.IndexOfKey` | backend/app/routes/funds.py:296 | the first row whose key is the id, or none exactly when no row has it; funds and accounts are looked up by primary key through it |
| `Db.Detach` | backend/app/models/funds.py:37 | deleting a fund sets `fund_program_id` to null on exactly the accounts of its programs and changes nothing else |
| `Db.DetachLeavesNoDangling` | backend/app/routes/funds.py:300 | after the deletion no account points at one of the fund's programs, and detaching again changes nothing |
| `Db.DetachKeepsKeys` | backend/app/models/funds.py:37 | detached accounts keep their id, login, type and phase |
| `Db.ProgramInIsFirst` | backend/app/services/rule_checker.py:41 | the program found within a fund is the first with the id |
| `Db.FindProgram` | backend/app/services/rule_checker.py:41 | a program is found exactly when some fund holds one with the id |
| `Db.FindProgramIsFirst` | backend/app/services/rule_checker.py:41 | the program found is the first with the id, in fund order then program order |
| `Db.MinPhaseRuleIsLeast` | backend/app/routes/accounts.py:55 | the minimum exists exactly for a non-empty list; it has the lowest `phase_order` and is the earliest of equals |
| `Db.RuleNamed` | backend/app/services/rule_checker.py:47-55 | returns a rule with exactly that phase name, and none only when no rule has it |
| `Db.PhaseRuleForSpec` | backend/app/services/rule_checker.py:46-64 | a set phase with a rule of that name selects it; otherwise the lowest-order rule; none only for a program without rules |
| `PhaseDetector.FindPatternIsFirst` | backend/app/services/phase_detector.py:96-102 | the search returns the lowest-indexed matching pattern, and none exactly when none matches |
| `PhaseDetector.EmptyContainsNeverMatch` | backend/app/services/phase_detector.py:97-98 | patterns with an empty or missing `contains` never take part |
| `PhaseDetector.FindPatternFirst` | backend/app/services/phase_detector.py:96-102 | a matching pattern with no match before it is the one returned |
| `PhaseDetector.DetectPhaseNone` | backend/app/services/phase_detector.py:66-115 | an empty name or unusable patterns give none; otherwise none exactly when no pattern matches the search text nor the whole name |
| `PhaseDetector.DetectPhaseFirstMatch` | backend/app/services/phase_detector.py:94-102 | the first pattern matching the search text decides the detection |
| `PhaseDetector.DetectPhaseFallback` | backend/app/services/phase_detector.py:104-113 | with an extracted segment that no pattern matches, the first pattern matching the whole name decides |
| `PhaseDetector.DetectPhaseFromPattern` | backend/app/services/phase_detector.py:96-113 | every detection is the program/phase pair of a stored pattern with a non-empty `contains` |
| `StartingBalance.NumberBeforeUnit` | backend/app/services/phase_detector.py:39 | any captured text is a run of digits and dots |
| `StartingBalance.SearchUnitFromIsLeftmost` | backend/app/services/phase_detector.py:39 | a unit match found is the group of the leftmost position that matches |
| `StartingBalance.SearchUnitFromNone` | backend/app/services/phase_detector.py:39 | the unit search finds nothing exactly when no position matches |
| `StartingBalance.NoUnitLetterNoMatch` | backend/app/services/phase_detector.py:44 | a name without the unit letter never matches |
| `StartingBalance.DropCommas` | backend/app/services/phase_detector.py:51 | no comma remains, digits-and-commas become all digits, and the first digit is kept |
| `StartingBalance.RawMatchAt` | backend/app/services/phase_detector.py:49 | a raw match is a non-empty digit string |
| `StartingBalance.SearchRawFromIsLeftmost` | backend/app/services/phase_detector.py:49 | a raw match found is that of the leftmost position that matches |
| `StartingBalance.SearchRawFromNone` | backend/app/services/phase_detector.py:49 | the raw search finds nothing exactly when no position matches |
| `StartingBalance.NoDollarNoRaw` | backend/app/services/phase_detector.py:49 | without a `$` there is no raw number |
| `StartingBalance.FloatOf` | backend/app/services/phase_detector.py:41 | `float` of a digit string is its value, and every float read is non-negative |
| `StartingBalance.FloatOfTwoDots` | backend/app/services/phase_detector.py:41 | `float` raises on captured text with two dots |
| `StartingBalance.FloatOfLoneDot` | backend/app/services/phase_detector.py:46 | `float(".")` raises |
| `StartingBalance.FloatOfAtDot` | backend/app/services/phase_detector.py:41 | numeric text with its one dot at `p` reads as the digits before the dot plus those after it as a fraction |
| `StartingBalance.FloatOfDecimal` | backend/app/services/phase_detector.py:46 | "a.b" reads as a plus b's digits as a fraction ("7.5" is 7.5) |
| `StartingBalance.ParsePrecedence` | backend/app/services/phase_detector.py:30-53 | empty name gives none; a millions match decides; then thousands; the raw number only when neither unit form matches; balances are non-negative |
| `StartingBalance.ParseThousands` | backend/app/services/phase_detector.py:44-46 | "$nK" reads as n × 1000 |
| `StartingBalance.ParseMillions` | backend/app/services/phase_detector.py:39-41 | "nM" reads as n × 1000000 |
| `StartingBalance.ParseRaw` | backend/app/services/phase_detector.py:48-51 | "$n" with n ≥ 1000 reads as n |
| `StartingBalance.ParseFallsToRaw` | backend/app/services/phase_detector.py:38-51 | when neither unit form matches, the digits of the raw match are the balance |
| `StartingBalance.ParseCommaGrouped` | backend/app/services/phase_detector.py:49-51 | "$n,mmm" reads as n × 1000 + m ("$50,000" is 50000) |
| `StartingBalance.ParseNothing` | backend/app/services/phase_detector.py:53 | a name with no `$` and no unit letter has no balance |
| `StartingBalance.NatOfDigits` | backend/app/services/phase_detector.py:51 | reading back a rendered number gives the number |
| `FundRoutes.StoredPatternsOf` | backend/app/routes/funds.py:185-186 | a non-empty list is stored as itself, an empty one as NULL |
| `FundRoutes.StoredPatternsDetectAlike` | backend/app/routes/funds.py:186 | storing an empty list as NULL changes nothing for detection |
| `FundRoutes.InsertRules` | backend/app/routes/funds.py:212-222 | one rule per requested rule, in order, with fresh ids, "static" for a missing drawdown type, and nothing else changed |
| `FundRoutes.CreateFundFromData` | backend/app/routes/funds.py:182-226 | appends one fund built from the data, its programs and rules in request order, keeping the database well formed |
| `FundRoutes.FtmoPatternsResolve` | backend/app/routes/funds.py:15-88 | every FTMO pattern names a program and phase the template defines |
| `FundRoutes.The5ersPatternsResolve` | backend/app/routes/funds.py:89-136 | the same for The5ers |
| `FundRoutes.FortradesPatternsResolve` | backend/app/routes/funds.py:137-178 | the same for Fortrades |
| `FundRoutes.TemplatesAreConsistent` | backend/app/routes/funds.py:14-179 | every template's fund name is its key and all its patterns resolve |
| `FundRoutes.FtmoOneStepChallengeWins` | backend/app/routes/funds.py:21-28 | a name containing "FTMO 1Step Challenge" is the 1-Phase program's Phase 1, though "Challenge" also matches a later pattern |
| `FundRoutes.The5ersFundedSegment` | backend/app/routes/funds.py:93-99 | a phase segment containing "FHS" is the 2-Phase program's Funded phase |
| `FundRoutes.FirstPatternDecides` | backend/app/services/phase_detector.py:96-102 | a first pattern whose text occurs in the search text decides the detection |
| `FundRoutes.CreateFundFromTemplate` | backend/app/routes/funds.py:246-271 | unknown key gives 400; a taken name gives 400 and changes nothing; otherwise the fund is built from the template |
| `FundRoutes.DataOf` | backend/app/routes/funds.py:281 | the request body becomes data with the same fields and no pattern list |
| `FundRoutes.CreateFund` | backend/app/routes/funds.py:274-290 | refused with 400 exactly when the name is taken; otherwise the fund is built from the body and stores no patterns |
| `FundRoutes.DeleteFund` | backend/app/routes/funds.py:293-303 | 404 exactly when no fund has the id, changing nothing; otherwise the fund is removed, none has the id afterwards, and the accounts of its programs keep everything but `fund_program_id`, which becomes null |
| `FundRoutes.DetachedAccountUnchecked` | backend/app/services/rule_checker.py:36-37 | an account detached by a fund deletion gets the empty, unlocked report and leaves the fund-status listing |
| `AccountRoutes.FirstServerMatch` | backend/app/routes/accounts.py:46-47 | the index found is a fund whose pattern matches case-insensitively; none means no fund matches |
| `AccountRoutes.ClassifySpec` | backend/app/routes/accounts.py:40-57 | a given program skips detection; no match keeps the request; the first matching fund makes a fund account on its first program at its lowest-order phase, the earliest of equal orders; a given phase, or a program without phases, keeps the requested phase |
| `AccountRoutes.CreateAccount` | backend/app/routes/accounts.py:30-74 | 400 exactly when the login exists; otherwise one account is appended, classified, with the password encrypted |
| `AccountRoutes.UpdateAccount` | backend/app/routes/accounts.py:77-100 | 404 for an unknown id; otherwise only a non-empty password and any supplied phase or program change |
| `AccountRoutes.DeleteAccount` | backend/app/routes/accounts.py:103-113 | 404 exactly when no account has the id; afterwards none has it; funds are untouched |
| `RuleChecker.LossPct` | backend/app/services/rule_checker.py:73-74 | the loss is the drop as a percentage of a positive base, 0 otherwise; positive exactly when equity is below the base |
| `RuleChecker.LossPctAntitone` | backend/app/services/rule_checker.py:73-76 | a lower equity never gives a smaller loss |
| `RuleChecker.DrawdownTypeIgnored` | backend/app/services/rule_checker.py:82-91 | every drawdown type, "eod_trailing" included, gives the static figure |
| `RuleChecker.Evaluate` | backend/app/services/rule_checker.py:69-121 | locked exactly when some violation exists; each violation holds exactly when its figure is strictly above its limit; the metrics carry both loss figures rounded to two decimals, the drawdown type and the phase |
| `RuleChecker.Round2` | backend/app/services/rule_checker.py:117-118 | `round(x, 2)`: a whole number of hundredths within half a hundredth of the figure |
| `RuleChecker.Round2Monotone` | backend/app/services/rule_checker.py:117-118 | rounding never reverses the order of two figures |
| `RuleChecker.Round2UpTo` | backend/app/services/rule_checker.py:117-118 | a figure less than half a hundredth below a two-decimal value rounds to it |
| `RuleChecker.EvaluateMessagesInOrder` | backend/app/services/rule_checker.py:69-109 | one message per violation, in check order; each carries the computed daily or max loss against the rule's limit, or the margin in use against the program's limit |
| `RuleChecker.AccountRules` | backend/app/services/rule_checker.py:36-67 | non-fund or no program: empty report; missing program or no rules: one message, unlocked; otherwise the evaluation against the looked-up rule |
| `RuleChecker.LowerEquityStaysLocked` | backend/app/services/rule_checker.py:69-111 | a locked account stays locked at any lower equity |
| `RuleChecker.CheckAccountRules` | backend/app/services/rule_checker.py:9-121 | the appending implementation computes the report above |
| `RuleChecker.CheckPhaseRule` | backend/app/services/rule_checker.py:69-121 | the three checks, appended in order, give the evaluation |
| `RuleChecker.GainPct` | backend/app/services/rule_checker.py:145-146 | the gain is the negated loss |
| `RuleChecker.CheckProfitTarget` | backend/app/services/rule_checker.py:123-157 | no target exactly when no rule of that name or no target on it; otherwise achieved iff the exact gain reaches the target, the reported gain is rounded to two decimals, and progress is gain/target × 100 rounded to two decimals for a positive target, else 0 |
| `RuleChecker.AchievedIffFullProgress` | backend/app/services/rule_checker.py:148-156 | with a positive target, an achieved target shows progress of at least 100%; a progress of at least 100% means the exact ratio is at least 99.995% |
| `RuleChecker.RoundedProgress` | backend/app/services/rule_checker.py:148-156 | the rounded progress of a gain at or above a positive target is at least 100, and a rounded progress of at least 100 comes from a ratio of at least 99.995 |
| `RuleChecker.FullProgressNotAchieved` | backend/app/services/rule_checker.py:148-156 | a 9.9996% gain against a 10% target reports 10.00% and progress 100.00% without being achieved |
| `Analytics.StatusLabel` | backend/app/routes/analytics.py:47-53 | violated iff at or over the limit; warning iff from 80% of a positive limit up to it; ok otherwise |
| `Analytics.StatusMonotone` | backend/app/routes/analytics.py:47-53 | for a fixed limit a larger figure never gets a milder label |
| `Analytics.ZeroLimitViolated` | backend/app/routes/analytics.py:49-50 | with a zero limit every non-negative figure is violated |
| `Analytics.OrZero` | backend/app/routes/analytics.py:29-31 | a missing column counts as 0 |
| `Analytics.CountsPartition` | backend/app/routes/analytics.py:32-35 | every account is counted once, as fund or personal |
| `Analytics.TotalAppend` | backend/app/routes/analytics.py:28-31 | the totals split over any division of the account list |
| `Analytics.GetSummary` | backend/app/routes/analytics.py:17-44 | the counts and the three totals of the accounts; fund plus personal is the total |
| `Analytics.ListedAccounts` | backend/app/routes/analytics.py:59-63 | exactly the fund accounts with a program id, in table order |
| `Analytics.ListedAppend` | backend/app/routes/analytics.py:59-63 | the listing distributes over concatenation, so it keeps table order |
| `Analytics.StartingBalanceOf` | backend/app/routes/analytics.py:71 | a missing or zero starting balance falls back to the balance |
| `Analytics.ProfitInfoOf` | backend/app/routes/analytics.py:84-91 | the target is looked up only for a truthy program and phase; a target carries the checker's figures, otherwise all defaults |
| `Analytics.LimitsFallback` | backend/app/routes/analytics.py:94-128 | displayed limits come from the rule named like the phase, else the lowest-order rule; 0 when there is no program or rule |
| `Analytics.ViolationShowsViolated` | backend/app/routes/analytics.py:130-151 | with a limit of at most two decimals, a drawdown violation shows "violated"; a figure less than half a hundredth below such a limit, or exactly at it, shows "violated" without locking |
| `Analytics.RoundedLabel` | backend/app/routes/analytics.py:147 | the label of a rounded figure is "violated" once the figure is above a two-decimal limit or within half a hundredth below it |
| `Analytics.RoundedLimit` | backend/app/services/rule_checker.py:117-118 | a two-decimal figure rounds to itself |
| `Analytics.OffGridLimitShowsWarning` | backend/app/routes/analytics.py:147 | with a limit of three decimals a violating figure can round below it and read "warning" |
| `Analytics.NoRulesReadsViolated` | backend/app/routes/analytics.py:96-151 | a listed account whose program is missing is unlocked yet both labels read "violated" |
| `Analytics.FundStatusOf` | backend/app/routes/analytics.py:68-161 | the loop body builds the specified row of one account |
| `Analytics.StatusRows` | backend/app/routes/analytics.py:68-161 | one row per account, in order |
| `Analytics.GetFundStatus` | backend/app/routes/analytics.py:56-163 | the rows of exactly the listed accounts, in table order |
| `Analytics.UpdateAccountAnalytics` | backend/app/routes/analytics.py:171-190 | 404 for an unknown id; otherwise only the supplied fields change and the answer carries the id |
| `TradingRoutes.GatherAccount` | backend/app/routes/trading.py:93-129 | at most one entry, for that account, and none exactly when the login is refused or gives no information |
| `TradingRoutes.Gather` | backend/app/routes/trading.py:88-91 | at most one entry per requested id |
| `TradingRoutes.GatherFromRequest` | backend/app/routes/trading.py:88-91 | every entry is for a stored account whose id was requested |
| `TradingRoutes.GatherAppend` | backend/app/routes/trading.py:88 | a split request gathers the entries of its parts, in order |
| `TradingRoutes.UnknownIdsSkipped` | backend/app/routes/trading.py:27-30 | ids matching no account contribute nothing |
| `TradingRoutes.PreviewAccount` | backend/app/routes/trading.py:32-67 | the loop body yields the preview of the account's gathered entry: an error for a raised login, nothing for a refused one |
| `TradingRoutes.CalculatePosition` | backend/app/routes/trading.py:13-71 | 500 when the terminal does not initialise; otherwise one preview entry per gathered entry, errors included, in order |
| `TradingRoutes.FailedMargin` | backend/app/routes/trading.py:131 | zero exactly when every entry is a calculation with enough margin |
| `TradingRoutes.OrderResults` | backend/app/routes/trading.py:139-169 | at most one result per collected account |
| `TradingRoutes.OrderResultsFromCollected` | backend/app/routes/trading.py:156-169 | every order result carries the login of one of the collected accounts |
| `TradingRoutes.GateAndPlace` | backend/app/routes/trading.py:131-180 | any failed margin refuses the whole batch with 400; otherwise orders are placed and successful + failed = total |
| `TradingRoutes.CollectAccounts` | backend/app/routes/trading.py:86-129 | the first loop collects exactly the gathered entries |
| `TradingRoutes.PlaceOrders` | backend/app/routes/trading.py:139-169 | the second loop produces exactly the order results |
| `TradingRoutes.ExecuteBatch` | backend/app/routes/trading.py:74-180 | the route's answer is the specified outcome: 500, the margin refusal or the summary |
| `TradingRoutes.EveryCollectedAccountOrdered` | backend/app/routes/trading.py:141-163 | when no re-login is refused, exactly one result per collected account, in order |
| `TradingRoutes.SizedGatherPassesGate` | backend/app/routes/trading.py:131 | when no login raises and the sizer always calculates with enough margin, only approved entries are collected |
| `TradingRoutes.SizedBatchOrdersEveryAccount` | backend/app/routes/trading.py:74-180 | under those conditions the batch passes the gate and orders once per collected account, in request order |
| `TradingRoutes.AsWrittenPreviewOnlyErrors` | backend/app/routes/trading.py:39-46 | as written, every entry of the preview answer is an error entry |
| `TradingRoutes.AsWrittenGatherOnlyErrors` | backend/app/routes/trading.py:100-107 | as written, for either request schema, the per-account pass collects only errors |
| `TradingRoutes.AsWrittenExecuteNeverOrders` | backend/app/routes/trading.py:100-137 | as written, the batch is refused whenever anything was collected, and otherwise answers with no results |
| `TradingRoutes.AllErrorsFailMargin` | backend/app/routes/trading.py:124-131 | error entries fail the margin gate once each |

## Left out

- Text: lower-casing and `\d` are ASCII only. Unicode case folding and Unicode digits are not modelled.
- Text: `trim` and `\s` cover the ASCII and common Unicode spaces listed in the model, not every Unicode space.
- Rounding to two decimals (`round(x, 2)`) of the two loss figures and of the profit target's gain and progress is modelled as exact round-half-even on reals. Ties that binary floats place on either side are not modelled, nor is rounding of the summary totals. `toFixed` and `toLocaleTimeString` formatting are not modelled either. An equity point's time is the raw timestamp.
- Message texts built with f-strings are datatypes that carry their figures, not strings.
- Encryption is abstract: a stored password is `Encrypted(plain)`. The cipher and its key handling are not modelled.
- Ids come from counters that are never reused. SQLite's reuse of freed ids is not modelled.
- Program-id uniqueness across funds is not an invariant. Lookups return the first program with the id, in fund order then program order. The database's real order for `.first()` without `order_by` is taken as insertion order.
- A stored `account_name_patterns` that is valid JSON but not a list of objects is not modelled; the source would raise on it. Entries without "program" or "phase" are not modelled either.
- `_format_to_regex` and the regular-expression match of `name_format` are not part of this model. The extracted phase segment is an input of `DetectPhase`.
- The terminal routes (`mt5.py`), `refresh_all_accounts` and the MT5 service are not part of this model. Neither are the read-only listings `get_account(s)`, `get_funds` and `get_fund_templates`.
- Accounts can still point at a missing program only if the database was changed outside these routes. The model treats such an id as "program not found".
- `update_account` ignores `starting_balance` and `next_payout_date`, as the source does. Only `update_account_analytics` changes them.
- Amounts are reals. Floating-point rounding, NaN and infinities of Python floats and JavaScript numbers are not modelled. That covers `float()` results and `parseFloat` of form input.
- Logout failures, the terminal's global login state and MT5 initialise/shutdown are oracles or left out.
- The best-day rule is never checked, as in the source, and the model has no check for it.
- The symbol input upper-cases what is typed. `SetSymbol` takes the upper-cased value.
- Alert and confirm dialog texts are not modelled. The total lots are only displayed, and `TotalLots` states what is shown.
- Reloading the account list after connect, delete or "init all" is not modelled. Neither are `handleInitAll`, `handleDelete` or the loading spinner.
- `PositionSizer.calculate` and `validate_margin` are an oracle. `position_sizer.py` is not part of this model, and its `balance` argument is not modelled.
- AccountsPage.Page.BeginConnect: the connecting marker is the account id, not its string form (`String(id)`). Nothing compares it.
- TradingPage.Page.SetAccounts: the page's account list changes only through the store. Loading it from the server is a call of `SetAccounts`.
- RuleChecker.AchievedIffFullProgress: only "achieved implies a progress of at least 100%" holds. The returned progress is rounded while achieved compares the exact gain, so a progress of 100.00% can come with achieved false (`FullProgressNotAchieved`).
- Analytics.ViolationShowsViolated: the promise that a violation reads "violated" holds only for limits of at most two decimals. The label compares the rounded figure, while the check compares the unrounded one (`OffGridLimitShowsWarning`).
- Db.PhaseRuleForSpec: when several rules share the lowest `phase_order`, SQL's `order_by(...).first()` may return any of them. The model takes the earliest in table order.

## Findings

| source | as written | input that shows it | evidently intended | confidence | as-written member | corrected member |
|---|---|---|---|---|---|---|
| backend/app/routes/trading.py:39-46 | both batch routes call the sizer with `request.risk_pct`, `request.tp_pips` and `request.sl_pips`, which neither `PositionCalculateRequest` nor `BatchTradeRequest` declares (backend/app/schemas.py:127-144), so reading the first raises `AttributeError` inside the per-account `try` | any request naming an account that logs in and returns account information | size each position from the fields the request declares: `risk_type`/`risk_value` and the absolute `sl_price`/`tp_price`; every approved account then gets its order | high; not executed | `TradingRoutes.AsWrittenExecuteNeverOrders` | `TradingRoutes.SizedBatchOrdersEveryAccount` |
