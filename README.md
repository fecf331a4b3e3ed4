# GooFish bargainer: a Dafny model of the multi-seller bargaining pipeline

This project models the core of a Python service that shops for second-hand
goods on the Goofish (Xianyu, 咸鱼) marketplace. Each comparison task runs
through the same pipeline:

- The **coordinator agent** (`CoordinatorAgent`) creates a progress record for
  the task and moves it through fixed status/percentage checkpoints.
- The **search agent** first asks the DeepSeek client to analyse the request
  into keywords, then logs in and searches up to three keywords. It
  de-duplicates the results by normalised title and keeps the ten cheapest.
- The coordinator then starts one **negotiation agent** for each of the first
  five products. Each agent bargains with its seller for at most three
  rounds, reading prices out of the replies with a regex heuristic.
- Finally the coordinator scans the products and negotiated prices for the
  **best deal**.

Modules, one per source file:

| Dafny file | source file | form |
|---|---|---|
| `text.dfy` | Python string built-ins used by the core (`lower`, `strip`, `split`, `in`) | functions and lemmas |
| `schema.dfy` | `app/models/schema.py` | datatypes and constructors |
| `base_agent.dfy` | `app/agents/base_agent.py` | class `BaseAgent` |
| `price_extraction.dfy` | `_extract_price_from_response` in `app/agents/negotiation_agent.py` | functions and lemmas |
| `goofish_service.dfy` | `app/services/goofish_service.py` | class `GoofishService` and functions |
| `deepseek_client.dfy` | `app/services/deepseek_client.py` | class `DeepSeekClient`, the retry loop as a method proved against a function |
| `search_agent.dfy` | `app/agents/search_agent.py` | class `SearchAgent`, with loops proved against `Dedup`, `SearchAll` |
| `negotiation_agent.dfy` | `app/agents/negotiation_agent.py` | class `NegotiationAgent`, with the round loop proved against `Session` |
| `coordinator_agent.dfy` | `app/agents/coordinator_agent.py`, `config/settings.py` | class `CoordinatorAgent`, with `_find_best_deal` in place on an array proved against `ScanDeals` |

Outside inputs are parameters. These are:

- what the browser saw (`ScrapedPage`, `RawItem`, `LoginOutcome`);
- the API outcome of each chat attempt (`ApiOutcome`);
- the JSON parser (`loads`);
- each round's message, reply and random discount (`RoundInput`);
- the random draws of the mock generator (`MockDraw`);
- for each negotiation session, its rounds and any fault it raises, and
  whether the batch of sessions timed out;
- the task id and the clock reading.

## Behaviour of the code as written

The model follows the code. Some of its behaviour is surprising, or differs
from what its own comments announce; each such case is stated and proved:

- **Discount replies.** The comment at `app/agents/negotiation_agent.py:161`
  announces a discount of 5–15 yuan when a reply mentions a discount. Yet a
  reply such as "可以优惠10元" ("10 yuan off") is read as the price 10. The first regex finds the number before
  the discount keyword is ever looked at (`PriceExtraction.NumberBeatsDiscountWord`).
  The same happens with the canned seller reply "…最多再便宜10块" ("at most 10
  kuai cheaper"): when the price was above 10 and the target is at least
  10, a negotiation ends at 10 after one round (`Negotiation.TenKuaiReplyEndsAtTen`).
- **Timeouts.** A timed-out batch discards the results of sessions that had
  already finished (`Coordinator.TimeoutDiscardsFinishedWork`).
- **Service key.** The coordinator hands each session its shared service
  under the key `"xianyu_service"`. The negotiation agent reads
  `"goofish_service"`, so every session fails with the missing-service error
  (`Coordinator.SessionOnCoordinatorData`). The coordinator runs these very
  sessions, so no price is ever negotiated and the best deal of a comparison
  is the first product of least listed price
  (`Coordinator.CoordinatorAgent.NegotiateAndCompare`).
- **Missing `XianyuService`.** `_parallel_negotiate` imports a class the
  service module does not define. With the module as it is, every run that
  finds products ends in the exception path. This is stated by the last
  `ensures` of `Coordinator.CoordinatorAgent.Execute`.
- **Module name.** `coordinator_agent.py` and `search_agent.py` import
  `app.models.schemas`, but the module is `schema.py`. The model treats the
  import as resolved.

## Model

| member | source | states |
|---|---|---|
| Text.Lower | app/agents/search_agent.py:92 | lower-casing keeps the length and maps every character by the ASCII lower-case map |
| Text.Strip | app/agents/search_agent.py:92 | the result is empty or neither starts nor ends with whitespace |
| Text.TrimLeftDropsOnlySpaces | app/agents/search_agent.py:92 | `lstrip` keeps a suffix and drops only whitespace |
| Text.TrimRightDropsOnlySpaces | app/agents/search_agent.py:92 | `rstrip` keeps a prefix and drops only whitespace |
| Text.StripIdempotent | app/agents/search_agent.py:92 | stripping a stripped title changes nothing |
| Text.Split | app/services/deepseek_client.py:167 | every piece of `split()` is a non-empty run of non-whitespace |
| Text.SplitKeepsNonSpace | app/services/deepseek_client.py:167 | the pieces of `split()`, joined, are exactly the non-whitespace characters of the input, in order |
| Text.ContainsAt | app/agents/negotiation_agent.py:162 | the substring test `in` holds iff the text occurs at some index |
| Schema.StatusesDistinct | app/models/schema.py:9-18 | the eight task statuses are all listed and have pairwise distinct string values |
| Schema.NewProductInfo | app/models/schema.py:31-41 | a product gets the given fields and an empty image list by default |
| Schema.NewCommunicationRecord | app/models/schema.py:43-49 | a record starts with no messages, no final price and status "pending" |
| Schema.NewTaskProgress | app/models/schema.py:51-61 | a progress record starts at 0 progress with the given message ("" when none is given), no products, communications or best deal, created and updated now |
| Schema.DefaultMessageEmpty | app/models/schema.py:55-56 | a record created without a message has message "" and differs from one created with a message in that field only |
| BaseAgents.BaseAgent.constructor | app/agents/base_agent.py:13-18 | a new agent is "idle" with creation and last-activity time both now |
| BaseAgents.BaseAgent.UpdateStatus | app/agents/base_agent.py:33-37 | sets the status and refreshes the last-activity time |
| BaseAgents.BaseAgent.GetInfo | app/agents/base_agent.py:39-47 | reports id, type, status and both times as they are |
| BaseAgents.StatusRoundTrip | app/agents/base_agent.py:33-47 | after `update_status`, `get_info` reports the new status and time under the same identity |
| PriceExtraction.MatchAt | app/agents/negotiation_agent.py:144-151 | a match at index i is the maximal number `\d+\.?\d*` starting there, with ASCII or full-width digits, followed by the pattern's unit character when it has one |
| PriceExtraction.FullWidthPriceRead | app/agents/negotiation_agent.py:144-157 | "便宜到８００元" with full-width digits is read as the price 800 from a current price of 1000 |
| PriceExtraction.FirstMatchIsLeftmost | app/agents/negotiation_agent.py:151-152 | `findall(...)[0]` is the leftmost match: no match before it, and no match at all when it is absent |
| PriceExtraction.TryPatterns | app/agents/negotiation_agent.py:150-159 | a price found is plausible (0 < price < 2 × current); none is found iff no pattern gives a plausible first match |
| PriceExtraction.ExtractPrice | app/agents/negotiation_agent.py:130-167 | for a positive current price, the extracted price lies in (0, 2 × current) |
| PriceExtraction.FirstPlausiblePatternWins | app/agents/negotiation_agent.py:150-157 | the first pattern, in the order 元, 块, bare number, whose first match is plausible decides the price |
| PriceExtraction.DiscountFallbackBounds | app/agents/negotiation_agent.py:161-165 | with no plausible number but a discount keyword, the price lies in [0.8 × current, current) and is either the 80% floor or at least 5 below the current price |
| PriceExtraction.NoCueKeepsPrice | app/agents/negotiation_agent.py:167 | with neither a plausible number nor a discount keyword the current price is returned |
| PriceExtraction.NumberBeatsDiscountWord | app/agents/negotiation_agent.py:144-157 | "可以优惠10元" is read as price 10, not as a discount |
| PriceExtraction.CannedDiscountReplyReadsAsTen | app/agents/negotiation_agent.py:144-157 | the canned reply "…最多再便宜10块" is read as price 10 |
| Goofish.PhoneTitlesIff | app/services/goofish_service.py:388-403 | the phone title set is used iff the query mentions "iphone" (any case) or 手机; the generic set otherwise |
| Goofish.MockPrice | app/services/goofish_service.py:406-410 | a mock price is at least 100, and at most the ceiling when the ceiling is at least 100 |
| Goofish.GenerateMockProducts | app/services/goofish_service.py:383-425 | exactly five products, ids and seller ids numbered 0–4, the titles in order, description = title, prices within the mock bounds |
| Goofish.CompleteUrl | app/services/goofish_service.py:350-351 | a non-empty relative link gets the site origin in front; absolute and empty links stay as they are |
| Goofish.ParseListing | app/services/goofish_service.py:282-370 | every product kept has a non-empty title and 0 < price ≤ max price, location "未知", description = title and a complete or empty URL |
| Goofish.ParseListingCount | app/services/goofish_service.py:354 | exactly the acceptable entries become products |
| Goofish.GoofishService.constructor | app/services/goofish_service.py:23-26 | a new service has no driver and is not logged in |
| Goofish.GoofishService.Login | app/services/goofish_service.py:41-222 | succeeds iff the flow is accepted; only then is `is_logged_in` set; a rejected flow leaves a driver and the flag; a browser failure changes nothing |
| Goofish.GoofishService.GetSellerResponse | app/services/goofish_service.py:457-486 | the reply is one of the five canned replies and is never empty |
| Goofish.GoofishService.SearchProducts | app/services/goofish_service.py:224-381 | without a driver nothing; otherwise between 1 and 10 products, all with positive prices, none above a ceiling of at least 100 |
| Goofish.GoofishService.Close | app/services/goofish_service.py:488-493 | the driver is gone, the login is forgotten, and sending is refused afterwards |
| DeepSeek.FirstUserMessageIgnoresTail | app/services/deepseek_client.py:99-103 | the mock reply looks only at the first user message |
| DeepSeek.MockResponse | app/services/deepseek_client.py:97-119 | the mock reply is one of the three fixed texts and is never empty |
| DeepSeek.AttemptsShape | app/services/deepseek_client.py:58-95 | at most `max_retries` calls; a wait before every call but the first, 2^k after a connection error at attempt k and 1 after another error; every call but the last failed retryably |
| DeepSeek.AttemptsOutcome | app/services/deepseek_client.py:58-95 | mock mode is entered only on a connection error at the last attempt after retryable errors only; None comes back only for `max_retries ≤ 0` or an API answer with no or an empty first choice |
| DeepSeek.ApiErrorAnswersWithMock | app/services/deepseek_client.py:84-86 | an API error answers with the mock reply at once, with no wait and no mode change |
| DeepSeek.ThreeConnectionErrors | app/services/deepseek_client.py:75-82 | three connection errors wait 1 s and 2 s, then switch to mock mode and answer with the mock reply |
| DeepSeek.DeepSeekClient.constructor | app/services/deepseek_client.py:13-31 | mock mode iff the key is missing, is the placeholder, or the client construction raised |
| DeepSeek.DeepSeekClient.ChatCompletion | app/services/deepseek_client.py:33-95 | the retry loop returns the reply and waits of `ChatCompletionSpec`; mock mode, once on, stays on and answers at once |
| DeepSeek.DeepSeekClient.AnalyzeProductRequirement | app/services/deepseek_client.py:121-174 | the analysis is `AnalysisResult` of the chat reply to the analysis prompt |
| DeepSeek.DeepSeekClient.GenerateNegotiationMessage | app/services/deepseek_client.py:176-224 | the message is the chat reply, or the fixed opener when that is None or empty; never empty |
| DeepSeek.OrFallback | app/services/deepseek_client.py:224 | a non-empty reply is kept; otherwise the fixed opener; never empty |
| DeepSeek.StripCodeFence | app/services/deepseek_client.py:155-160 | the cleaned reply neither starts nor ends with whitespace |
| DeepSeek.FencedReplyUnwrapped | app/services/deepseek_client.py:155-160 | a stripped body wrapped in a ```json fence comes back as the body |
| DeepSeek.DefaultAnalysis | app/services/deepseek_client.py:166-174 | the default analysis is an object whose keywords are the query's `split()` as an array of strings, with the fixed category, features and levels |
| DeepSeek.AnalysisResult | app/services/deepseek_client.py:150-174 | an empty or missing reply, or one that fails to parse, gives the default analysis; otherwise whatever JSON value the cleaned reply parses to, object or not |
| DeepSeek.MockAnswersAnalysisWithJson | app/services/deepseek_client.py:106-115 | in mock mode the analysis prompt is answered with the fixed analysis JSON |
| Search.Dedup | app/agents/search_agent.py:85-97 | the de-duplicated list is no longer than the input |
| Search.DedupIsOrderedSubsequence | app/agents/search_agent.py:85-97 | the kept products are, in input order, the products at strictly increasing indices, each the first with its title key |
| Search.DedupKeys | app/agents/search_agent.py:85-97 | de-duplication loses no title key |
| Search.DedupDistinct | app/agents/search_agent.py:85-97 | no two kept products share a title key |
| Search.DedupKeepsFirstOccurrences | app/agents/search_agent.py:85-97 | a product is kept iff it is the first one with its title key |
| Search.DedupOfDistinct | app/agents/search_agent.py:85-97 | products with distinct keys pass through unchanged |
| Search.DedupIdempotent | app/agents/search_agent.py:85-97 | de-duplicating twice equals de-duplicating once |
| Search.SortByPrice | app/agents/search_agent.py:103 | the sorted list is a permutation of the input, ordered by price |
| Search.InsertSorted | app/agents/search_agent.py:103 | inserting into a price-sorted list keeps it sorted |
| Search.SortByPriceStable | app/agents/search_agent.py:103 | the sort is stable: products of equal price keep their listed order |
| Search.FilterProducts | app/agents/search_agent.py:99-103 | the filter keeps min(n, 10) products, sorted by price, drawn from the input |
| Search.FilterKeepsCheapest | app/agents/search_agent.py:103 | every product dropped costs at least as much as every product kept |
| Search.SearchKeywords | app/agents/search_agent.py:55-58 | a non-object analysis fails for lack of `get`; a missing key searches the query; an array gives its first three items; a string its first three characters, one by one; null, a number, a boolean or an object fails with the slicing error |
| Search.SearchAll | app/agents/search_agent.py:56-61 | without a driver nothing is found and nothing fails; with one the search succeeds iff every keyword is a string, and then finds something for any keyword; all prices are positive |
| Search.SearchFailsAtFirstOther | app/services/goofish_service.py:379-388 | with a driver, the search ends at the first keyword that is not a string: `quote` rejects it, and the mock fallback fails on its missing `lower` |
| Search.SearchAgent.constructor | app/agents/search_agent.py:15-17 | a new "search_agent" with its own fresh, logged-out service |
| Search.SearchAgent.DeduplicateProducts | app/agents/search_agent.py:85-97 | the loop over a seen-title set computes `Dedup` by the title key |
| Search.SearchAgent.SearchEach | app/agents/search_agent.py:56-61 | the keyword loop concatenates each keyword's results in order, or stops with the first error (`SearchAll`) |
| Search.SearchAgent.Execute | app/agents/search_agent.py:19-83 | bad credentials fail with the validation error and status "failed"; a failed login returns "登录失败"; otherwise an error from the keywords or the searches fails with its text and status "failed", and success gives the filtered de-duplicated results of all keywords with status "completed" |
| Search.SearchAgent.Close | app/agents/search_agent.py:105-108 | the agent's service ends with no driver and no login |
| Search.SucceededSearchFindsProducts | app/agents/search_agent.py:58-65 | after a successful login, a search with at least one keyword, all strings, succeeds and returns between 1 and 10 products sorted by price |
| Negotiation.Session | app/agents/negotiation_agent.py:84-128 | the price never rises, stays positive, and at most the given rounds run |
| Negotiation.SessionStopsOnlyAtTarget | app/agents/negotiation_agent.py:116-123 | a negotiation ends early only at a price at or below the target and below the start |
| Negotiation.SessionContinues | app/agents/negotiation_agent.py:87-126 | a round that does not reach the target hands its price and log on to the remaining rounds, and counts as one round |
| Negotiation.SessionStopsAtFirstTargetRound | app/agents/negotiation_agent.py:115-123 | when round j is the first to lower the price to the target or below, exactly j + 1 rounds run and the price is that round's |
| Negotiation.SessionRunsAllRounds | app/agents/negotiation_agent.py:87-126 | when no round reaches the target, every round runs and the price is the one the rounds lead to |
| Negotiation.SessionLogBound | app/agents/negotiation_agent.py:96-112 | the log keeps its old entries, gains at most two per round, and gains "sent" entries only when sending works |
| Negotiation.ThreeRoundsAtMostSixEntries | app/agents/negotiation_agent.py:87-112 | three rounds log at most six entries, so at most three reported rounds |
| Negotiation.TenKuaiReplyEndsAtTen | app/agents/negotiation_agent.py:115-123 | the canned "10 kuai" reply ends a negotiation after one round at price 10 when the price was above 10 and the target at least 10 |
| Negotiation.SessionLogShape | app/agents/negotiation_agent.py:96-112 | with the canned replies each round logs two entries when logged in and one otherwise |
| Negotiation.ReportedRounds | app/agents/negotiation_agent.py:61 | the reported rounds (half the log) equal the rounds run only when logged in, half of them otherwise |
| Negotiation.NegotiationAgent.constructor | app/agents/negotiation_agent.py:15-20 | a new "negotiation_agent" for the seller, with no service, an empty log and three rounds |
| Negotiation.NegotiationAgent.NegotiateWithSeller | app/agents/negotiation_agent.py:73-128 | the round loop ends with the price and log that `Session` gives |
| Negotiation.NegotiationAgent.Execute | app/agents/negotiation_agent.py:22-71 | no service under "goofish_service": the missing-service error; a raised fault: that error and "failed"; otherwise the session's price, log and half the log length |
| Coordinator.SelectCandidates | app/agents/coordinator_agent.py:112-113 | the first min(n, 5) products |
| Coordinator.SessionOnCoordinatorData | app/agents/coordinator_agent.py:128-132 | a session run on the data the coordinator builds always fails with the missing-service error |
| Coordinator.GatheredResults | app/agents/coordinator_agent.py:142-164 | one result per selected product |
| Coordinator.GatheredResultsBySlot | app/agents/coordinator_agent.py:148-164 | slot i is session i's result, or its exception with seller i's id, or the timeout error when the batch timed out |
| Coordinator.TimeoutDiscardsFinishedWork | app/agents/coordinator_agent.py:162-164 | after a timeout no slot reports a completed negotiation |
| Coordinator.MissingServiceSlots | app/agents/coordinator_agent.py:128-135 | the slots of sessions run on the coordinator's data: one per session, each the missing-service failure |
| Coordinator.NoSessionNegotiates | app/agents/coordinator_agent.py:142-164 | gathered from those slots, every result is the missing-service failure, or the timeout failure when the batch timed out |
| Coordinator.ScanKeepsPrices | app/agents/coordinator_agent.py:184-193 | when no negotiation succeeded the scan overwrites no price |
| Coordinator.ScanWithoutDeals | app/agents/coordinator_agent.py:170-200 | when no negotiation succeeded the products keep their listed prices and the best deal is the first product of least listed price |
| Coordinator.Concluded | app/agents/coordinator_agent.py:56-93 | a task's final record keeps its id, creation time and product count, and takes the status and progress of the run's last checkpoint and the run's final message ("搜索失败: …", "未找到符合条件的商品", "执行失败: …" or "比价完成") |
| Coordinator.ScanDeals | app/agents/coordinator_agent.py:170-200 | the scan changes only the prices of products already visited; the best price is the best product's current price |
| Coordinator.ScanOverwrites | app/agents/coordinator_agent.py:184-193 | a product's price is overwritten iff its negotiation succeeded below the best price so far, and then it becomes the negotiated price |
| Coordinator.ScanFindsStableMinimum | app/agents/coordinator_agent.py:181-200 | when no negotiated price exceeds its listed price, the best deal is the first product of least effective price |
| Coordinator.StepKeepsStableMinimum | app/agents/coordinator_agent.py:184-198 | one iteration extends that minimum from the first i products to the first i + 1 |
| Coordinator.StepBest | app/agents/coordinator_agent.py:184-198 | an iteration makes its product the best iff its effective price beats the best so far |
| Coordinator.CheckpointPathsShape | app/agents/coordinator_agent.py:37-94 | every run starts at INITIALIZING 0, never sets LOGGING_IN, ends FAILED 0 iff it failed and COMPLETED 100 otherwise, and progress never drops on a completed run |
| Coordinator.CoordinatorAgent.constructor | app/agents/coordinator_agent.py:19-22 | a new "coordinator_agent" with no tasks and no active agents |
| Coordinator.CoordinatorAgent.UpdateProgress | app/agents/coordinator_agent.py:202-208 | for a known task sets status, message and progress and nothing else; an unknown id changes nothing |
| Coordinator.CoordinatorAgent.GetTaskProgress | app/agents/coordinator_agent.py:210-214 | the record of a known task, None for an unknown id |
| Coordinator.CoordinatorAgent.ParallelNegotiate | app/agents/coordinator_agent.py:96-168 | without `XianyuService` the import error; otherwise one session per selected product, run on data with target 0.8 × max price and the shared service under "xianyu_service", and the results gathered from those sessions, so every result is the missing-service failure or the timeout failure |
| Coordinator.CoordinatorAgent.Gather | app/agents/coordinator_agent.py:147-164 | the result loop gives, for any slot outcomes, exactly the gathered results: an exception becomes a failure naming its seller, a timeout gives the timeout failure everywhere |
| Coordinator.CoordinatorAgent.FindBestDeal | app/agents/coordinator_agent.py:170-200 | the in-place loop leaves the prices `ScanDeals` gives and returns its best product, None iff there are no products |
| Coordinator.CoordinatorAgent.CompareFound | app/agents/coordinator_agent.py:59-93 | the SEARCHING 30 checkpoint, then with no products: COMPLETED 100 with "未找到符合条件的商品" and no best deal; otherwise the import error, or a comparison of the products at their listed prices whose best deal is the first product of least price; only this task's record changes, ending as `Concluded` says, and the active agents are untouched |
| Coordinator.CoordinatorAgent.NegotiateAndCompare | app/agents/coordinator_agent.py:66-93 | COMMUNICATING 40, then FAILED 0 with "执行失败: " and the exception text, or the comparison with the first product of least listed price as best deal; only this task's record changes |
| Coordinator.CoordinatorAgent.CompareGathered | app/agents/coordinator_agent.py:69-77 | the comparison after the coordinator's sessions: the best deal is the first product of least listed price, the record ends COMPLETED 100 with "比价完成" |
| Coordinator.CoordinatorAgent.ConcludeComparison | app/agents/coordinator_agent.py:71-88 | COMPARING 80, the best deal of the scan over the products, COMPLETED 100 with "比价完成"; only this task's record changes |
| Coordinator.CoordinatorAgent.FinishRun | app/agents/coordinator_agent.py:55-93 | a failed search ends FAILED 0 with "搜索失败: " and the search error; otherwise the comparison or the import error; the record ends as `Concluded` says and the outcome is one `ReportedOutcome` allows |
| Coordinator.CoordinatorAgent.NewSearchAgent | app/agents/coordinator_agent.py:50-51 | a fresh search agent "search_<task id>" registered among the active agents |
| Coordinator.CoordinatorAgent.RunSearch | app/agents/coordinator_agent.py:50-53 | the search agent is created, registered and run; bad credentials come back as the validation error |
| Coordinator.CoordinatorAgent.StartTask | app/agents/coordinator_agent.py:37-48 | the task's record is created at INITIALIZING 0 and moved to SEARCHING 10 |
| Coordinator.CoordinatorAgent.Execute | app/agents/coordinator_agent.py:24-94 | the task's record is created afresh and ends as `Concluded` says, with no other record changed; "search_<task id>" is registered and no other active agent changes; the checkpoints follow the path of the outcome; failures carry the search error or the import error; a comparison negotiates the first five products, none successfully, and its best deal is the first product of least listed price; with the service module as it is, no run compares |

## Left out

- Concurrency: the sessions of the `asyncio.gather` fan-out run one after another, and `wait_for` is replaced by its outcome (a `timedOut` flag, an input); the interleaving of sessions on the shared service and the timing behind a timeout are not modelled.
- Sleeps (retry back-off, the pause between rounds, simulated network delays) are not modelled; the retry waits are returned as values.
- Timestamps: `datetime.now()` is an integer clock reading passed in; log-entry timestamps are dropped.
- The task id from `uuid.uuid4()` is a parameter.
- `str.lower()` is modelled on ASCII letters only; Unicode case mapping is not modelled.
- The browser automation (Selenium, BeautifulSoup selectors, the price regex on the price element) is replaced by what it read: `ScrapedPage`, `RawItem` and `LoginOutcome`.
- The OpenAI client call and `json.loads` are inputs (`ApiOutcome`, `loads`); the full multi-line system prompts are abbreviated to their first sentence, which no modelled behaviour reads.
- Python's `repr` of the product, seller and history inside the negotiation prompt is not modelled; those texts are inputs of `NegotiationUserMessage`.
- Pydantic validation of the credentials is a `Result` in the task data.
- `round(price, 2)` on mock prices is not modelled.
- Prices are exact reals, so the IEEE double rounding of `current_price * 0.8`, `max_price * 0.8`, `max_price * 0.6` and the comparison `< current_price * 2` is not modelled.
- PriceExtraction.MatchAt: `\d` is modelled as the ASCII and full-width digits; other Unicode decimal digits (Arabic-Indic, Devanagari and the like) are not recognised.
- Search.SearchKeywords: slicing a JSON object is given the text Python 3.11 and earlier raise ("unhashable type: 'slice'"); from Python 3.12 it is a `KeyError` whose text is "slice(None, 3, None)".
- DeepSeek.Analysis: the fields other than `keywords` of a parsed object are modelled as the types of the default analysis; nothing in the core reads them.
- Negotiation.NegotiationAgent.Execute: an exception is modelled only as raised before the first round (`fault`); an exception in the middle of a round, after part of the log was written, is not modelled.
- The exact `ImportError` text omits the module file path that Python appends.
- Coordinator.CoordinatorAgent.RunSearch: its contract states only registration and the credentials-failure result; what a successful search returns is stated by `Search.SearchAgent.Execute`.
- Coordinator.CoordinatorAgent.FindBestDeal: works on an array copy of the product list; the sharing of `ProductInfo` objects between that list and the returned one is modelled by returning the updated copy.
- The search agent is closed only on the path where the comparison runs, as in the source; not closing it on other paths is kept, and resource release itself is not modelled.
- `send_message_to_seller` is modelled as its guard (`SendMessageToSeller`): it succeeds exactly when a driver is running and the login succeeded.
- The HTTP routes (`app/api/routes.py`), `main.py` and the test scripts are not part of this model.
