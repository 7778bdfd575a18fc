# TradeRadar alert core in Dafny

TradeRadar watches Chinese and Hong Kong equities for unusual moves and
turns them into alerts for subscribed users. This project models the core of
its Go services, plus the news crawler written in Python, and proves
properties of that model:

- **Rule engine** (`rule_engine.dfy`, module `RuleEngine`). Detection rules are
  keyed by symbol, with `"*"` holding the global rules. Subscriptions are
  keyed by id. Rules are evaluated against a quote, and severity comes from
  intensity bands. Each fired rule is fanned out to the subscribers whose
  enabled rules admit the move. Alerts go to a channel of fixed capacity
  without blocking, so an alert that finds the channel full is dropped.
  Adding a subscription appends the detection rules derived from it, and
  removing one rebuilds the rule lists of its symbols.
- **Monitoring engine** (`monitor_engine.dfy`, module `MonitorEngine`).
  It shares the rule engine's subscription table and provides:
  - the periodic sweep of one pass: the validity and expiry transition, the
    price-change, volume and price-level rules, news checks, the staleness
    warning and the expiry warning;
  - the push path for news;
  - validation of subscription changes.
- **Legacy rule engine** (`legacy_rules.dfy`, module `LegacyRules`). This is
  the older engine of `pkg/engine/rules.go`. It has no Enabled check and
  makes one blocking send per fired rule. That file declares a second
  `RuleEngine` type and a second `NewRuleEngine` in package `engine`
  (rules.go:11 and :17, beside rule_engine.go:15 and :22), so the two files
  cannot be built together. Each is modelled in its own module.
- **News collector** (`news_collector.dfy`, module `NewsCollector`). It turns
  raw crawler messages into news events: stock-code extraction, keyword
  sentiment, impact score and keywords. It keeps a news cache keyed by id,
  answers newest-first queries over it, and keeps the list of update
  handlers.
- **In-memory repository** (`repository.dfy`, module `MemoryRepository`).
  Subscriptions are indexed three ways: by id, by user, and the older
  per-symbol entries. Save, update and delete keep the indexes consistent.
  The repository also holds the alert log with its history window and the
  seed detection rules.
- **Health monitor** (`health_monitor.dfy`, module `HealthMonitor`). It keeps
  a table of component statuses. A callback fires when a component moves to
  a status other than "healthy".
- **Quote adapters.** `tushare.dfy` covers the normalisation of the Tushare
  field table and the code join. `akshare.dfy` covers AKShare's suffix
  dispatch, its per-market list cache and its code matching.
- **API layer.** `api.dfy` covers symbol validation, the GetQuotes parameter
  split, the `binding:"required"` checks on the SubscribeStock body and the subscription that SubscribeStock builds. `notification.dfy`
  covers the daily summary text.
- **Configuration** (`config.dfy`, module `Config`). Environment variables
  are laid over the YAML file, and the default config path is derived from
  `APP_ENV`.
- **CLS crawler** (`cls_crawler.dfy`, module `ClsCrawler`). It covers the
  history keyed by id and its merge, the crawl loop's dedup filter, the
  title, author and body heuristics, and the two selector heuristics.
- **Shared modules.** `model.dfy` holds the records shared by all of the
  above. `strings.dfy` holds the few string operations of Go's `strings`
  package and Python's `str` that the model needs.

Code that changes state in place is modelled imperatively:
- Engines, the repository, the collector, the health monitor, the crawler and
  the configuration are classes with `modifies` clauses.
- Loops are methods with invariants. Each method is proved against a
  specification function, and the promised properties are lemmas about that
  function.

The modelling choices that cut across files:
- Go `float64` is `real`.
- Instants are integer seconds supplied as `now`.
- A uuid is the n-th value of an injective generator, and an engine counts
  how many it has drawn.
- The iteration order of a Go map is an `order` parameter that lists every
  key exactly once. Go may draw a different order each time a map is
  ranged over, so an operation that ranges over a map several times takes
  one order per range (`orders`, a sequence of such orders, checked by
  `Model.AreOrdersOf`). The i-th fired rule of `RuleEngine.Engine.EvaluateRules`
  fans out in the i-th order, and the i-th symbol rebuilt by
  `RuleEngine.Engine.RemoveSubscription` is rebuilt in the i-th order.
- A blocking channel send that completes is an append to a log of sent
  alerts.
- Code that would panic in Go appears as a precondition. Examples are an
  index out of range and a failed type assertion.
- A threshold that Go divides by is required to be positive. A `float64`
  division by zero or by a negative number does not panic in Go; it gives
  an infinity, a NaN or a negative intensity. Those IEEE values are not
  modelled (see "## Left out"), so the model requires positive thresholds
  there instead.

Where the code disagrees with itself or with its documented design, the
model follows the code:
- The subscription fields `ExpiresAt`, `LastCheckedAt` and the status
  `expired` are used by the monitoring engine but missing from the
  subscription record. They are added to the record.
- The two rule engines grade severity differently. The monitoring engine
  uses multiples of the threshold; the rule engine uses intensity bands.
  Both are kept as written.
- The volume rule is strict (`>`) in the monitoring engine and not strict
  (`>=`) in the rule engine. Both are kept as written.
- The seed rules leave `Enabled` at its zero value. So in the subscription
  engine they never fire, while the legacy engine fires them.
  `LegacyRules.SeedScenario` states both outcomes.

## Model

| member | source | states |
|---|---|---|
| RuleEngine.UuidInjective | pkg/engine/rule_engine.go:116 | distinct draws of the id generator give distinct alert and rule ids |
| RuleEngine.CalculateSeverity | pkg/engine/rule_engine.go:164-174 | a severity is always assigned (never the unset value) |
| RuleEngine.SeverityBands | pkg/engine/rule_engine.go:164-174 | Critical iff intensity >= 3, High iff 2 <= i < 3, Medium iff 1.5 <= i < 2, Low iff i < 1.5 |
| RuleEngine.SeverityMonotone | pkg/engine/rule_engine.go:164-174 | a larger intensity never gives a lower severity |
| RuleEngine.EvaluateRule | pkg/engine/rule_engine.go:59-90 | a rule fires iff it is enabled and is a price rule with abs(changePercent) >= threshold or a volume rule with volume >= threshold; intensity is the ratio to the threshold, at least 1, and severity is calculateSeverity of it |
| RuleEngine.CountMatchingPositive | pkg/engine/rule_engine.go:107-113 | a subscription yields alerts iff some enabled subscriber rule of the fired type has its threshold reached by abs(changePercent) |
| RuleEngine.StampConcat | pkg/engine/rule_engine.go:116 | ids are drawn in order: stamping two lists in a row equals stamping their concatenation |
| RuleEngine.StampedIdsDistinct | pkg/engine/rule_engine.go:116 | alerts produced in one run carry pairwise distinct ids |
| RuleEngine.FanOutSound | pkg/engine/rule_engine.go:99-148 | every fanned-out alert carries the quote's symbol, the rule's type, threshold, intensity and severity, and belongs to a subscription that watches the symbol and has an admitting rule |
| RuleEngine.RemovedSubscriptionGetsNoAlerts | pkg/engine/rule_engine.go:213-222 | once a subscription is deleted from the table, no fan-out addresses an alert to it |
| RuleEngine.DeliveredConcat | pkg/engine/rule_engine.go:135-141 | two non-blocking sends in a row behave as one send of both lists |
| RuleEngine.DeliveredBounds | pkg/engine/rule_engine.go:135-141 | a send never loses or reorders buffered alerts, never overfills the channel, accounts for every alert as buffered or dropped, and drops only when the buffer is full |
| RuleEngine.OfferedConcat | pkg/engine/rule_engine.go:102-147 | consecutive sends with fresh ids compose into one send of the concatenated alerts stamped in one go |
| RuleEngine.OfferedOne | pkg/engine/rule_engine.go:115-141 | publishing one alert with the next uuid is a send of that alert that advances the generator by one |
| RuleEngine.DerivedShapes | pkg/engine/rule_engine.go:187-207 | the detection rules derived from a subscription are exactly its enabled rules (type, threshold, description) in order, all enabled and stamped now |
| RuleEngine.AppendRulesLookup | pkg/engine/rule_engine.go:30-36 | appending to a symbol's list changes only that symbol's list, and creates the key only when something is added |
| RuleEngine.SubscriptionRulesElsewhere | pkg/engine/rule_engine.go:176-211 | adding a subscription leaves the rules of every symbol it does not watch untouched |
| RuleEngine.SubscriptionRulesNone | pkg/engine/rule_engine.go:189-192 | a subscription without enabled rules leaves the rule table and id generator unchanged |
| RuleEngine.SubscriptionRulesAppended | pkg/engine/rule_engine.go:176-211 | each symbol keeps its old rules as a prefix and gains one copy of the enabled subscriber rules per occurrence of the symbol in the subscription |
| RuleEngine.OccurrencesZero | pkg/engine/rule_engine.go:187 | a symbol occurs zero times iff it is not in the subscription's list |
| RuleEngine.OccurrenceRulesShapes | pkg/engine/rule_engine.go:239-261 | one subscription contributes its enabled rules once per occurrence of the rebuilt symbol |
| RuleEngine.RebuildListShapes | pkg/engine/rule_engine.go:233-263 | a rebuilt list says exactly what the remaining subscriptions' enabled rules for the symbol say, whatever ids it draws |
| RuleEngine.RebuildAllShapes | pkg/engine/rule_engine.go:213-231 | after a removal, each symbol of the removed subscription holds the rules the remaining subscriptions call for, in the visiting order of its last rebuild, and every other symbol's rules are untouched |
| RuleEngine.PatchedFields | pkg/engine/rule_engine.go:294-305 | a patch keeps id, type and creation time, sets updatedAt, and changes threshold, enabled and description exactly when a value of the right type is supplied |
| RuleEngine.IndexOfRule | pkg/engine/rule_engine.go:293-294 | the position found is the first rule with the id, or the list length when none has it |
| RuleEngine.StatsBounded | pkg/engine/rule_engine.go:328-336 | no more rules are enabled, nor of any one type, than there are rules |
| RuleEngine.StatsStep | pkg/engine/rule_engine.go:328-336 | the totals grow symbol by symbol by that symbol's counts |
| RuleEngine.TallyList | pkg/engine/rule_engine.go:329-335 | the inner loop adds the list length, its enabled count and its per-type counts, and keeps every recorded type count positive |
| RuleEngine.Engine.constructor | pkg/engine/rule_engine.go:21-28 | a new engine has no rules, no subscriptions and an empty channel |
| RuleEngine.Engine.Receive | pkg/engine/rule_engine.go:18 | the consumer takes the oldest buffered alert, or nothing from an empty channel |
| RuleEngine.Engine.Publish | pkg/engine/rule_engine.go:135-141 | the alert is buffered when there is room and dropped (counted) otherwise; the sender never blocks |
| RuleEngine.Engine.AddRule | pkg/engine/rule_engine.go:30-36 | the rule is appended to the symbol's list, which is created when absent; other symbols are unchanged |
| RuleEngine.Engine.ReloadRules | pkg/engine/rule_engine.go:38-41 | the rule table is replaced wholesale |
| RuleEngine.Engine.ClearRules | pkg/engine/rule_engine.go:313-316 | the rule table becomes empty |
| RuleEngine.Engine.GetSubscriptions | pkg/engine/rule_engine.go:265-268 | returns the subscription table |
| RuleEngine.Engine.GetSubscription | pkg/engine/rule_engine.go:270-274 | returns the subscription stored under the id, or reports it missing |
| RuleEngine.Engine.GetRules | pkg/engine/rule_engine.go:276-279 | returns the symbol's rules, empty for an unknown symbol |
| RuleEngine.Engine.GetAllRules | pkg/engine/rule_engine.go:281-284 | returns the rule table |
| RuleEngine.Engine.UpdateRule | pkg/engine/rule_engine.go:286-311 | an unknown symbol or rule id is an error and changes nothing; otherwise exactly the first rule with the id is patched |
| RuleEngine.Engine.GetRuleStats | pkg/engine/rule_engine.go:318-345 | total and enabled rule counts, symbol and subscription counts, and a type distribution holding exactly the types that occur with their counts |
| RuleEngine.Engine.AlertMatchingRules | pkg/engine/rule_engine.go:107-142 | sends one alert, each with a fresh id, per subscriber rule that admits the fired rule |
| RuleEngine.Engine.AlertSubscription | pkg/engine/rule_engine.go:103-146 | for one subscription, alerts are sent only at the first occurrence of the symbol (the break), one per admitting rule |
| RuleEngine.Engine.GenerateAlertsForUsers | pkg/engine/rule_engine.go:99-148 | sends the fan-out of the fired rule over all subscriptions in map order, with fresh ids, through the non-blocking channel |
| RuleEngine.Engine.ApplyRule | pkg/engine/rule_engine.go:59-95 | a disabled or non-firing rule sends nothing; a firing one sends its fan-out |
| RuleEngine.Engine.EvaluateRules | pkg/engine/rule_engine.go:52-97 | sends the alerts of the symbol's rules in list order, each fired rule's fan-out ranging over the subscriptions in its own order; a symbol without rules sends nothing |
| RuleEngine.Engine.Evaluate | pkg/engine/rule_engine.go:43-50 | sends the alerts of the global "*" rules followed by those of the quote's own symbol, every fired rule with its own visiting order |
| RuleEngine.Engine.AppendDerivedRules | pkg/engine/rule_engine.go:189-207 | appends one detection rule with a fresh id per enabled subscriber rule to the symbol's list |
| RuleEngine.Engine.AddSubscription | pkg/engine/rule_engine.go:176-211 | a nil subscription changes nothing; otherwise it is stored under its id and the derived rules are appended per occurrence of each symbol |
| RuleEngine.Engine.RebuildFromSubscription | pkg/engine/rule_engine.go:239-261 | one subscription's derived rules are appended once per occurrence of the symbol |
| RuleEngine.Engine.RebuildRulesForSymbol | pkg/engine/rule_engine.go:233-263 | the symbol's list is replaced by the rules rebuilt from every subscription in map order; other symbols are untouched |
| RuleEngine.Engine.RemoveSubscription | pkg/engine/rule_engine.go:213-231 | an unknown id changes nothing; otherwise the subscription is deleted and each of its symbols is rebuilt from the rest, each rebuild ranging over them in its own order |
| MonitorEngine.NewsSeverityBands | pkg/engine/monitor_engine.go:154-164 | Critical iff impact >= 0.9, High iff 0.7 <= impact < 0.9, Medium iff 0.5 <= impact < 0.7, Low otherwise |
| MonitorEngine.SignificantNewsSeverity | pkg/engine/monitor_engine.go:149-164 | news significant by impact (> 0.7) is at least High; news significant only by negative tone can still be Low |
| MonitorEngine.PriceSeverityWhenFired | pkg/engine/monitor_engine.go:389-400 | once abs(change) reaches the threshold the price severity is at least Medium, and it never falls as abs(change) grows |
| MonitorEngine.SeverityScalesDiffer | pkg/engine/monitor_engine.go:389-400 | the price-rule bands (multiples of the threshold) and the rule engine's bands (on intensity) disagree: a change equal to the threshold is Medium here and Low there |
| MonitorEngine.HasNewsAlertRule | pkg/engine/monitor_engine.go:109-117 | true iff the subscription has an enabled news-impact rule |
| MonitorEngine.WantsNews | pkg/engine/monitor_engine.go:70-83 | general news (empty symbol) needs only a news rule; symbol news also needs the symbol among the subscription's symbols |
| MonitorEngine.NewsTargetsExact | pkg/engine/monitor_engine.go:61-107 | a subscription is alerted about pushed news iff it is in the table, passes the subscription test and the news is significant |
| MonitorEngine.NewsPushAlerts | pkg/engine/monitor_engine.go:85-105 | one news alert per targeted subscription, in map order, built from that subscription |
| MonitorEngine.QuoteRuleAlert | pkg/engine/monitor_engine.go:224-323 | an enabled price-change rule fires on abs(change) >= threshold, a volume rule on volume > threshold (strict), a price-level rule on price >= threshold; the alert is addressed to the subscriber, has intensity >= 1 and severity at least Medium (exactly Medium for volume and level) |
| MonitorEngine.ExpiryAlerts | pkg/engine/monitor_engine.go:339-359 | at most one expiry warning per check |
| MonitorEngine.Sweep | pkg/engine/monitor_engine.go:178-208 | the sweep keeps the table's keys, ids and rules; only status and last-check time change |
| MonitorEngine.SymbolAlertsShape | pkg/engine/monitor_engine.go:192-203 | every alert from the per-symbol quote and news checks is addressed to the subscriber and is not a system alert |
| MonitorEngine.QuoteRuleAlertsShape | pkg/engine/monitor_engine.go:224-238 | every quote-rule alert is addressed to the subscriber and is a quote kind |
| MonitorEngine.NewsItemAlertsShape | pkg/engine/monitor_engine.go:129-145 | every news-item alert is addressed to the user and is a news-impact alert |
| MonitorEngine.NewsCheckAlertsShape | pkg/engine/monitor_engine.go:119-147 | every checkNewsAlerts alert is addressed to the user and is a news-impact alert |
| MonitorEngine.SweepSkipsInvalid | pkg/engine/monitor_engine.go:183-187 | an inactive subscription is left alone and sends nothing; an active one past expiry is marked expired and sends nothing |
| MonitorEngine.SweepOfValid | pkg/engine/monitor_engine.go:188-207 | a valid subscription is stamped as checked now (so the staleness warning never fires), gets a system alert iff it expires within seven days, and every alert it gets is addressed to its user |
| MonitorEngine.ValidateSubscription | pkg/engine/monitor_engine.go:478-490 | passes iff the user id is non-empty and there is at least one symbol and one rule |
| MonitorEngine.Engine.constructor | pkg/engine/monitor_engine.go:22-36 | a new monitor owns a fresh, empty rule engine over a channel of the given capacity |
| MonitorEngine.Engine.HandleNewsUpdate | pkg/engine/monitor_engine.go:60-107 | sends exactly the news-push alerts of the subscriptions in map order |
| MonitorEngine.Engine.CheckNewsAlerts | pkg/engine/monitor_engine.go:119-147 | sends one alert per significant latest news item per symbol; a failed query is skipped |
| MonitorEngine.Engine.CheckQuoteRule | pkg/engine/monitor_engine.go:241-323 | sends the rule's alert exactly when it fires |
| MonitorEngine.Engine.CheckQuoteAlerts | pkg/engine/monitor_engine.go:210-239 | without a fetcher or on a failed fetch nothing is sent; otherwise each enabled quote rule is tried in order |
| MonitorEngine.Engine.CheckSubscriptionRules | pkg/engine/monitor_engine.go:325-377 | reports the ten-minute staleness warning exactly when due and sends the expiry warning exactly when expiry is within (0, 7 days] |
| MonitorEngine.Engine.IsSubscriptionValid | pkg/engine/monitor_engine.go:443-458 | valid iff active and not past expiry; an active, expired subscription is marked expired in the table and nothing else changes |
| MonitorEngine.Engine.SweepSubscription | pkg/engine/monitor_engine.go:183-207 | one subscription is swept: the table entry and the alerts sent follow the per-subscription sweep |
| MonitorEngine.Engine.CheckAllSubscriptions | pkg/engine/monitor_engine.go:178-208 | the table and the alerts sent follow the sweep over all subscriptions in map order |
| MonitorEngine.Engine.AddSubscription | pkg/engine/monitor_engine.go:460-476 | a nil or invalid subscription is an error and changes nothing; a valid one is stored and its rules derived |
| MonitorEngine.Engine.UpdateSubscription | pkg/engine/monitor_engine.go:492-517 | nil, unknown or invalid is an error and changes nothing; otherwise the old subscription is removed (rebuilding its symbols, each in its own visiting order) and the new one added |
| MonitorEngine.Engine.RemoveSubscription | pkg/engine/monitor_engine.go:519-535 | an empty or unknown id is an error and changes nothing; otherwise the rule engine drops it, rebuilding each of its symbols in its own visiting order |
| LegacyRules.FiredIntensity | pkg/engine/rules.go:53-69 | a rule fires iff it is a price rule with abs(changePercent) >= threshold or a volume rule with volume >= threshold, whether enabled or not; the intensity is the ratio to the threshold and at least 1 |
| LegacyRules.ListAlertsExact | pkg/engine/rules.go:53-79 | exactly one event per firing rule, in list order, carrying the quote's symbol, the rule's type, its intensity and the send time |
| LegacyRules.Fired | pkg/engine/rules.go:53-71 | the positions listed are in range and each names a rule that fires |
| LegacyRules.EnabledIgnored | pkg/engine/rules.go:53-79 | the Enabled flag plays no part: switching every rule on or off leaves the events unchanged |
| LegacyRules.CalculateIntensity | pkg/engine/rules.go:82-86 | the intensity is the absolute value of the percentage change |
| LegacyRules.PriceIntensityScaled | pkg/engine/rules.go:58-62 | a fired price rule's intensity times the threshold is calculateIntensity of the quote |
| LegacyRules.Engine.constructor | pkg/engine/rules.go:16-22 | a new engine has no rules and has sent nothing |
| LegacyRules.Engine.AddRule | pkg/engine/rules.go:24-30 | the rule is appended to the symbol's list, which is created when absent |
| LegacyRules.Engine.ReloadRules | pkg/engine/rules.go:32-35 | the rule table is replaced wholesale |
| LegacyRules.Engine.EvaluateRules | pkg/engine/rules.go:46-80 | sends the events of the symbol's rules in list order; a symbol without rules sends nothing |
| LegacyRules.Engine.Evaluate | pkg/engine/rules.go:37-44 | sends the events of the "*" rules followed by those of the quote's symbol |
| NewsCollector.FirstCodeFrom | pkg/collector/news_collector.go:161-163 | the leftmost start of six consecutive digits, or none when the text has no such run, as the first match of (\d{6}) |
| NewsCollector.MarketCategory | pkg/collector/news_collector.go:174-184 | the fallback is A股 iff the text names A股, else 港股 iff it names 港股, else 美股 iff it names 美股, else 通用 |
| NewsCollector.ExtractSymbolFromContent | pkg/collector/news_collector.go:159-185 | the result is never empty; it is a valid code or a category, and a valid code is the first six-digit run of the text |
| NewsCollector.ValidFirstRunReturned | pkg/collector/news_collector.go:161-171 | when the first six-digit run is a valid code, that run is the symbol, whatever markets the text names |
| NewsCollector.NoRunFallsBack | pkg/collector/news_collector.go:161-184 | text without a six-digit run gets the category fallback in the order A股, 港股, 美股, 通用 |
| NewsCollector.EarlierInvalidRunHidesCode | pkg/collector/news_collector.go:165-184 | only the first run is examined: an invalid first run gives the category fallback even when a valid code follows |
| NewsCollector.CountPresentBound | pkg/collector/news_collector.go:219-229 | each keyword counts at most once, and the score is zero iff no keyword occurs |
| NewsCollector.CountPresentGrows | pkg/collector/news_collector.go:219-229 | adding text before or after never lowers a keyword score |
| NewsCollector.SentimentByPresence | pkg/collector/news_collector.go:204-238 | text with no keyword of either list is neutral, with only negative ones negative, with only positive ones positive |
| NewsCollector.ImpactScore | pkg/collector/news_collector.go:240-278 | the impact always lies between 0.3 and 1.0 |
| NewsCollector.ImpactMonotone | pkg/collector/news_collector.go:245-270 | more reads never lower the impact; a keyword adds at most 0.2, once however many occur |
| NewsCollector.ImpactSaturates | pkg/collector/news_collector.go:246-275 | above 100000 reads the impact is 1.0 with a keyword (capped) and 0.8 without |
| NewsCollector.PresentKeywordsExact | pkg/collector/news_collector.go:280-312 | the keywords reported are exactly the listed ones the text contains, with no duplicates when the list has none |
| NewsCollector.ConvertedShape | pkg/collector/news_collector.go:109-137 | the event keeps the crawler's id and title, has a non-empty symbol, impact in [0.3, 1.0], source 财联社, and keywords that are listed and occur in the text |
| NewsCollector.AnalyzeSentiment | pkg/collector/news_collector.go:204-238 | the loops compute the keyword-count sentiment of the lower-cased text |
| NewsCollector.CalculateImpact | pkg/collector/news_collector.go:240-278 | the switch and the keyword loop compute the capped impact score |
| NewsCollector.ExtractKeywords | pkg/collector/news_collector.go:280-312 | the loop reports the listed keywords present in title + " " + content, in list order |
| NewsCollector.ConvertToNewsEvent | pkg/collector/news_collector.go:109-137 | builds the converted event |
| NewsCollector.SelectMembers | pkg/collector/news_collector.go:320-324 | the range loop keeps exactly the cached events the filter accepts |
| NewsCollector.InsertPermutes | pkg/collector/news_collector.go:327-329 | inserting adds exactly the one event |
| NewsCollector.InsertSorted | pkg/collector/news_collector.go:327-329 | inserting into a newest-first list keeps it newest first |
| NewsCollector.SortNewestFirst | pkg/collector/news_collector.go:327-329 | the result is newest first and a permutation of the input |
| NewsCollector.QueryMembers | pkg/collector/news_collector.go:314-352 | a query returns an event iff it is cached and the filter keeps it |
| NewsCollector.Collector.constructor | pkg/collector/news_collector.go:39-46 | a new collector has an empty cache and no handlers |
| NewsCollector.Collector.HandleNewsMessage | pkg/collector/news_collector.go:67-107 | an undecodable message or one without id or title is an error and leaves the cache alone; otherwise the converted event is cached under its id |
| NewsCollector.Collector.GetLatestNews | pkg/collector/news_collector.go:314-332 | the cached events of the symbol (all for an empty symbol), newest first |
| NewsCollector.Collector.GetNewsByTimeRange | pkg/collector/news_collector.go:334-352 | the cached events published strictly inside the range, newest first |
| NewsCollector.Collector.Collect | pkg/collector/news_collector.go:319-324 | the range loop collects the filtered events in visiting order |
| NewsCollector.Collector.SubscribeNewsUpdates | pkg/collector/news_collector.go:354-362 | appends one handler and succeeds |
| NewsCollector.Collector.Stop | pkg/collector/news_collector.go:364-381 | empties the cache and the handler list and succeeds |
| MemoryRepository.LoadActiveRules | pkg/repository/repository.go:105-134 | the seed table has exactly "*" (price 5.0, volume 1000000) and "000001.SZ" (price 3.0); the rules leave Enabled at its zero value and have positive thresholds |
| MemoryRepository.AppendLegacyList | pkg/repository/repository.go:41-59 | a symbol's list keeps its old entries and gains one entry per occurrence of the symbol, carrying the user and the rules |
| MemoryRepository.IndexOfUser | pkg/repository/repository.go:251-252 | the position found is the first entry of the user, or none when the list has no such entry |
| MemoryRepository.DropLegacyShrinks | pkg/repository/repository.go:248-257 | deletion only removes entries from a symbol's list |
| MemoryRepository.DropLegacyOthers | pkg/repository/repository.go:248-257 | deletion leaves the lists of the symbols the subscription does not name alone |
| MemoryRepository.LegacyType | pkg/repository/repository.go:157-167 | the three known type names keep their type and every other name becomes price_volatility |
| MemoryRepository.LegacyRulesFromEnabled | pkg/repository/repository.go:155-175 | every converted rule comes from an enabled subscriber rule |
| MemoryRepository.LegacyRulesOfEnabled | pkg/repository/repository.go:155-175 | every enabled subscriber rule is converted |
| MemoryRepository.IndexOfId | pkg/repository/repository.go:215-216 | the position found is the first subscription with the id, or none |
| MemoryRepository.IndexedAfterSave | pkg/repository/repository.go:136-150 | saving under a new id keeps the id index and the user lists consistent |
| MemoryRepository.IndexedAfterDelete | pkg/repository/repository.go:225-246 | deleting a stored subscription keeps the id index and the user lists consistent |
| MemoryRepository.IndexedAfterReplace | pkg/repository/repository.go:198-222 | an update that keeps the owner keeps the indexes consistent |
| MemoryRepository.IndexedAfterUpdate | pkg/repository/repository.go:198-222 | the corrected update keeps the indexes consistent whether or not the owner changes |
| MemoryRepository.IndexedAfterMove | pkg/repository/repository.go:198-222 | an owner-changing update handled as delete then save keeps the indexes consistent |
| MemoryRepository.UpdateAsWrittenLosesOwnerChange | pkg/repository/repository.go:213-220 | as written, an owner-changing update leaves the stale entry in the old owner's list, never reaches the new owner's list, and breaks consistency |
| MemoryRepository.MatchingMembers | pkg/repository/repository.go:95-100 | the filter keeps exactly the alerts of the symbol |
| MemoryRepository.NewestMatchingIsReversed | pkg/repository/repository.go:95-102 | the backward walk returns the symbol's alerts newest first, cut to the limit |
| MemoryRepository.NewestMatchingBounds | pkg/repository/repository.go:95-102 | at most limit alerts are returned, each stored and of the symbol |
| MemoryRepository.Repository.constructor | pkg/repository/repository.go:31-39 | a new repository is empty and consistent |
| MemoryRepository.Repository.SaveSubscription | pkg/repository/repository.go:41-59 | one entry per symbol is appended to that symbol's list; it never fails |
| MemoryRepository.Repository.GetSubscriptions | pkg/repository/repository.go:61-67 | the entries of the symbol, empty for an unknown one |
| MemoryRepository.Repository.SaveAlert | pkg/repository/repository.go:69-78 | appends exactly the alert and never fails |
| MemoryRepository.Repository.GetAlertHistory | pkg/repository/repository.go:80-103 | without a symbol, the last min(limit, n) alerts in order; with one, the newest alerts of that symbol, at most limit |
| MemoryRepository.Repository.SaveSubscriptionModel | pkg/repository/repository.go:136-188 | assigns a fresh id when empty, appends to the owner's list, indexes by id, appends per-symbol legacy entries with the converted enabled rules, and keeps the indexes consistent for a new id |
| MemoryRepository.Repository.GetUserSubscriptions | pkg/repository/repository.go:190-196 | the user's list, each entry owned by the user and the one the id index holds |
| MemoryRepository.Repository.UpdateSubscriptionAsWritten | pkg/repository/repository.go:198-223 | unknown id fails with 订阅不存在 and changes nothing; otherwise keeps the creation time, re-indexes by id and replaces the first match in the new owner's list only |
| MemoryRepository.Repository.UpdateSubscription | pkg/repository/repository.go:198-223 | as above, but an owner change moves the entry between user lists, so the indexes stay consistent |
| MemoryRepository.Repository.DeleteSubscription | pkg/repository/repository.go:225-260 | unknown id fails and changes nothing; otherwise the subscription leaves the id index, its owner's list and, per symbol, the first entry of its owner; the indexes stay consistent |
| MemoryRepository.Repository.SaveLegacyEntries | pkg/repository/repository.go:153-185 | the per-symbol loop appends one legacy entry per symbol |
| MemoryRepository.Repository.DropLegacyEntries | pkg/repository/repository.go:249-257 | the per-symbol loop removes the owner's first entry from each symbol's list |
| MemoryRepository.ConvertRules | pkg/repository/repository.go:155-175 | the loop converts exactly the enabled rules, in order |
| MemoryRepository.RemoveUserEntry | pkg/repository/repository.go:240-246 | the loop removes the first entry with the id from the user's list |
| MemoryRepository.ReplaceUserEntry | pkg/repository/repository.go:214-220 | the loop replaces the first entry with the id in the new owner's list |
| MemoryRepository.FindId | pkg/repository/repository.go:215-216 | the search loop finds the first position of the id |
| MemoryRepository.FindUser | pkg/repository/repository.go:251-252 | the search loop finds the first entry of the user |
| HealthMonitor.Updated | pkg/monitor/monitor.go:46-61 | the component is present afterwards with the new status and message, other components untouched; a missing one is created under its own name |
| HealthMonitor.RepeatedStatusQuiet | pkg/monitor/monitor.go:62-65 | reporting the same status twice alerts at most once, and "healthy" never alerts |
| HealthMonitor.FirstReportAlerts | pkg/monitor/monitor.go:34-65 | an unknown component alerts on its first non-empty, non-healthy status; a registered one alerts on any status other than "unknown" and "healthy" |
| HealthMonitor.ProbeReport | pkg/monitor/monitor.go:93-109 | "healthy" with no message iff the response is 200; "unhealthy" iff the request failed; otherwise "degraded" |
| HealthMonitor.Monitor.constructor | pkg/monitor/monitor.go:26-32 | a new monitor knows no components and has raised nothing |
| HealthMonitor.Monitor.RegisterComponent | pkg/monitor/monitor.go:34-44 | the component is (re)set to "unknown" with no message |
| HealthMonitor.Monitor.UpdateStatus | pkg/monitor/monitor.go:46-66 | the entry is updated and the callback is called exactly on a change to a non-healthy status |
| HealthMonitor.Monitor.GetStatus | pkg/monitor/monitor.go:68-78 | the component's entry, or nil iff it is unknown |
| HealthMonitor.Monitor.GetAllStatus | pkg/monitor/monitor.go:80-91 | one entry per known component, every known entry present and nothing else; the j-th entry is the status of the j-th component in the map's visiting order |
| HealthMonitor.Monitor.CheckHTTPEndpoint | pkg/monitor/monitor.go:93-109 | the probe outcome is reported through UpdateStatus |
| Tushare.ToFloat64 | pkg/collector/tushare.go:161-175 | float kinds convert to their value, integer kinds to their real value, strings go through the parser, every other kind is an error |
| Tushare.FieldIndices | pkg/collector/tushare.go:71-74 | the index knows exactly the response's field names, and each maps to a position holding that name |
| Tushare.FieldIndicesLast | pkg/collector/tushare.go:71-74 | for a repeated field name the last position wins |
| Tushare.BuildFieldIndices | pkg/collector/tushare.go:71-74 | the loop builds exactly the field-index map |
| Tushare.RowQuoteFields | pkg/collector/tushare.go:85-136 | the quote carries the row's code and the collection time; the price is the converted close cell or zero when it does not convert; every optional field absent from the response stays zero (name empty); close, amount and change are never set |
| Tushare.Normalized | pkg/collector/tushare.go:67-142 | an error iff ts_code or close is missing from the fields; otherwise one quote per row |
| Tushare.RowQuotes | pkg/collector/tushare.go:85-139 | one quote per row, the i-th quote built from the i-th row |
| Tushare.NormalizeQuotes | pkg/collector/tushare.go:67-142 | the imperative conversion returns exactly Normalized |
| Tushare.ConvertRows | pkg/collector/tushare.go:85-139 | the row loop returns exactly RowQuotes |
| Tushare.ConvertRow | pkg/collector/tushare.go:86-136 | the loop body builds exactly RowQuote of the row |
| Tushare.JoinCodes | pkg/collector/tushare.go:145-158 | one code unchanged, otherwise the codes joined with commas (both branches give Join) |
| Tushare.JoinedCodesSplit | pkg/collector/tushare.go:145-158 | the joined parameter splits back into the codes when no code holds a comma |
| Tushare.FetchRealtime | pkg/collector/tushare.go:24-42 | an empty code list fails before any call; a failed call fails with the wrapped message; otherwise the result is the normalised response for the joined codes |
| Tushare.FetchDaily | pkg/collector/tushare.go:45-64 | as FetchRealtime, with the trade date passed to the daily call |
| AKShare.ParseFloat | pkg/collector/akshare_adapter.go:198-213 | float64, float32 and Go int give their value, a string gives its scanned number, every other kind (int64 included) gives 0 |
| AKShare.MarketOf | pkg/collector/akshare_adapter.go:49-61 | .SH or .SZ selects the A-share list; otherwise .HK selects the Hong Kong list; anything else has no market |
| AKShare.FirstMatch | pkg/collector/akshare_adapter.go:138-162 | the position of a matching listed stock with no match before it, or none iff no listed stock matches |
| AKShare.FirstMatchAt | pkg/collector/akshare_adapter.go:138-162 | the first match is fixed by the stocks before it: none of them matches and the one at i does |
| AKShare.FindRow | pkg/collector/akshare_adapter.go:138-162 | the search loop returns exactly FirstMatch |
| AKShare.RowQuote | pkg/collector/akshare_adapter.go:147-157 | the quote's symbol is the code as requested, its time the collection time, its name the formatted name cell and its price and change percent the parsed cells |
| AKShare.Realtime | pkg/collector/akshare_adapter.go:182-186 | a successful call returns at least one quote |
| AKShare.Symbols | pkg/collector/akshare_adapter.go:148 | the symbols of a quote list, one per quote, in order |
| AKShare.SubseqShorter | pkg/collector/akshare_adapter.go:43-180 | a subsequence is never longer than the sequence it is drawn from |
| AKShare.SubseqDropLast | pkg/collector/akshare_adapter.go:43-180 | dropping the last element of a subsequence leaves a subsequence |
| AKShare.SubseqExtend | pkg/collector/akshare_adapter.go:43-180 | a subsequence stays one when the longer sequence grows |
| AKShare.SubseqMember | pkg/collector/akshare_adapter.go:43-180 | every element of a subsequence occurs in the sequence |
| AKShare.QuotesStep | pkg/collector/akshare_adapter.go:158 | appending the quote for the code just visited keeps the symbols a subsequence of the visited codes |
| AKShare.SoundExtend | pkg/collector/akshare_adapter.go:164-179 | a code that adds no quote keeps the loop state sound |
| AKShare.MatchedSound | pkg/collector/akshare_adapter.go:137-179 | the lookup of a supported code keeps the loop state sound |
| AKShare.QuoteAddedSound | pkg/collector/akshare_adapter.go:158 | appending the quote of a supported requested code keeps the loop state sound |
| AKShare.StoreSound | pkg/collector/akshare_adapter.go:129 | caching a freshly loaded list keeps the loop state sound |
| AKShare.FailedFetchSound | pkg/collector/akshare_adapter.go:98-127 | a failed load skips the code and keeps the loop state sound |
| AKShare.VisitSound | pkg/collector/akshare_adapter.go:43-180 | one loop iteration keeps the loop state sound |
| AKShare.RunSound | pkg/collector/akshare_adapter.go:43-180 | the state after any prefix of the codes is sound: quotes are for supported requested codes, in request order, and a market list is loaded at most once |
| AKShare.LoadedOnce | pkg/collector/akshare_adapter.go:63-64 | once a market's list has been loaded in a call it is never fetched again |
| AKShare.RealtimeQuotes | pkg/collector/akshare_adapter.go:32-187 | at most one quote per requested code, their symbols a subsequence of the request in order, each for a supported requested code |
| AKShare.AbortStays | pkg/collector/akshare_adapter.go:59-61 | once an unsupported code has stopped the loop, later codes change nothing |
| AKShare.AbortsAtFirstUnsupported | pkg/collector/akshare_adapter.go:59-61 | the first unsupported code ends the call with its error, whatever was collected before |
| AKShare.SupportedRun | pkg/collector/akshare_adapter.go:43-180 | supported codes alone never stop the loop |
| AKShare.SupportedOutcome | pkg/collector/akshare_adapter.go:182-186 | with only supported codes the call fails iff nothing was found, and then with the not-found error |
| AKShare.FetchRealtime | pkg/collector/akshare_adapter.go:32-187 | the imperative loop returns exactly Realtime and makes exactly the fetches of Run |
| Api.ValidSymbols | pkg/api/handlers.go:182-190 | only input symbols of at least six characters with a .SZ or .SH suffix are kept, and never more than were given |
| Api.ValidSymbolsKeepsValid | pkg/api/handlers.go:185-189 | every valid input symbol is kept |
| Api.ValidSymbolsAppend | pkg/api/handlers.go:185-189 | the filter keeps input order: it distributes over concatenation |
| Api.Validated | pkg/api/handlers.go:182-195 | success carries at least one symbol; failure is the no-valid-symbol error |
| Api.ValidatedFails | pkg/api/handlers.go:191-194 | the call fails iff no input symbol is valid |
| Api.NoneValid | pkg/api/handlers.go:185-190 | with no valid symbol the filter keeps nothing |
| Api.HongKongOnlyRefused | pkg/api/handlers.go:182-195 | a list of Hong Kong codes only is refused |
| Api.ValidateSymbols | pkg/api/handlers.go:182-195 | the imperative loop returns exactly Validated |
| Api.QuoteSymbols | pkg/api/handlers.go:54-63 | an empty parameter is refused; otherwise the comma-free pieces that join back to the parameter |
| Api.GetQuotes | pkg/api/handlers.go:52-77 | an empty parameter gives the bad-request reply; otherwise quotes are returned iff the fetcher succeeds on the split parameter, and they are the fetcher's quotes |
| Api.NewSubscription | pkg/api/handlers.go:149-164 | refused iff validation fails; otherwise the subscription holds the valid symbols only, the request's user and rules, status active, both timestamps now |
| Api.Handlers.constructor | pkg/api/handlers.go:25-35 | the handlers hold the given repository and rule engine |
| Api.Bind | pkg/api/handlers.go:134-147 | binding succeeds iff `user_id` is non-empty and `symbols` is present; each missing field gives Gin's 'required' message, the user id's first, joined by a newline when both are missing |
| Api.Handlers.SubscribeStock | pkg/api/handlers.go:142-180 | a body that fails binding gives the bad request with the binding error and changes nothing; invalid symbols give the bad request and leave the repository and the rule engine unchanged; otherwise the subscription joins the id index, its user's list and one per-symbol entry per symbol (consistent indexes stay consistent), it is added to the rule engine with one derived detection rule per enabled rule per symbol occurrence, and the reply names the id and the valid symbols |
| Notification.Header | pkg/api/notification.go:50 | the header opens with the fixed summary title |
| Notification.SliceAfterPrefix | pkg/api/notification.go:50-56 | a piece sits right after a prefix in any text that starts with the two |
| Notification.SummaryFrame | pkg/api/notification.go:50-56 | a non-empty summary opens with the header for the alert count and ends with the fixed advice line |
| Notification.QuietExactlyWithoutAlerts | pkg/api/notification.go:46-48 | the quiet-day sentence is the summary iff there are no alerts |
| Notification.BulletsAppend | pkg/api/notification.go:52-54 | the bullets of two lists are those of the first followed by those of the second |
| Notification.BulletsOfOne | pkg/api/notification.go:53 | one alert gives its own bullet line |
| Notification.BulletAt | pkg/api/notification.go:52-54 | each alert's line (symbol and message) sits between the lines of the alerts before and after it, in input order |
| Notification.HeaderCountReadsBack | pkg/api/notification.go:50 | the digits after the header title read back as the number of alerts |
| Notification.GenerateDailySummary | pkg/api/notification.go:45-59 | the imperative builder returns exactly DailySummary of the alerts, whatever the user id |
| Config.ScanInt | pkg/config/config.go:95-96 | a result always lies in int64; a non-empty digit string scans to its decimal value when that fits in int64 and to nothing otherwise |
| Config.ScanIntSkipsSpace | pkg/config/config.go:96 | leading white space (not a newline) does not change what `%d` reads |
| Config.ScanIntOfNatToString | pkg/config/config.go:95-96 | a decimal number within int64 scans back to itself |
| Config.ScanIntAfterSpace | pkg/config/config.go:96 | a decimal number within int64 is read after any run of white space |
| Config.ScanIntOverflow | pkg/config/config.go:96-97 | a decimal number past int64 is not read, so the port stays zero and is not applied |
| Config.Override | pkg/config/config.go:73-75 | an empty or unset variable leaves the field, a non-empty one replaces it verbatim |
| Config.PortOverride | pkg/config/config.go:94-100 | the port changes only to a positive number that DB_PORT scans to |
| Config.OverriddenField | pkg/config/config.go:71-125 | every string field is its variable's value when that is non-empty and the file's value otherwise |
| Config.OverriddenOthers | pkg/config/config.go:94-100 | the port follows DB_PORT's rule and the fields with no variable keep the file's value |
| Config.OverriddenIdempotent | pkg/config/config.go:71-125 | laying the same environment over twice changes nothing more |
| Config.OverriddenEmpty | pkg/config/config.go:71-125 | an empty environment leaves every field as the file gave it |
| Config.Config.constructor | pkg/config/config.go:59 | the new config holds the parsed settings |
| Config.OverrideFromEnv | pkg/config/config.go:71-126 | the config after the in-place assignments is Overridden of the config before |
| Config.OverrideApp | pkg/config/config.go:72-80 | the app section after the assignments is Overridden's |
| Config.OverrideTushare | pkg/config/config.go:82-88 | the Tushare section after the assignments is Overridden's |
| Config.OverrideDatabase | pkg/config/config.go:90-109 | the database section after the assignments, the port scan included, is Overridden's |
| Config.OverrideNats | pkg/config/config.go:111-120 | the NATS section after the assignments is Overridden's |
| Config.Loaded | pkg/config/config.go:51-68 | a read failure and a parse failure are each reported with their own prefix |
| Config.EnvironmentWins | pkg/config/config.go:51-68 | overrides apply after parsing: a non-empty variable decides its field whatever the file says |
| Config.LoadConfig | pkg/config/config.go:51-68 | the imperative load succeeds iff Loaded does, with its error or a fresh config holding its settings |
| Config.DefaultConfigPath | pkg/config/config.go:129-136 | configs/dev/app.yaml when APP_ENV is empty, otherwise configs/ then APP_ENV then /app.yaml |
| ClsCrawler.Keyed | crawler/clsCrawler.py:89 | every key maps to a record of the data carrying that id, and every record with an id has its id as a key |
| ClsCrawler.KeyedLastWins | crawler/clsCrawler.py:89 | for a repeated id the last record carrying it wins |
| ClsCrawler.MergedLastWins | crawler/clsCrawler.py:109 | after a merge, a saved id holds the last saved record carrying it |
| ClsCrawler.InitialHistory | crawler/clsCrawler.py:84-92 | the history is keyed by ids; a missing or unreadable file gives an empty history |
| ClsCrawler.Merged | crawler/clsCrawler.py:109 | a merge keeps every old key and adds every saved record's id |
| ClsCrawler.MergedKeys | crawler/clsCrawler.py:109 | a merge adds exactly the saved records' ids |
| ClsCrawler.MergedKeepsOthers | crawler/clsCrawler.py:109 | a key no saved record carries keeps its old record |
| ClsCrawler.MergedKeyed | crawler/clsCrawler.py:109 | merging keeps the history keyed by ids |
| ClsCrawler.Records | crawler/clsCrawler.py:107-108 | a single record is wrapped into a one-element list, a list is taken as it is |
| ClsCrawler.FreshSaveStep | crawler/clsCrawler.py:902-918 | saving one more page whose id the history does not know keeps the saved pages fresh and is one map update |
| ClsCrawler.CrawlSavesFresh | crawler/clsCrawler.py:902-923 | every saved page has an id and a title of at least five stripped characters, none was known before, no two share an id, and the history is the old one with them merged in |
| ClsCrawler.KnownLinkSkipped | crawler/clsCrawler.py:903-906 | a link whose md5 is already in the history changes nothing |
| ClsCrawler.NewsCrawler.constructor | crawler/clsCrawler.py:78-92 | the file path is data/ then the domain then .json and the history is init's result |
| ClsCrawler.NewsCrawler.Save | crawler/clsCrawler.py:106-119 | the history becomes the merge of the batch, later records winning, and the batch is appended to the file; a history keyed by ids stays so |
| ClsCrawler.NewsCrawler.Crawl | crawler/clsCrawler.py:901-932 | history, appended file and published messages all follow CrawlRun, and the count is the number of saved pages |
| ClsCrawler.Find | crawler/clsCrawler.py:792-793 | a position where the pattern occurs, or none iff it does not occur |
| ClsCrawler.FindLeftmost | crawler/clsCrawler.py:792-793 | the position found is the leftmost occurrence |
| ClsCrawler.StripTags | crawler/clsCrawler.py:767 | a text without a tag opener is unchanged |
| ClsCrawler.DropNonHanLeft | crawler/clsCrawler.py:785 | what remains is empty or starts with a Han character, and is no longer than the line |
| ClsCrawler.DropNonHanRight | crawler/clsCrawler.py:786 | what remains is empty or ends with a Han character, keeps the line's first character, and is no longer than the line |
| ClsCrawler.HanCore | crawler/clsCrawler.py:785-786 | the trimmed line is no longer than the line and starts and ends with a Han character when non-empty |
| ClsCrawler.TitleOfLine | crawler/clsCrawler.py:771-789 | a title from a line has at least eight characters and starts and ends with a Han character |
| ClsCrawler.FirstTitle | crawler/clsCrawler.py:770-789 | a title found is some line's title; none is found iff no line yields one |
| ClsCrawler.LastPiece | crawler/clsCrawler.py:793 | the last piece is no longer than the url |
| ClsCrawler.TitleFromLines | crawler/clsCrawler.py:764-796 | the title has at least eight characters or is the fallback |
| ClsCrawler.TitleOnlyFirstFifty | crawler/clsCrawler.py:770 | lines after the fiftieth never change the title |
| ClsCrawler.TitleSource | crawler/clsCrawler.py:770-796 | the title is one of the first fifty lines' titles or the fallback, and the fallback when none of those lines yields one |
| ClsCrawler.SpacesEnd | crawler/clsCrawler.py:818 | the end of the run of spaces: everything before it a space, the character at it not |
| ClsCrawler.WordEnd | crawler/clsCrawler.py:818 | the end of the run of word characters: everything before it a word character, the character at it not |
| ClsCrawler.CaptureAt | crawler/clsCrawler.py:818-821 | a group matched at a position is a non-empty run of word characters |
| ClsCrawler.Search | crawler/clsCrawler.py:825 | a group found is a non-empty run of word characters |
| ClsCrawler.AuthorFrom | crawler/clsCrawler.py:824-831 | the author is the default or a word of one to nine characters |
| ClsCrawler.StripOfWord | crawler/clsCrawler.py:827 | stripping a captured word changes nothing |
| ClsCrawler.ExtractAuthor | crawler/clsCrawler.py:815-831 | the author is the default or a word of one to nine characters |
| ClsCrawler.LongCaptureSkipped | crawler/clsCrawler.py:826-829 | a capture of ten or more characters does not stop the search: the next pattern decides |
| ClsCrawler.ScanContent | crawler/clsCrawler.py:841-866 | at most twenty-one lines are collected, only after the body started, and each is collectable and not a skipped line |
| ClsCrawler.NoStartNoContent | crawler/clsCrawler.py:852-863 | without a line that starts the body nothing is collected |
| ClsCrawler.ContentOf | crawler/clsCrawler.py:868-869 | the body is empty or longer than thirty characters |
| ClsCrawler.ContentLines | crawler/clsCrawler.py:841-869 | a non-empty body is at most fifteen collected lines joined, each longer than fifteen characters and none a navigation line |
| ClsCrawler.ExtractContentFromAllText | crawler/clsCrawler.py:833-869 | the imperative loop with its started flag returns exactly ExtractContent of the text |
| ClsCrawler.ScanStopped | crawler/clsCrawler.py:865-866 | once more than twenty lines are collected the remaining lines are not read |
| ClsCrawler.HeadingCandidates | crawler/clsCrawler.py:352-356 | every h1 candidate has selector h1 and a length strictly between 10 and 200 |
| ClsCrawler.TitleClassCandidates | crawler/clsCrawler.py:359-365 | every title-class candidate has a length strictly between 10 and 200 |
| ClsCrawler.ClosestToThirty | crawler/clsCrawler.py:369 | the first candidate whose length is closest to thirty |
| ClsCrawler.BestTitleSelector | crawler/clsCrawler.py:347-372 | None iff there are no candidates, otherwise the selector of a candidate closest to thirty characters |
| ClsCrawler.LongTextCandidates | crawler/clsCrawler.py:381-387 | every candidate of a class pattern is longer than 200 characters |
| ClsCrawler.ContentCandidates | crawler/clsCrawler.py:379-387 | every content candidate is longer than 200 characters |
| ClsCrawler.Longest | crawler/clsCrawler.py:391 | the first of the longest candidates |
| ClsCrawler.BestContentSelector | crawler/clsCrawler.py:374-394 | None iff there are no candidates, otherwise the selector of a longest candidate over 200 characters |
| MonitorEngine.CalculateNewsSeverity | pkg/engine/monitor_engine.go:155-164 | a news severity is always assigned (never the unset value) |
| MonitorEngine.CalculatePriceSeverity | pkg/engine/monitor_engine.go:390-400 | a price severity is always assigned (never the unset value) |
| MonitorEngine.PriceSeverityBands | pkg/engine/monitor_engine.go:390-400 | for a non-negative threshold: Critical iff abs(change) >= 2x threshold, High iff in [1.5x, 2x), Medium iff in [1x, 1.5x), Low iff below the threshold |
| RuleEngine.EnabledInList | pkg/engine/rule_engine.go:329-333 | a list has no more enabled rules than rules |
| RuleEngine.TypeInList | pkg/engine/rule_engine.go:329-334 | a list has no more rules of one type than rules |
| Strings.Split | pkg/api/handlers.go:63 | splitting always gives at least one piece |
| Strings.JoinSplit | pkg/api/handlers.go:63 | joining the pieces of a split with the same separator gives the text back |
| Strings.SplitJoin | pkg/collector/tushare.go:145-158 | splitting a join of separator-free pieces gives the pieces back |
| Strings.TrimLeftChar | pkg/collector/akshare_adapter.go:142-143 | what remains does not start with the trimmed character |
| Strings.StripLeft | crawler/clsCrawler.py:771 | what remains does not start with whitespace |
| Strings.StripRight | crawler/clsCrawler.py:771 | what remains does not end with whitespace |
| Strings.ToLower | pkg/collector/news_collector.go:215 | lower-casing keeps the length |
| Strings.NatToString | pkg/api/notification.go:50 | a number prints as a non-empty run of decimal digits |
| Strings.DigitsValueOfNatToString | pkg/api/notification.go:50 | the printed digits read back as the number |
| Strings.NatToStringInjective | pkg/api/notification.go:50 | different numbers print differently |
| Strings.Min | pkg/collector/akshare_adapter.go:190-195 | the smaller of the two arguments |
| LegacyRules.SeedScenario | scripts/verify_system.go:103-121 | against the seed rules the 6.5 % / 2,000,000 quote on 000001.SZ fires the global price rule (1.3), the global volume rule (2.0) and the symbol's price rule (6.5 / 3), in that order; the subscription engine fires none of the unenabled seeds |

## Left out

- Concurrency is not modelled: goroutines, the mutexes, the ticker loops of `StartMonitoring` and the health monitor's `StartChecking`, and the goroutine fan-out to news handlers. One sweep and one news push are modelled as methods.
- A blocking channel send (monitoring engine, legacy engine) is modelled as an append to an unbounded log. The wait itself is not modelled.
- NATS/JetStream transport is left out: `StartCollecting`, the consumers, and the crawler's `connect_nats` and `publish_news`. The crawler's publish is a log of published records.
- HTTP and file I/O are left out. The Tushare and AKShare clients are outside functions, and so are the AKShare retry and backoff loop, its sleeps and its debug printing. The health probe's response is an input. The config file read, the crawler's `get_datas` and `save_datas`, and the file append are also outside.
- Go's `fmt` formatting of numbers and values (`%v`, `%.2f`) and `fmt.Sscanf("%f")` are outside functions. So are `strconv.ParseFloat`, JSON and YAML decoding, and date parsing. Printing with `%d` is modelled (`Strings.NatToString`), and so is scanning with `%d` (`Config.ScanInt`).
- Only the cases the code relies on are modelled:
  - lower-casing is ASCII only;
  - Python's whitespace is the ASCII set plus U+00A0 and U+3000;
  - a Han character is U+4E00 to U+9FFF;
  - lengths are counted in characters, where Go's `len` counts UTF-8 bytes (in the symbol check and the code checks, the texts involved are ASCII).
- `time.Now()` is the parameter `now`, and uuid generation is an injective generator indexed by a counter. The `BeforeCreate` hooks and persistence by GORM/SQL are left out.
- IEEE floating point (rounding, Inf, NaN) is not modelled: thresholds are required positive where Go divides by them, since a zero or negative threshold would give an infinite, NaN or negative intensity rather than a panic.
- Go's `int` is taken as 64 bits wide, its width on 64-bit platforms: `fmt.Sscanf("%d")` into it fails past int64.
- Go pointers are not modelled. The repository stores subscriptions by value, so updates through a shared pointer are not captured. One example: a handler that changes a subscription it got from the repository.
- The LLM client is an optional pair of functions. When the client is missing or fails, the source's fallback texts are used, without their formatted numbers.
- `extract_time_from_all_text` and `get_last_day_data` are left out. Both depend on regex date patterns and the clock, and neither feeds another modelled operation.
- The first `save` (`AINewsCrawler.save`) rewrites the whole history file. Only the overriding `FinanceNewsCrawler.save` (merge and append) is modelled, as that is the one the crawler runs.
- The browser crawl, DOM parsing and `crawl_newsletter` are left out. The page fetch is an outside function returning a record, and the selector heuristics take the elements found as inputs.
- `formatAlertMessage` is left out: it refers to a field (`alert.Data`) that the alert record does not have.
- The server-error branch of SubscribeStock is left out, because the in-memory repository never fails.
- Api.Bind starts from the decoded body: a body that is not valid JSON, or whose fields have the wrong JSON types, is not modelled, because JSON decoding is outside the model. Such a body also gets a bad request in the source.
- The other handlers (health and readiness checks, SubscribeAlerts, GetAlertHistory, GetUserSubscriptions, UpdateSubscription, DeleteSubscription) are left out. They bind a request and pass it to repository or engine operations that are modelled.
- MemoryRepository.Repository.UpdateSubscription, like the source, does not touch the per-symbol legacy entries.
- ClsCrawler.TitleOfLine: its title-shape tests (prefixes, separators, punctuation) are stated by the predicate `TitleShaped` only, not by separate lemmas.
- ClsCrawler.StripTags: the regex substitution is proved only to leave tag-free text alone.
- HealthMonitor.Monitor.CheckHTTPEndpoint: the request timeout and the response body are not modelled.

## Findings

| source | as written | input that shows it | evidently intended | confidence | as-written member | corrected member |
|---|---|---|---|---|---|---|
| pkg/repository/repository.go:213-220 | the user list searched is the new owner's, so an update that changes `UserID` replaces nothing: the old owner's list keeps the stale entry and the new owner's list never gets the subscription | stored `{id: "s1", userId: "u1"}`, then update with `{id: "s1", userId: "u2"}`: `GetUserSubscriptions("u1")` still returns s1 and `GetUserSubscriptions("u2")` does not | the entry moves from the old owner's list to the new owner's list | not executed | MemoryRepository.UpdateAsWrittenLosesOwnerChange | MemoryRepository.IndexedAfterUpdate |
