/** The monitoring engine of pkg/engine/monitor_engine.go. It shares the
    subscription table of a rule engine, sweeps every valid subscription
    (quote rules, news, expiry warning), turns pushed news into alerts, and
    validates subscription changes before handing them to the rule engine.
    Its sends block until taken, so the alerts it sends form a log. The quote
    fetcher, the news source and the language-model client are optional
    functions supplied from outside. */
module MonitorEngine {
  import opened Model
  import opened Strings
  import RuleEngine

  /** The two language-model calls the engine makes: news analysis from
      (symbol, content) and stock analysis from (symbol, name, price, change). */
  datatype LlmClient = LlmClient(
    newsAnalysis: (string, string) -> Result<string>,
    stockAnalysis: (string, string, real, real) -> Result<string>)

  /** The engine's collaborators; None is a nil collaborator. */
  datatype Sources = Sources(
    quotes: Option<string -> Result<StockQuote>>,
    news: Option<string -> Result<seq<NewsEvent>>>,
    llm: Option<LlmClient>)

  /** Seven days and ten minutes, in seconds. */
  const ExpiryWarningWindow: int := 7 * 24 * 3600
  const StalenessLimit: int := 10 * 60

  /** isSignificantNews. */
  predicate IsSignificantNews(news: NewsEvent)
  {
    news.impact > 0.7 || news.sentiment == Negative
  }

  /** calculateNewsSeverity: bands on the impact score. */
  function CalculateNewsSeverity(news: NewsEvent): (s: AlertSeverity)
    ensures s != Unset
  {
    if news.impact >= 0.9 then Critical
    else if news.impact >= 0.7 then High
    else if news.impact >= 0.5 then Medium
    else Low
  }

  lemma NewsSeverityBands(news: NewsEvent)
    ensures CalculateNewsSeverity(news) == Critical <==> news.impact >= 0.9
    ensures CalculateNewsSeverity(news) == High <==> 0.7 <= news.impact < 0.9
    ensures CalculateNewsSeverity(news) == Medium <==> 0.5 <= news.impact < 0.7
    ensures CalculateNewsSeverity(news) == Low <==> news.impact < 0.5
  {
  }

  /** News that is significant by impact alone is at least high severity;
      news that is significant only by its negative tone can be low. */
  lemma SignificantNewsSeverity(news: NewsEvent)
    ensures news.impact > 0.7 ==> CalculateNewsSeverity(news).Rank() >= High.Rank()
    ensures IsSignificantNews(news.(impact := 0.1, sentiment := Negative))
    ensures CalculateNewsSeverity(news.(impact := 0.1, sentiment := Negative)) == Low
  {
  }

  /** calculatePriceSeverity: bands on multiples of the threshold. */
  function CalculatePriceSeverity(changePercent: real, threshold: real): (s: AlertSeverity)
    ensures s != Unset
  {
    var a := Abs(changePercent);
    if a >= threshold * 2.0 then Critical
    else if a >= threshold * 1.5 then High
    else if a >= threshold then Medium
    else Low
  }

  /** For a non-negative threshold the bands are 2x, 1.5x and 1x of it. */
  lemma PriceSeverityBands(changePercent: real, threshold: real)
    requires threshold >= 0.0
    ensures CalculatePriceSeverity(changePercent, threshold) == Critical <==> Abs(changePercent) >= 2.0 * threshold
    ensures CalculatePriceSeverity(changePercent, threshold) == High
      <==> 1.5 * threshold <= Abs(changePercent) < 2.0 * threshold
    ensures CalculatePriceSeverity(changePercent, threshold) == Medium
      <==> threshold <= Abs(changePercent) < 1.5 * threshold
    ensures CalculatePriceSeverity(changePercent, threshold) == Low <==> Abs(changePercent) < threshold
  {
  }

  /** A price-change rule fires only when |change| reaches its threshold, so
      the severity it reports is never low; it grows with |change|. */
  lemma PriceSeverityWhenFired(changePercent: real, other: real, threshold: real)
    requires Abs(changePercent) >= threshold
    ensures CalculatePriceSeverity(changePercent, threshold).Rank() >= Medium.Rank()
    ensures Abs(other) >= Abs(changePercent) ==>
      CalculatePriceSeverity(other, threshold).Rank() >= CalculatePriceSeverity(changePercent, threshold).Rank()
  {
  }

  /** The two engines grade the same move differently: a change of exactly
      the threshold is medium here but low in the rule engine, whose bands
      are on the intensity |change| / threshold. */
  lemma SeverityScalesDiffer(threshold: real)
    requires threshold > 0.0
    ensures CalculatePriceSeverity(threshold, threshold) == Medium
    ensures RuleEngine.CalculateSeverity(threshold / threshold) == Low
  {
    assert threshold / threshold == 1.0;
  }

  /** hasNewsAlertRule: the subscription holds an enabled news rule. */
  function HasNewsAlertRule(rules: seq<AlertRule>): (r: bool)
    ensures r <==> exists i :: 0 <= i < |rules| && rules[i].ruleType == NewsImpact && rules[i].enabled
    decreases |rules|
  {
    if |rules| == 0 then false
    else if rules[0].ruleType == NewsImpact && rules[0].enabled then true
    else
      assert forall i :: 1 <= i < |rules| ==> rules[i] == rules[1..][i - 1];
      HasNewsAlertRule(rules[1..])
  }

  /** generateNewsAnalysis: the model's text, or a fixed fallback. */
  function NewsAnalysis(llm: Option<LlmClient>, news: NewsEvent): string
  {
    match llm
    case None => "AI分析功能暂不可用"
    case Some(c) =>
      match c.newsAnalysis(news.symbol, news.content)
      case Ok(text) => text
      case Err(_) => "AI分析生成失败"
  }

  /** generatePriceAnalysis (formatted numbers are not rendered). */
  function PriceAnalysis(llm: Option<LlmClient>, quote: StockQuote): string
  {
    match llm
    case None => "股票 " + quote.symbol + " 当前价格与涨跌幅"
    case Some(c) =>
      match c.stockAnalysis(quote.symbol, quote.name, quote.price, quote.changePercent)
      case Ok(text) => text
      case Err(_) => "股票 " + quote.symbol + " 出现价格异动"
  }

  /** generateVolumeAnalysis: the client is not called. */
  function VolumeAnalysis(llm: Option<LlmClient>, quote: StockQuote): string
  {
    if llm.None? then "股票 " + quote.symbol + " 成交量异常"
    else "股票 " + quote.symbol + " 出现成交量异动，需要关注"
  }

  /** generatePriceLevelAnalysis: the client is not called. */
  function PriceLevelAnalysis(llm: Option<LlmClient>, quote: StockQuote): string
  {
    if llm.None? then "股票 " + quote.symbol + " 突破关键价位"
    else "股票 " + quote.symbol + " 价格突破重要关口"
  }

  /** handleNewsUpdate's test for one subscription (before significance). */
  predicate ShouldNotify(sub: Subscription, news: NewsEvent)
  {
    sub.status == Active && (news.symbol == "" || news.symbol in sub.symbols) && HasNewsAlertRule(sub.alertRules)
  }

  function NewsPushAlert(sub: Subscription, news: NewsEvent, llm: Option<LlmClient>, now: int): AlertEvent
  {
    AlertEvent("", sub.userId, sub.id, news.symbol, "", NewsImpact, CalculateNewsSeverity(news),
      "重要新闻提醒", "检测到重要新闻: " + news.title, None, NewsAnalysis(llm, news),
      news.impact, 0.5, false, false, now, 0, None)
  }

  /** The test handleNewsUpdate applies to an active subscription: a
      market-wide item, or the first occurrence of the item's symbol among
      the subscription's symbols, and then a news rule among its rules. */
  method WantsNews(sub: Subscription, news: NewsEvent) returns (shouldNotify: bool)
    requires sub.status == Active
    ensures shouldNotify == ShouldNotify(sub, news)
  {
    shouldNotify := false;
    if news.symbol == "" {
      shouldNotify := HasNewsAlertRule(sub.alertRules);
    } else {
      var i := 0;
      while i < |sub.symbols|
        invariant 0 <= i <= |sub.symbols|
        invariant news.symbol !in sub.symbols[..i] && !shouldNotify
      {
        if sub.symbols[i] == news.symbol {
          shouldNotify := HasNewsAlertRule(sub.alertRules);
          break;
        }
        assert sub.symbols[..i + 1] == sub.symbols[..i] + [sub.symbols[i]];
        i := i + 1;
      }
      assert i == |sub.symbols| ==> sub.symbols[..i] == sub.symbols;
    }
  }

  /** The subscriptions, in map order, that a pushed news item alerts. */
  function NewsTargets(subs: map<string, Subscription>, order: seq<string>, news: NewsEvent): seq<string>
    decreases |order|
  {
    if |order| == 0 then []
    else
      var id := order[|order| - 1];
      NewsTargets(subs, order[..|order| - 1], news)
      + (if id in subs && ShouldNotify(subs[id], news) && IsSignificantNews(news) then [id] else [])
  }

  /** A subscription is alerted exactly when it is active, watches the news'
      symbol (or the news names none), holds an enabled news rule, and the
      news is significant. */
  lemma {:induction false} NewsTargetsExact(subs: map<string, Subscription>, order: seq<string>, news: NewsEvent, id: string)
    ensures id in NewsTargets(subs, order, news) <==>
      id in order && id in subs && ShouldNotify(subs[id], news) && IsSignificantNews(news)
    decreases |order|
  {
    if |order| > 0 {
      NewsTargetsExact(subs, order[..|order| - 1], news, id);
      assert order == order[..|order| - 1] + [order[|order| - 1]];
    }
  }

  lemma NewsPushAlertsStep(subs: map<string, Subscription>, order: seq<string>, k: nat, news: NewsEvent,
                           llm: Option<LlmClient>, now: int, sub: Subscription)
    requires k < |order| && order[k] in subs && subs[order[k]] == sub
    ensures ShouldNotify(sub, news) && IsSignificantNews(news) ==>
      (NewsPushAlerts(subs, order[..k + 1], news, llm, now)
       == NewsPushAlerts(subs, order[..k], news, llm, now) + [NewsPushAlert(sub, news, llm, now)])
    ensures !(ShouldNotify(sub, news) && IsSignificantNews(news)) ==>
      (NewsPushAlerts(subs, order[..k + 1], news, llm, now) == NewsPushAlerts(subs, order[..k], news, llm, now))
  {
    var o := order[..k + 1];
    assert o[..|o| - 1] == order[..k] && o[|o| - 1] == order[k];
    var prev := NewsPushAlerts(subs, order[..k], news, llm, now);
    assert prev + [] == prev;
  }

  function NewsPushAlerts(subs: map<string, Subscription>, order: seq<string>, news: NewsEvent,
                          llm: Option<LlmClient>, now: int): (r: seq<AlertEvent>)
    ensures |r| == |NewsTargets(subs, order, news)|
    ensures forall k :: 0 <= k < |r| ==>
      var id := NewsTargets(subs, order, news)[k];
      id in subs && r[k] == NewsPushAlert(subs[id], news, llm, now)
    decreases |order|
  {
    if |order| == 0 then []
    else
      var id := order[|order| - 1];
      NewsPushAlerts(subs, order[..|order| - 1], news, llm, now)
      + (if id in subs && ShouldNotify(subs[id], news) && IsSignificantNews(news)
         then [NewsPushAlert(subs[id], news, llm, now)] else [])
  }

  /** The quote rules the sweep evaluates, which divide by their threshold. */
  predicate QuoteRule(rule: AlertRule)
  {
    rule.enabled && (rule.ruleType == PriceChange || rule.ruleType == VolumeSpike || rule.ruleType == PriceLevel)
  }

  predicate ThresholdsPositive(sub: Subscription)
  {
    forall i :: 0 <= i < |sub.alertRules| ==> QuoteRule(sub.alertRules[i]) ==> sub.alertRules[i].threshold > 0.0
  }

  /** checkPriceChangeRule, checkVolumeRule and checkPriceLevelRule: the
      alert one quote rule raises, if any. Price change fires on
      |change| >= threshold, volume on volume > threshold (strictly), price
      level on price >= threshold. */
  function QuoteRuleAlert(sub: Subscription, quote: StockQuote, rule: AlertRule, llm: Option<LlmClient>, now: int): (r: Option<AlertEvent>)
    requires QuoteRule(rule) ==> rule.threshold > 0.0
    ensures r.Some? <==>
      QuoteRule(rule) &&
      ((rule.ruleType == PriceChange && Abs(quote.changePercent) >= rule.threshold) ||
       (rule.ruleType == VolumeSpike && quote.volume > rule.threshold) ||
       (rule.ruleType == PriceLevel && quote.price >= rule.threshold))
    ensures r.Some? ==>
      && r.value.userId == sub.userId && r.value.subscriptionId == sub.id && r.value.symbol == quote.symbol
      && r.value.alertType == rule.ruleType && r.value.threshold == rule.threshold && r.value.intensity >= 1.0
      && r.value.severity.Rank() >= Medium.Rank()
      && (rule.ruleType != PriceChange ==> r.value.severity == Medium)
  {
    if !QuoteRule(rule) then None
    else match rule.ruleType
      case PriceChange =>
        if Abs(quote.changePercent) >= rule.threshold then
          QuotientAtLeastOne(Abs(quote.changePercent), rule.threshold);
          Some(AlertEvent("", sub.userId, sub.id, quote.symbol, quote.name, PriceChange,
            CalculatePriceSeverity(quote.changePercent, rule.threshold), "价格异动提醒",
            quote.name + " 涨跌幅达到预设阈值", None, PriceAnalysis(llm, quote),
            Abs(quote.changePercent) / rule.threshold, rule.threshold, false, false, now, 0, None))
        else None
      case VolumeSpike =>
        if quote.volume > rule.threshold then
          Some(AlertEvent("", sub.userId, sub.id, quote.symbol, quote.name, VolumeSpike, Medium,
            "成交量异动提醒", quote.name + " 成交量超过预设阈值", None, VolumeAnalysis(llm, quote),
            quote.volume / rule.threshold, rule.threshold, false, false, now, 0, None))
        else None
      case PriceLevel =>
        if quote.price >= rule.threshold then
          Some(AlertEvent("", sub.userId, sub.id, quote.symbol, quote.name, PriceLevel, Medium,
            "价位突破提醒", quote.name + " 价格突破关键价位", None, PriceLevelAnalysis(llm, quote),
            quote.price / rule.threshold, rule.threshold, false, false, now, 0, None))
        else None
      case _ => None
  }

  function OptionToSeq(o: Option<AlertEvent>): seq<AlertEvent>
  {
    if o.Some? then [o.value] else []
  }

  /** checkQuoteAlerts' loop over the subscription's rules for one quote. */
  function QuoteRuleAlerts(sub: Subscription, quote: StockQuote, rules: seq<AlertRule>, llm: Option<LlmClient>, now: int): seq<AlertEvent>
    requires forall i :: 0 <= i < |rules| ==> QuoteRule(rules[i]) ==> rules[i].threshold > 0.0
    decreases |rules|
  {
    if |rules| == 0 then []
    else
      QuoteRuleAlerts(sub, quote, rules[..|rules| - 1], llm, now)
      + OptionToSeq(QuoteRuleAlert(sub, quote, rules[|rules| - 1], llm, now))
  }

  /** One more rule adds its alert, if it fires. */
  lemma QuoteRuleAlertsStep(sub: Subscription, quote: StockQuote, rules: seq<AlertRule>, i: nat, llm: Option<LlmClient>, now: int)
    requires forall k :: 0 <= k < |rules| ==> QuoteRule(rules[k]) ==> rules[k].threshold > 0.0
    requires i < |rules|
    ensures QuoteRuleAlerts(sub, quote, rules[..i + 1], llm, now)
      == QuoteRuleAlerts(sub, quote, rules[..i], llm, now) + OptionToSeq(QuoteRuleAlert(sub, quote, rules[i], llm, now))
  {
    var o := rules[..i + 1];
    assert o[..|o| - 1] == rules[..i] && o[|o| - 1] == rules[i];
  }

  /** checkQuoteAlerts: nothing without a fetcher or when the fetch fails. */
  function QuoteAlerts(sub: Subscription, symbol: string, src: Sources, now: int): seq<AlertEvent>
    requires ThresholdsPositive(sub)
  {
    match src.quotes
    case None => []
    case Some(fetch) =>
      match fetch(symbol)
      case Err(_) => []
      case Ok(quote) => QuoteRuleAlerts(sub, quote, sub.alertRules, src.llm, now)
  }

  function NewsItemAlert(userId: string, symbol: string, item: NewsEvent, llm: Option<LlmClient>, now: int): AlertEvent
  {
    AlertEvent("", userId, "", symbol, "", NewsImpact, CalculateNewsSeverity(item), "重要新闻提醒",
      "检测到 " + symbol + " 相关重要新闻", None, NewsAnalysis(llm, item), 0.0, 0.0, false, false, now, 0, None)
  }

  /** One alert per significant item, in the order the source lists them. */
  function NewsItemAlerts(userId: string, symbol: string, items: seq<NewsEvent>, llm: Option<LlmClient>, now: int): seq<AlertEvent>
    decreases |items|
  {
    if |items| == 0 then []
    else
      var item := items[|items| - 1];
      NewsItemAlerts(userId, symbol, items[..|items| - 1], llm, now)
      + (if IsSignificantNews(item) then [NewsItemAlert(userId, symbol, item, llm, now)] else [])
  }

  /** checkNewsAlerts: per symbol, the latest news; a failed query is skipped. */
  function NewsCheckAlerts(userId: string, symbols: seq<string>, src: Sources, now: int): seq<AlertEvent>
    requires src.news.Some?
    decreases |symbols|
  {
    if |symbols| == 0 then []
    else
      var symbol := symbols[|symbols| - 1];
      NewsCheckAlerts(userId, symbols[..|symbols| - 1], src, now)
      + (match src.news.value(symbol)
         case Err(_) => []
         case Ok(items) => NewsItemAlerts(userId, symbol, items, src.llm, now))
  }

  /** The per-symbol part of a subscription's sweep. */
  function SymbolAlerts(sub: Subscription, symbols: seq<string>, src: Sources, now: int): seq<AlertEvent>
    requires ThresholdsPositive(sub)
    decreases |symbols|
  {
    if |symbols| == 0 then []
    else
      var symbol := symbols[|symbols| - 1];
      SymbolAlerts(sub, symbols[..|symbols| - 1], src, now)
      + (if src.quotes.Some? then QuoteAlerts(sub, symbol, src, now) else [])
      + (if src.news.Some? then NewsCheckAlerts(sub.userId, [symbol], src, now) else [])
  }

  lemma SymbolAlertsStep(sub: Subscription, symbols: seq<string>, i: nat, src: Sources, now: int)
    requires ThresholdsPositive(sub) && i < |symbols|
    ensures SymbolAlerts(sub, symbols[..i + 1], src, now)
      == SymbolAlerts(sub, symbols[..i], src, now)
         + (if src.quotes.Some? then QuoteAlerts(sub, symbols[i], src, now) else [])
         + (if src.news.Some? then NewsCheckAlerts(sub.userId, [symbols[i]], src, now) else [])
  {
    assert symbols[..i + 1][..i] == symbols[..i];
  }

  /** checkSubscriptionRules' log-only warning: not checked for ten minutes. */
  predicate StaleWarning(sub: Subscription, now: int)
  {
    sub.lastCheckedAt.Some? && now - sub.lastCheckedAt.value > StalenessLimit
  }

  /** checkSubscriptionRules' expiry warning. */
  function ExpiryAlerts(sub: Subscription, now: int): (r: seq<AlertEvent>)
    ensures |r| <= 1
  {
    if sub.expiresAt.Some? && 0 < sub.expiresAt.value - now <= ExpiryWarningWindow then
      [AlertEvent("", sub.userId, sub.id, "", "", SystemAlert, Medium, "订阅即将过期提醒",
         "您的订阅即将过期", None, "", 0.0, 0.0, false, false, now, 0, None)]
    else []
  }

  /** One subscription's turn in checkAllSubscriptions: its new state and the
      alerts it sends. isSubscriptionValid skips inactive subscriptions and
      marks expired ones; a valid one is stamped as checked, then swept. */
  function SweepOne(sub: Subscription, src: Sources, now: int): (Subscription, seq<AlertEvent>)
    requires ThresholdsPositive(sub)
  {
    if sub.status != Active then (sub, [])
    else if sub.expiresAt.Some? && now > sub.expiresAt.value then (sub.(status := Expired), [])
    else
      var checked := sub.(lastCheckedAt := Some(now));
      (checked, SymbolAlerts(checked, checked.symbols, src, now) + ExpiryAlerts(checked, now))
  }

  /** checkAllSubscriptions over the subscriptions in map order: the new
      subscription table and the alerts sent. */
  function Sweep(subs: map<string, Subscription>, order: seq<string>, src: Sources, now: int): (r: (map<string, Subscription>, seq<AlertEvent>))
    requires forall id :: id in subs ==> ThresholdsPositive(subs[id])
    ensures r.0.Keys == subs.Keys
    ensures forall id :: id in r.0 ==> r.0[id].id == subs[id].id && r.0[id].alertRules == subs[id].alertRules
    decreases |order|
  {
    if |order| == 0 then (subs, [])
    else
      var r := Sweep(subs, order[..|order| - 1], src, now);
      var id := order[|order| - 1];
      if id in r.0 then
        var one := SweepOne(r.0[id], src, now);
        (r.0[id := one.0], r.1 + one.1)
      else r
  }

  lemma SweepStep(subs: map<string, Subscription>, order: seq<string>, k: nat, src: Sources, now: int)
    requires forall id :: id in subs ==> ThresholdsPositive(subs[id])
    requires k < |order| && order[k] in subs
    ensures var r := Sweep(subs, order[..k], src, now);
      order[k] in r.0 && ThresholdsPositive(r.0[order[k]]) &&
      var one := SweepOne(r.0[order[k]], src, now);
      Sweep(subs, order[..k + 1], src, now) == (r.0[order[k] := one.0], r.1 + one.1)
  {
    assert order[..k + 1][..k] == order[..k];
  }

  /** What the per-symbol checks send: alerts addressed to the subscriber,
      of a quote or news kind, never a system alert. */
  predicate SymbolAlertShape(a: AlertEvent, userId: string)
  {
    a.userId == userId && a.alertType in {PriceChange, VolumeSpike, PriceLevel, NewsImpact}
  }

  lemma {:induction false} QuoteRuleAlertsShape(sub: Subscription, quote: StockQuote, rules: seq<AlertRule>, llm: Option<LlmClient>, now: int)
    requires forall i :: 0 <= i < |rules| ==> QuoteRule(rules[i]) ==> rules[i].threshold > 0.0
    ensures forall a :: a in QuoteRuleAlerts(sub, quote, rules, llm, now) ==> SymbolAlertShape(a, sub.userId)
    decreases |rules|
  {
    if |rules| > 0 {
      QuoteRuleAlertsShape(sub, quote, rules[..|rules| - 1], llm, now);
    }
  }

  lemma {:induction false} NewsItemAlertsShape(userId: string, symbol: string, items: seq<NewsEvent>, llm: Option<LlmClient>, now: int)
    ensures forall a :: a in NewsItemAlerts(userId, symbol, items, llm, now) ==> SymbolAlertShape(a, userId)
    decreases |items|
  {
    if |items| > 0 {
      NewsItemAlertsShape(userId, symbol, items[..|items| - 1], llm, now);
    }
  }

  lemma {:induction false} NewsCheckAlertsShape(userId: string, symbols: seq<string>, src: Sources, now: int)
    requires src.news.Some?
    ensures forall a :: a in NewsCheckAlerts(userId, symbols, src, now) ==> SymbolAlertShape(a, userId)
    decreases |symbols|
  {
    if |symbols| > 0 {
      NewsCheckAlertsShape(userId, symbols[..|symbols| - 1], src, now);
      var symbol := symbols[|symbols| - 1];
      match src.news.value(symbol) {
        case Err(_) =>
        case Ok(items) => NewsItemAlertsShape(userId, symbol, items, src.llm, now);
      }
    }
  }

  /** Every alert of the per-symbol checks is addressed to the subscriber and
      is not a system alert. */
  lemma {:induction false} SymbolAlertsShape(sub: Subscription, symbols: seq<string>, src: Sources, now: int)
    requires ThresholdsPositive(sub)
    ensures forall a :: a in SymbolAlerts(sub, symbols, src, now) ==> SymbolAlertShape(a, sub.userId)
    decreases |symbols|
  {
    if |symbols| > 0 {
      SymbolAlertsShape(sub, symbols[..|symbols| - 1], src, now);
      var symbol := symbols[|symbols| - 1];
      if src.quotes.Some? {
        match src.quotes.value(symbol) {
          case Err(_) =>
          case Ok(quote) => QuoteRuleAlertsShape(sub, quote, sub.alertRules, src.llm, now);
        }
      }
      if src.news.Some? {
        NewsCheckAlertsShape(sub.userId, [symbol], src, now);
      }
    }
  }

  /** isSubscriptionValid's two exits: an inactive subscription is left as it
      is and sends nothing; an active one past its expiry is marked expired
      and sends nothing. */
  lemma SweepSkipsInvalid(sub: Subscription, src: Sources, now: int)
    requires ThresholdsPositive(sub)
    ensures sub.status != Active ==> SweepOne(sub, src, now) == (sub, [])
    ensures sub.status == Active && sub.expiresAt.Some? && now > sub.expiresAt.value ==>
      SweepOne(sub, src, now) == (sub.(status := Expired), [])
  {
  }

  /** A valid subscription is stamped as checked now, so the staleness
      warning cannot fire in the same sweep; it receives a system alert
      exactly when its expiry lies within the next seven days, and every
      alert it receives is addressed to its user. */
  lemma SweepOfValid(sub: Subscription, src: Sources, now: int)
    requires ThresholdsPositive(sub)
    requires sub.status == Active && !(sub.expiresAt.Some? && now > sub.expiresAt.value)
    ensures var r := SweepOne(sub, src, now);
      && r.0 == sub.(lastCheckedAt := Some(now))
      && !StaleWarning(r.0, now)
      && ((exists a :: a in r.1 && a.alertType == SystemAlert) <==>
           sub.expiresAt.Some? && 0 < sub.expiresAt.value - now <= ExpiryWarningWindow)
      && forall a :: a in r.1 ==> a.userId == sub.userId
  {
    var checked := sub.(lastCheckedAt := Some(now));
    SymbolAlertsShape(checked, checked.symbols, src, now);
    var r := SweepOne(sub, src, now);
    assert r.1 == SymbolAlerts(checked, checked.symbols, src, now) + ExpiryAlerts(checked, now);
    if sub.expiresAt.Some? && 0 < sub.expiresAt.value - now <= ExpiryWarningWindow {
      assert ExpiryAlerts(checked, now)[0] in r.1;
    }
  }

  /** validateSubscription: user, at least one symbol, at least one rule. */
  function ValidateSubscription(sub: Subscription): (r: Outcome)
    ensures r == Pass <==> sub.userId != "" && |sub.symbols| > 0 && |sub.alertRules| > 0
  {
    if sub.userId == "" then Fail("用户ID不能为空")
    else if |sub.symbols| == 0 then Fail("订阅必须包含至少一个股票")
    else if |sub.alertRules| == 0 then Fail("订阅必须包含至少一个异动规则")
    else Pass
  }

  predicate AllThresholdsPositive(subs: map<string, Subscription>)
  {
    forall id :: id in subs ==> ThresholdsPositive(subs[id])
  }

  /** MonitorEngine. `sent` is the log of alerts whose blocking send has
      completed; the subscription table is the rule engine's, whose entries
      the sweep updates in place. */
  class Engine {
    const ruleEngine: RuleEngine.Engine
    const sources: Sources
    var sent: seq<AlertEvent>

    ghost predicate Valid()
      reads this, ruleEngine
    {
      ruleEngine.Valid()
    }

    /** NewMonitorEngine: a fresh rule engine over a channel of the given
      capacity. */
    constructor (capacity: nat, sources: Sources)
      ensures Valid() && fresh(ruleEngine) && this.sources == sources && sent == []
      ensures ruleEngine.capacity == capacity && ruleEngine.rules == map[] && ruleEngine.subscriptions == map[]
    {
      ruleEngine := new RuleEngine.Engine(capacity);
      this.sources := sources;
      sent := [];
    }

    /** handleNewsUpdate, visiting the subscriptions in the map order given. */
    method HandleNewsUpdate(news: NewsEvent, order: seq<string>, now: int)
      requires IsOrderOf(order, ruleEngine.subscriptions.Keys)
      modifies this`sent
      ensures sent == old(sent) + NewsPushAlerts(ruleEngine.subscriptions, order, news, sources.llm, now)
    {
      var subs := ruleEngine.subscriptions;
      var k := 0;
      while k < |order|
        invariant 0 <= k <= |order|
        invariant sent == old(sent) + NewsPushAlerts(subs, order[..k], news, sources.llm, now)
      {
        assert order[k] in order;
        var sub := subs[order[k]];
        NewsPushAlertsStep(subs, order, k, news, sources.llm, now, sub);
        if sub.status == Active {
          var shouldNotify := WantsNews(sub, news);
          if shouldNotify && IsSignificantNews(news) {
            AppendAssoc(old(sent), NewsPushAlerts(subs, order[..k], news, sources.llm, now),
              [NewsPushAlert(sub, news, sources.llm, now)]);
            sent := sent + [NewsPushAlert(sub, news, sources.llm, now)];
          }
        }
        k := k + 1;
      }
      assert order[..k] == order;
    }

    /** checkNewsAlerts. */
    method CheckNewsAlerts(userId: string, symbols: seq<string>, now: int)
      requires sources.news.Some?
      modifies this`sent
      ensures sent == old(sent) + NewsCheckAlerts(userId, symbols, sources, now)
    {
      var i := 0;
      while i < |symbols|
        invariant 0 <= i <= |symbols|
        invariant sent == old(sent) + NewsCheckAlerts(userId, symbols[..i], sources, now)
      {
        assert symbols[..i + 1][..i] == symbols[..i];
        var symbol := symbols[i];
        var fetched := sources.news.value(symbol);
        if fetched.Ok? {
          var items := fetched.value;
          ghost var before := sent;
          var j := 0;
          while j < |items|
            invariant 0 <= j <= |items|
            invariant sent == before + NewsItemAlerts(userId, symbol, items[..j], sources.llm, now)
          {
            assert items[..j + 1][..j] == items[..j];
            ghost var prev := NewsItemAlerts(userId, symbol, items[..j], sources.llm, now);
            if IsSignificantNews(items[j]) {
              AppendAssoc(before, prev, [NewsItemAlert(userId, symbol, items[j], sources.llm, now)]);
              sent := sent + [NewsItemAlert(userId, symbol, items[j], sources.llm, now)];
            } else {
              assert prev + [] == prev;
            }
            j := j + 1;
          }
          assert items[..j] == items;
          AppendAssoc(old(sent), NewsCheckAlerts(userId, symbols[..i], sources, now),
            NewsItemAlerts(userId, symbol, items, sources.llm, now));
        } else {
          ghost var prev := NewsCheckAlerts(userId, symbols[..i], sources, now);
          assert prev + [] == prev;
        }
        i := i + 1;
      }
      assert symbols[..i] == symbols;
    }

    /** checkPriceChangeRule, checkVolumeRule and checkPriceLevelRule. */
    method CheckQuoteRule(sub: Subscription, quote: StockQuote, rule: AlertRule, now: int)
      requires QuoteRule(rule) ==> rule.threshold > 0.0
      modifies this`sent
      ensures sent == old(sent) + OptionToSeq(QuoteRuleAlert(sub, quote, rule, sources.llm, now))
    {
      var alert := QuoteRuleAlert(sub, quote, rule, sources.llm, now);
      if alert.Some? {
        sent := sent + [alert.value];
      }
    }

    /** checkQuoteAlerts: fetch the quote, then try each enabled rule. */
    method CheckQuoteAlerts(sub: Subscription, symbol: string, now: int)
      requires ThresholdsPositive(sub)
      modifies this`sent
      ensures sent == old(sent) + QuoteAlerts(sub, symbol, sources, now)
    {
      if sources.quotes.None? {
        return;
      }
      var fetched := sources.quotes.value(symbol);
      if fetched.Err? {
        return;
      }
      var quote := fetched.value;
      var i := 0;
      while i < |sub.alertRules|
        invariant 0 <= i <= |sub.alertRules|
        invariant sent == old(sent) + QuoteRuleAlerts(sub, quote, sub.alertRules[..i], sources.llm, now)
      {
        QuoteRuleAlertsStep(sub, quote, sub.alertRules, i, sources.llm, now);
        var rule := sub.alertRules[i];
        if rule.enabled && (rule.ruleType == PriceChange || rule.ruleType == VolumeSpike || rule.ruleType == PriceLevel) {
          CheckQuoteRule(sub, quote, rule, now);
          AppendAssoc(old(sent), QuoteRuleAlerts(sub, quote, sub.alertRules[..i], sources.llm, now),
                      OptionToSeq(QuoteRuleAlert(sub, quote, rule, sources.llm, now)));
        } else {
          assert QuoteRuleAlert(sub, quote, rule, sources.llm, now) == None;
        }
        i := i + 1;
      }
      assert sub.alertRules[..i] == sub.alertRules;
    }

    /** checkSubscriptionRules: reports whether the (log-only) staleness
      warning applies and sends the expiry warning when due. */
    method CheckSubscriptionRules(sub: Subscription, now: int) returns (staleWarned: bool)
      modifies this`sent
      ensures staleWarned <==> StaleWarning(sub, now)
      ensures sent == old(sent) + ExpiryAlerts(sub, now)
    {
      staleWarned := sub.lastCheckedAt.Some? && now - sub.lastCheckedAt.value > StalenessLimit;
      if sub.expiresAt.Some? {
        var untilExpiry := sub.expiresAt.value - now;
        if untilExpiry > 0 && untilExpiry <= ExpiryWarningWindow {
          sent := sent + ExpiryAlerts(sub, now);
        }
      }
    }

    /** isSubscriptionValid: inactive subscriptions are invalid; an active one
      past its expiry is marked expired in the table and is invalid. */
    method IsSubscriptionValid(id: string, now: int) returns (valid: bool)
      requires Valid() && id in ruleEngine.subscriptions
      modifies ruleEngine`subscriptions
      ensures Valid()
      ensures var s := old(ruleEngine.subscriptions)[id];
        && (valid <==> s.status == Active && !(s.expiresAt.Some? && now > s.expiresAt.value))
        && (s.status == Active && s.expiresAt.Some? && now > s.expiresAt.value ==>
              ruleEngine.subscriptions == old(ruleEngine.subscriptions)[id := s.(status := Expired)])
        && (!(s.status == Active && s.expiresAt.Some? && now > s.expiresAt.value) ==>
              ruleEngine.subscriptions == old(ruleEngine.subscriptions))
    {
      var s := ruleEngine.subscriptions[id];
      if s.status != Active {
        return false;
      }
      if s.expiresAt.Some? && now > s.expiresAt.value {
        ruleEngine.subscriptions := ruleEngine.subscriptions[id := s.(status := Expired)];
        return false;
      }
      return true;
    }

    /** The body of checkAllSubscriptions' loop for one subscription. */
    method SweepSubscription(id: string, now: int)
      requires Valid() && id in ruleEngine.subscriptions && ThresholdsPositive(ruleEngine.subscriptions[id])
      modifies this`sent, ruleEngine`subscriptions
      ensures Valid()
      ensures var one := SweepOne(old(ruleEngine.subscriptions)[id], sources, now);
        ruleEngine.subscriptions == old(ruleEngine.subscriptions)[id := one.0] && sent == old(sent) + one.1
    {
      ghost var s0 := ruleEngine.subscriptions[id];
      var valid := IsSubscriptionValid(id, now);
      if !valid {
        assert s0.status != Active ==> ruleEngine.subscriptions == old(ruleEngine.subscriptions)[id := s0];
        return;
      }
      var sub := ruleEngine.subscriptions[id].(lastCheckedAt := Some(now));
      ruleEngine.subscriptions := ruleEngine.subscriptions[id := sub];
      var i := 0;
      while i < |sub.symbols|
        invariant 0 <= i <= |sub.symbols|
        invariant sent == old(sent) + SymbolAlerts(sub, sub.symbols[..i], sources, now)
        invariant ruleEngine.subscriptions == old(ruleEngine.subscriptions)[id := sub]
        invariant Valid()
      {
        SymbolAlertsStep(sub, sub.symbols, i, sources, now);
        var symbol := sub.symbols[i];
        ghost var done := SymbolAlerts(sub, sub.symbols[..i], sources, now);
        ghost var fromQuotes := if sources.quotes.Some? then QuoteAlerts(sub, symbol, sources, now) else [];
        ghost var fromNews := if sources.news.Some? then NewsCheckAlerts(sub.userId, [symbol], sources, now) else [];
        if sources.quotes.Some? {
          CheckQuoteAlerts(sub, symbol, now);
        }
        assert sent == old(sent) + done + fromQuotes;
        if sources.news.Some? {
          CheckNewsAlerts(sub.userId, [symbol], now);
        }
        assert sent == old(sent) + done + fromQuotes + fromNews;
        AppendAssoc(old(sent) + done, fromQuotes, fromNews);
        AppendAssoc(old(sent), done, fromQuotes + fromNews);
        AppendAssoc(done, fromQuotes, fromNews);
        i := i + 1;
      }
      assert sub.symbols[..i] == sub.symbols;
      var _ := CheckSubscriptionRules(sub, now);
    }

    /** checkAllSubscriptions, visiting the subscriptions in the map order given. */
    method CheckAllSubscriptions(order: seq<string>, now: int)
      requires Valid() && IsOrderOf(order, ruleEngine.subscriptions.Keys)
      requires AllThresholdsPositive(ruleEngine.subscriptions)
      modifies this`sent, ruleEngine`subscriptions
      ensures Valid()
      ensures ruleEngine.subscriptions == Sweep(old(ruleEngine.subscriptions), order, sources, now).0
      ensures sent == old(sent) + Sweep(old(ruleEngine.subscriptions), order, sources, now).1
    {
      var k := 0;
      while k < |order|
        invariant 0 <= k <= |order|
        invariant Valid()
        invariant ruleEngine.subscriptions == Sweep(old(ruleEngine.subscriptions), order[..k], sources, now).0
        invariant sent == old(sent) + Sweep(old(ruleEngine.subscriptions), order[..k], sources, now).1
      {
        assert order[k] in order;
        SweepStep(old(ruleEngine.subscriptions), order, k, sources, now);
        ghost var r := Sweep(old(ruleEngine.subscriptions), order[..k], sources, now);
        ghost var one := SweepOne(r.0[order[k]], sources, now);
        SweepSubscription(order[k], now);
        assert sent == old(sent) + r.1 + one.1;
        AppendAssoc(old(sent), r.1, one.1);
        k := k + 1;
      }
      assert order[..k] == order;
    }

    /** AddSubscription: a missing or invalid subscription is an error and
      changes nothing; a valid one goes to the rule engine. */
    method AddSubscription(subscription: Option<Subscription>, now: int) returns (result: Outcome)
      requires Valid()
      modifies ruleEngine`subscriptions, ruleEngine`rules, ruleEngine`nextId
      ensures Valid()
      ensures (subscription.None? || ValidateSubscription(subscription.value).Fail?) ==>
        && result.Fail?
        && ruleEngine.subscriptions == old(ruleEngine.subscriptions)
        && ruleEngine.rules == old(ruleEngine.rules) && ruleEngine.nextId == old(ruleEngine.nextId)
      ensures subscription.Some? && ValidateSubscription(subscription.value) == Pass ==>
        var s := subscription.value;
        var w := RuleEngine.WithSubscriptionRules(old(ruleEngine.rules), s.symbols, s.alertRules, old(ruleEngine.nextId), now);
        && result == Pass
        && ruleEngine.subscriptions == old(ruleEngine.subscriptions)[s.id := s]
        && ruleEngine.rules == w.0 && ruleEngine.nextId == w.1
    {
      if subscription.None? {
        return Fail("订阅对象不能为空");
      }
      var check := ValidateSubscription(subscription.value);
      if check.Fail? {
        return Fail("订阅验证失败: " + check.error);
      }
      ruleEngine.AddSubscription(subscription, now);
      return Pass;
    }

    /** UpdateSubscription: errors for a missing subscription, an unknown id
      or an invalid subscription; otherwise the old one is removed (its
      i-th symbol rebuilt from the others, visited in the i-th order) and
      the new one added. */
    method UpdateSubscription(subscription: Option<Subscription>, orders: seq<seq<string>>, now: int) returns (result: Outcome)
      requires Valid()
      requires subscription.Some? ==> AreOrdersOf(orders, ruleEngine.subscriptions.Keys - {subscription.value.id})
      requires subscription.Some? && subscription.value.id in ruleEngine.subscriptions ==>
        |orders| == |ruleEngine.subscriptions[subscription.value.id].symbols|
      modifies ruleEngine`subscriptions, ruleEngine`rules, ruleEngine`nextId
      ensures Valid()
      ensures (subscription.None? || subscription.value.id !in old(ruleEngine.subscriptions)
               || ValidateSubscription(subscription.value).Fail?) ==>
        && result.Fail?
        && ruleEngine.subscriptions == old(ruleEngine.subscriptions)
        && ruleEngine.rules == old(ruleEngine.rules) && ruleEngine.nextId == old(ruleEngine.nextId)
      ensures subscription.Some? && subscription.value.id in old(ruleEngine.subscriptions)
              && ValidateSubscription(subscription.value) == Pass ==>
        var s := subscription.value;
        var rest := old(ruleEngine.subscriptions) - {s.id};
        var removed := RuleEngine.RebuildAll(old(ruleEngine.rules), rest, orders,
                         old(ruleEngine.subscriptions)[s.id].symbols, old(ruleEngine.nextId), now);
        var added := RuleEngine.WithSubscriptionRules(removed.0, s.symbols, s.alertRules, removed.1, now);
        && result == Pass
        && ruleEngine.subscriptions == old(ruleEngine.subscriptions)[s.id := s]
        && ruleEngine.rules == added.0 && ruleEngine.nextId == added.1
    {
      if subscription.None? {
        return Fail("订阅对象不能为空");
      }
      var existing := ruleEngine.GetSubscription(subscription.value.id);
      if existing.None? {
        return Fail("订阅 " + subscription.value.id + " 不存在");
      }
      var check := ValidateSubscription(subscription.value);
      if check.Fail? {
        return Fail("订阅验证失败: " + check.error);
      }
      ruleEngine.RemoveSubscription(existing.value.id, orders, now);
      ruleEngine.AddSubscription(subscription, now);
      assert (old(ruleEngine.subscriptions) - {subscription.value.id})[subscription.value.id := subscription.value]
          == old(ruleEngine.subscriptions)[subscription.value.id := subscription.value];
      return Pass;
    }

    /** RemoveSubscription: errors for an empty or unknown id; otherwise the
      rule engine drops it (its i-th rebuild visiting the others in the i-th
      order). */
    method RemoveSubscription(subscriptionId: string, orders: seq<seq<string>>, now: int) returns (result: Outcome)
      requires Valid() && AreOrdersOf(orders, ruleEngine.subscriptions.Keys - {subscriptionId})
      requires subscriptionId in ruleEngine.subscriptions ==> |orders| == |ruleEngine.subscriptions[subscriptionId].symbols|
      modifies ruleEngine`subscriptions, ruleEngine`rules, ruleEngine`nextId
      ensures Valid()
      ensures (subscriptionId == "" || subscriptionId !in old(ruleEngine.subscriptions)) ==>
        && result.Fail?
        && ruleEngine.subscriptions == old(ruleEngine.subscriptions)
        && ruleEngine.rules == old(ruleEngine.rules) && ruleEngine.nextId == old(ruleEngine.nextId)
      ensures subscriptionId != "" && subscriptionId in old(ruleEngine.subscriptions) ==>
        var r := RuleEngine.RebuildAll(old(ruleEngine.rules), old(ruleEngine.subscriptions) - {subscriptionId}, orders,
                   old(ruleEngine.subscriptions)[subscriptionId].symbols, old(ruleEngine.nextId), now);
        && result == Pass
        && ruleEngine.subscriptions == old(ruleEngine.subscriptions) - {subscriptionId}
        && ruleEngine.rules == r.0 && ruleEngine.nextId == r.1
    {
      if subscriptionId == "" {
        return Fail("订阅ID不能为空");
      }
      var existing := ruleEngine.GetSubscription(subscriptionId);
      if existing.None? {
        return Fail("订阅 " + subscriptionId + " 不存在");
      }
      ruleEngine.RemoveSubscription(subscriptionId, orders, now);
      return Pass;
    }
  }
}
