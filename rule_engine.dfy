/** The subscription-aware rule engine of pkg/engine/rule_engine.go: detection
    rules keyed by symbol ("*" holds the global rules), subscriptions keyed by
    id, and an alert channel of fixed capacity to which alerts are sent
    without blocking (an alert that finds the channel full is dropped). */
module RuleEngine {
  import opened Model
  import opened Strings

  /** The n-th value of the engine's id generator (uuid.New() in the source):
      a counter rendered as text, so that distinct draws give distinct ids. */
  function Uuid(n: nat): string { "uuid-" + NatToString(n) }

  lemma UuidInjective(m: nat, n: nat)
    requires Uuid(m) == Uuid(n)
    ensures m == n
  {
    assert Uuid(m)[5..] == NatToString(m);
    assert Uuid(n)[5..] == NatToString(n);
    NatToStringInjective(m, n);
  }

  /** calculateSeverity: the severity band an intensity falls into. */
  function CalculateSeverity(intensity: real): (s: AlertSeverity)
    ensures s != Unset
  {
    if intensity >= 3.0 then Critical
    else if intensity >= 2.0 then High
    else if intensity >= 1.5 then Medium
    else Low
  }

  /** Each band, both ways. */
  lemma SeverityBands(i: real)
    ensures CalculateSeverity(i) == Critical <==> i >= 3.0
    ensures CalculateSeverity(i) == High <==> 2.0 <= i < 3.0
    ensures CalculateSeverity(i) == Medium <==> 1.5 <= i < 2.0
    ensures CalculateSeverity(i) == Low <==> i < 1.5
  {
  }

  /** A stronger intensity never yields a lower severity. */
  lemma SeverityMonotone(i: real, j: real)
    requires i <= j
    ensures CalculateSeverity(i).Rank() <= CalculateSeverity(j).Rank()
  {
  }

  /** getAlertTitle. */
  function AlertTitle(t: AlertType): string
  {
    match t
    case PriceVolatility => "价格异动"
    case VolumeSpike => "成交量异动"
    case NewsImpact => "新闻异动"
    case _ => "异动提醒"
  }

  /** The outcome of a rule that fired: how far past its threshold the quote
      went, the severity band of that, and the message text. */
  datatype Trigger = Trigger(intensity: real, severity: AlertSeverity, message: string)

  /** The rules whose evaluation divides by the threshold. */
  predicate Divides(r: DetectionRule)
  {
    r.enabled && (r.ruleType == PriceVolatility || r.ruleType == VolumeSpike)
  }

  predicate ThresholdsPositive(list: seq<DetectionRule>)
  {
    forall i :: 0 <= i < |list| ==> Divides(list[i]) ==> list[i].threshold > 0.0
  }

  /** One pass of the switch in evaluateRules: an enabled price-volatility
      rule fires when |changePercent| reaches its threshold, an enabled
      volume-spike rule when the volume reaches it; nothing else fires. */
  function EvaluateRule(rule: DetectionRule, quote: StockQuote): (t: Option<Trigger>)
    requires Divides(rule) ==> rule.threshold > 0.0
    ensures t.Some? <==>
      rule.enabled &&
      ((rule.ruleType == PriceVolatility && Abs(quote.changePercent) >= rule.threshold) ||
       (rule.ruleType == VolumeSpike && quote.volume >= rule.threshold))
    ensures t.Some? ==> t.value.intensity >= 1.0 && t.value.severity == CalculateSeverity(t.value.intensity)
    ensures t.Some? && rule.ruleType == PriceVolatility ==>
      t.value.intensity * rule.threshold == Abs(quote.changePercent)
    ensures t.Some? && rule.ruleType == VolumeSpike ==>
      t.value.intensity * rule.threshold == quote.volume
  {
    if !rule.enabled then None
    else match rule.ruleType
      case PriceVolatility =>
        if Abs(quote.changePercent) >= rule.threshold then
          QuotientAtLeastOne(Abs(quote.changePercent), rule.threshold);
          var i := Abs(quote.changePercent) / rule.threshold;
          Some(Trigger(i, CalculateSeverity(i), quote.symbol + " 价格异动：涨跌幅超过阈值"))
        else None
      case VolumeSpike =>
        if quote.volume >= rule.threshold then
          QuotientAtLeastOne(quote.volume, rule.threshold);
          var i := quote.volume / rule.threshold;
          Some(Trigger(i, CalculateSeverity(i), quote.symbol + " 成交量异动：当前成交量超过阈值"))
        else None
      case _ => None
  }

  /** A subscriber's own rule admits the alert: enabled, of the fired rule's
      type, and its threshold reached by |changePercent| (whatever the type). */
  predicate Matches(ar: AlertRule, ruleType: AlertType, quote: StockQuote)
  {
    ar.enabled && ar.ruleType == ruleType && Abs(quote.changePercent) >= ar.threshold
  }

  function CountMatching(rules: seq<AlertRule>, ruleType: AlertType, quote: StockQuote): (n: nat)
    ensures n <= |rules|
    decreases |rules|
  {
    if |rules| == 0 then 0
    else
      CountMatching(rules[..|rules| - 1], ruleType, quote)
      + (if Matches(rules[|rules| - 1], ruleType, quote) then 1 else 0)
  }

  lemma CountMatchingStep(rules: seq<AlertRule>, j: nat, ruleType: AlertType, quote: StockQuote)
    requires j < |rules|
    ensures CountMatching(rules[..j + 1], ruleType, quote)
      == CountMatching(rules[..j], ruleType, quote) + (if Matches(rules[j], ruleType, quote) then 1 else 0)
  {
    var o := rules[..j + 1];
    assert o[..|o| - 1] == rules[..j] && o[|o| - 1] == rules[j];
  }

  /** Some subscriber rule admits the alert exactly when the count is positive. */
  lemma {:induction false} CountMatchingPositive(rules: seq<AlertRule>, ruleType: AlertType, quote: StockQuote)
    ensures CountMatching(rules, ruleType, quote) > 0 <==>
      exists i :: 0 <= i < |rules| && Matches(rules[i], ruleType, quote)
    decreases |rules|
  {
    if |rules| > 0 {
      var prefix := rules[..|rules| - 1];
      CountMatchingPositive(prefix, ruleType, quote);
      if CountMatching(prefix, ruleType, quote) > 0 {
        var i :| 0 <= i < |prefix| && Matches(prefix[i], ruleType, quote);
        assert rules[i] == prefix[i];
      }
      if exists i :: 0 <= i < |rules| && Matches(rules[i], ruleType, quote) {
        var i :| 0 <= i < |rules| && Matches(rules[i], ruleType, quote);
        if i < |prefix| {
          assert prefix[i] == rules[i];
        }
      }
    }
  }

  function Repeat<T>(x: T, k: nat): (r: seq<T>)
    ensures |r| == k && forall i :: 0 <= i < k ==> r[i] == x
  {
    seq(k, _ => x)
  }

  lemma RepeatMore<T>(x: T, k: nat)
    ensures Repeat(x, k + 1) == Repeat(x, k) + [x]
  {
  }

  /** The alert generateAlertsForUsers builds for one subscriber, before its
      id is drawn; intensity and threshold come from the detection rule. */
  function SubscriberAlert(sub: Subscription, quote: StockQuote, rule: DetectionRule, trig: Trigger, now: int): AlertEvent
  {
    AlertEvent("", sub.userId, sub.id, quote.symbol, quote.name, rule.ruleType, trig.severity,
      quote.name + " " + AlertTitle(rule.ruleType), trig.message, Some(quote), "",
      trig.intensity, rule.threshold, false, false, now, 0, None)
  }

  /** The alerts one subscription receives for a fired rule: one per admitting
      rule of its own, provided it watches the symbol (only the first
      occurrence of the symbol is visited). */
  function SubscriptionAlerts(sub: Subscription, quote: StockQuote, rule: DetectionRule, trig: Trigger, now: int): seq<AlertEvent>
  {
    if quote.symbol in sub.symbols then
      Repeat(SubscriberAlert(sub, quote, rule, trig, now), CountMatching(sub.alertRules, rule.ruleType, quote))
    else []
  }

  /** The alerts of a fired rule, subscription by subscription in map order. */
  function FanOut(subs: map<string, Subscription>, order: seq<string>, quote: StockQuote,
                  rule: DetectionRule, trig: Trigger, now: int): seq<AlertEvent>
    decreases |order|
  {
    if |order| == 0 then []
    else
      var id := order[|order| - 1];
      FanOut(subs, order[..|order| - 1], quote, rule, trig, now)
      + (if id in subs then SubscriptionAlerts(subs[id], quote, rule, trig, now) else [])
  }

  /** The alerts of one rule list, rule by rule; the i-th rule, when it
      fires, visits the subscriptions in the i-th order. */
  function RuleAlerts(list: seq<DetectionRule>, subs: map<string, Subscription>, orders: seq<seq<string>>,
                      quote: StockQuote, now: int): seq<AlertEvent>
    requires ThresholdsPositive(list) && |list| <= |orders|
    decreases |list|
  {
    if |list| == 0 then []
    else
      var i := |list| - 1;
      RuleAlerts(list[..i], subs, orders, quote, now) + RuleFanOut(list[i], subs, orders[i], quote, now)
  }

  /** The alerts one rule produces: its fan-out when it fires, else none. */
  function RuleFanOut(rule: DetectionRule, subs: map<string, Subscription>, order: seq<string>,
                      quote: StockQuote, now: int): seq<AlertEvent>
    requires Divides(rule) ==> rule.threshold > 0.0
  {
    match EvaluateRule(rule, quote)
    case Some(t) => FanOut(subs, order, quote, rule, t, now)
    case None => []
  }

  function Lookup(rules: map<string, seq<DetectionRule>>, symbol: string): seq<DetectionRule>
  {
    if symbol in rules then rules[symbol] else []
  }

  /** Evaluate: the global "*" list first, then the quote's own symbol's
      list, each rule with its own visiting order. */
  function EvaluationAlerts(rules: map<string, seq<DetectionRule>>, subs: map<string, Subscription>,
                            globalOrders: seq<seq<string>>, symbolOrders: seq<seq<string>>,
                            quote: StockQuote, now: int): seq<AlertEvent>
    requires ThresholdsPositive(Lookup(rules, "*")) && ThresholdsPositive(Lookup(rules, quote.symbol))
    requires |Lookup(rules, "*")| <= |globalOrders| && |Lookup(rules, quote.symbol)| <= |symbolOrders|
  {
    RuleAlerts(Lookup(rules, "*"), subs, globalOrders, quote, now)
    + RuleAlerts(Lookup(rules, quote.symbol), subs, symbolOrders, quote, now)
  }

  /** Ids drawn in order from the generator, starting at its n-th value. */
  function Stamp(xs: seq<AlertEvent>, n: nat): (r: seq<AlertEvent>)
    ensures |r| == |xs|
  {
    seq(|xs|, i requires 0 <= i < |xs| => xs[i].(id := Uuid(n + i)))
  }

  lemma StampConcat(xs: seq<AlertEvent>, ys: seq<AlertEvent>, n: nat)
    ensures Stamp(xs + ys, n) == Stamp(xs, n) + Stamp(ys, n + |xs|)
  {
  }

  /** Alerts produced in one stretch of work carry pairwise distinct ids. */
  lemma StampedIdsDistinct(xs: seq<AlertEvent>, n: nat)
    ensures forall i, j :: 0 <= i < j < |xs| ==> Stamp(xs, n)[i].id != Stamp(xs, n)[j].id
  {
    forall i, j | 0 <= i < j < |xs|
      ensures Stamp(xs, n)[i].id != Stamp(xs, n)[j].id
    {
      if Stamp(xs, n)[i].id == Stamp(xs, n)[j].id {
        UuidInjective(n + i, n + j);
      }
    }
  }

  /** Every alert of a fan-out goes to a subscription, listed in the order,
      that watches the quote's symbol and holds an admitting rule; it carries
      the quote's symbol, the fired rule's type and threshold, and the
      trigger's intensity and severity. */
  lemma {:induction false} FanOutSound(subs: map<string, Subscription>, order: seq<string>, quote: StockQuote,
                                       rule: DetectionRule, trig: Trigger, now: int)
    ensures forall a :: a in FanOut(subs, order, quote, rule, trig, now) ==>
      && a.symbol == quote.symbol && a.alertType == rule.ruleType
      && a.intensity == trig.intensity && a.severity == trig.severity && a.threshold == rule.threshold
      && (exists id :: id in order && id in subs && a.subscriptionId == subs[id].id
            && a.userId == subs[id].userId && quote.symbol in subs[id].symbols
            && CountMatching(subs[id].alertRules, rule.ruleType, quote) > 0)
    decreases |order|
  {
    if |order| > 0 {
      var prefix := order[..|order| - 1];
      var id := order[|order| - 1];
      FanOutSound(subs, prefix, quote, rule, trig, now);
      forall a | a in FanOut(subs, order, quote, rule, trig, now)
        ensures exists id :: (id in order && id in subs && a.subscriptionId == subs[id].id
          && a.userId == subs[id].userId && quote.symbol in subs[id].symbols
          && CountMatching(subs[id].alertRules, rule.ruleType, quote) > 0)
      {
        if a in FanOut(subs, prefix, quote, rule, trig, now) {
          var j :| j in prefix && j in subs && a.subscriptionId == subs[j].id
            && a.userId == subs[j].userId && quote.symbol in subs[j].symbols
            && CountMatching(subs[j].alertRules, rule.ruleType, quote) > 0;
          assert j in order;
        } else {
          assert id in order;
        }
      }
    }
  }

  /** The id-keyed subscription table: each subscription is stored under its
      own id. */
  ghost predicate KeyedById(subs: map<string, Subscription>)
  {
    forall id :: id in subs ==> subs[id].id == id
  }

  /** Once a subscription is gone from the table, no fan-out alerts it. */
  lemma RemovedSubscriptionGetsNoAlerts(subs: map<string, Subscription>, removed: string, order: seq<string>,
                                        quote: StockQuote, rule: DetectionRule, trig: Trigger, now: int)
    requires KeyedById(subs) && removed !in subs
    ensures forall a :: a in FanOut(subs, order, quote, rule, trig, now) ==> a.subscriptionId != removed
  {
    FanOutSound(subs, order, quote, rule, trig, now);
  }

  /** Free places in a channel of the given capacity holding `length` items. */
  function Room(length: nat, capacity: nat): nat
  {
    if length < capacity then capacity - length else 0
  }

  /** Offering xs, one by one and without blocking, to a channel buffer q0
      (with d0 alerts dropped so far) leaves buffer q1 and count d1: the
      earliest alerts fill the free places, the rest are dropped. */
  ghost predicate Delivered(capacity: nat, q0: seq<AlertEvent>, d0: nat, xs: seq<AlertEvent>,
                            q1: seq<AlertEvent>, d1: nat)
  {
    var k := Min(|xs|, Room(|q0|, capacity));
    q1 == q0 + xs[..k] && d1 == d0 + |xs| - k
  }

  /** Two offers in a row are one offer of both lists. */
  lemma DeliveredConcat(capacity: nat, q0: seq<AlertEvent>, d0: nat, xs: seq<AlertEvent>,
                        q1: seq<AlertEvent>, d1: nat, ys: seq<AlertEvent>, q2: seq<AlertEvent>, d2: nat)
    requires |q0| <= capacity
    requires Delivered(capacity, q0, d0, xs, q1, d1) && Delivered(capacity, q1, d1, ys, q2, d2)
    ensures Delivered(capacity, q0, d0, xs + ys, q2, d2)
  {
    var room := Room(|q0|, capacity);
    if |xs| <= room {
      var k2 := Min(|ys|, Room(|q1|, capacity));
      assert (xs + ys)[..|xs| + k2] == xs + ys[..k2];
    } else {
      assert (xs + ys)[..room] == xs[..room];
    }
  }

  /** Offering nothing changes nothing. */
  lemma DeliveredNothing(capacity: nat, q: seq<AlertEvent>, d: nat)
    ensures Delivered(capacity, q, d, [], q, d)
  {
    assert q + [][..0] == q;
  }

  /** Offering xs, stamped with ids drawn from generator position n0, took
      the channel from buffer q0 and drop count d0 to q1 and d1, and the
      generator to n1. */
  ghost predicate Offered(capacity: nat, q0: seq<AlertEvent>, d0: nat, n0: nat, xs: seq<AlertEvent>,
                          q1: seq<AlertEvent>, d1: nat, n1: nat)
  {
    n1 == n0 + |xs| && Delivered(capacity, q0, d0, Stamp(xs, n0), q1, d1)
  }

  lemma OfferedNothing(capacity: nat, q: seq<AlertEvent>, d: nat, n: nat)
    ensures Offered(capacity, q, d, n, [], q, d, n)
  {
    DeliveredNothing(capacity, q, d);
  }

  /** Two offers in a row are one offer of both lists, stamped in one go. */
  lemma OfferedConcat(capacity: nat, q0: seq<AlertEvent>, d0: nat, n0: nat, xs: seq<AlertEvent>,
                      q1: seq<AlertEvent>, d1: nat, n1: nat, ys: seq<AlertEvent>,
                      q2: seq<AlertEvent>, d2: nat, n2: nat)
    requires |q0| <= capacity
    requires Offered(capacity, q0, d0, n0, xs, q1, d1, n1)
    requires Offered(capacity, q1, d1, n1, ys, q2, d2, n2)
    ensures Offered(capacity, q0, d0, n0, xs + ys, q2, d2, n2)
  {
    StampConcat(xs, ys, n0);
    DeliveredConcat(capacity, q0, d0, Stamp(xs, n0), q1, d1, Stamp(ys, n1), q2, d2);
  }

  /** Publishing one alert with the generator's next id is offering it. */
  lemma OfferedOne(capacity: nat, q0: seq<AlertEvent>, d0: nat, n0: nat, a: AlertEvent,
                   q1: seq<AlertEvent>, d1: nat)
    requires Delivered(capacity, q0, d0, [a.(id := Uuid(n0))], q1, d1)
    ensures Offered(capacity, q0, d0, n0, [a], q1, d1, n0 + 1)
  {
    assert Stamp([a], n0) == [a.(id := Uuid(n0))];
  }

  /** The alerts of a rule list grow rule by rule. */
  lemma RuleAlertsStep(list: seq<DetectionRule>, i: nat, subs: map<string, Subscription>, orders: seq<seq<string>>,
                       quote: StockQuote, now: int)
    requires ThresholdsPositive(list) && i < |list| <= |orders|
    ensures ThresholdsPositive(list[..i + 1])
    ensures RuleAlerts(list[..i + 1], subs, orders, quote, now)
      == RuleAlerts(list[..i], subs, orders, quote, now) + RuleFanOut(list[i], subs, orders[i], quote, now)
  {
    assert list[..i + 1][..i] == list[..i];
  }

  /** Offering never loses or reorders what was already buffered, never
      overfills the buffer, and drops an alert only when the buffer is full. */
  lemma DeliveredBounds(capacity: nat, q0: seq<AlertEvent>, d0: nat, xs: seq<AlertEvent>,
                        q1: seq<AlertEvent>, d1: nat)
    requires |q0| <= capacity && Delivered(capacity, q0, d0, xs, q1, d1)
    ensures q0 <= q1 && |q1| <= capacity && d1 >= d0
    ensures |q1| - |q0| + d1 - d0 == |xs|
    ensures d1 > d0 ==> |q1| == capacity
    ensures q1[|q0|..] <= xs
  {
  }

  /** The detection rule AddSubscription and rebuildRulesForSymbol derive from
      a subscriber's rule. */
  function ToDetection(ar: AlertRule, id: string, now: int): DetectionRule
  {
    DetectionRule(id, ar.ruleType, ar.threshold, ar.enabled, ar.description, now, now)
  }

  /** The detection rules derived from a subscriber's rule list, one per
      enabled rule in list order, drawing ids from the n-th on. */
  function Derived(ars: seq<AlertRule>, n: nat, now: int): (ds: seq<DetectionRule>)
    ensures |ds| <= |ars|
    decreases |ars|
  {
    if |ars| == 0 then []
    else
      var prev := Derived(ars[..|ars| - 1], n, now);
      var ar := ars[|ars| - 1];
      prev + (if ar.enabled then [ToDetection(ar, Uuid(n + |prev|), now)] else [])
  }

  /** What a rule says, apart from its id and timestamps. */
  datatype RuleShape = RuleShape(ruleType: AlertType, threshold: real, enabled: bool, description: string)

  function Shapes(ds: seq<DetectionRule>): (r: seq<RuleShape>)
    ensures |r| == |ds|
  {
    seq(|ds|, i requires 0 <= i < |ds| => RuleShape(ds[i].ruleType, ds[i].threshold, ds[i].enabled, ds[i].description))
  }

  /** The shapes of the enabled rules of a subscriber's list, in order. */
  function EnabledShapes(ars: seq<AlertRule>): seq<RuleShape>
    decreases |ars|
  {
    if |ars| == 0 then []
    else
      var ar := ars[|ars| - 1];
      EnabledShapes(ars[..|ars| - 1])
      + (if ar.enabled then [RuleShape(ar.ruleType, ar.threshold, ar.enabled, ar.description)] else [])
  }

  /** k copies of a list, one after the other. */
  function Copies(xs: seq<RuleShape>, k: nat): seq<RuleShape>
  {
    if k == 0 then [] else Copies(xs, k - 1) + xs
  }

  /** How many times s occurs in xs. */
  function Occurrences(xs: seq<string>, s: string): nat
    decreases |xs|
  {
    if |xs| == 0 then 0
    else Occurrences(xs[..|xs| - 1], s) + (if xs[|xs| - 1] == s then 1 else 0)
  }

  lemma {:induction false} OccurrencesZero(xs: seq<string>, s: string)
    ensures Occurrences(xs, s) == 0 <==> s !in xs
    decreases |xs|
  {
    if |xs| > 0 {
      OccurrencesZero(xs[..|xs| - 1], s);
      assert xs == xs[..|xs| - 1] + [xs[|xs| - 1]];
    }
  }

  lemma ShapesConcat(xs: seq<DetectionRule>, ys: seq<DetectionRule>)
    ensures Shapes(xs + ys) == Shapes(xs) + Shapes(ys)
  {
  }

  /** Derived rules are enabled, stamped with the time given, and say exactly
      what the enabled subscriber rules say. */
  lemma {:induction false} DerivedShapes(ars: seq<AlertRule>, n: nat, now: int)
    ensures Shapes(Derived(ars, n, now)) == EnabledShapes(ars)
    ensures forall i :: 0 <= i < |Derived(ars, n, now)| ==>
      Derived(ars, n, now)[i].enabled && Derived(ars, n, now)[i].createdAt == now
    decreases |ars|
  {
    if |ars| > 0 {
      var prefix := ars[..|ars| - 1];
      DerivedShapes(prefix, n, now);
      var prev := Derived(prefix, n, now);
      var ar := ars[|ars| - 1];
      var tail := if ar.enabled then [ToDetection(ar, Uuid(n + |prev|), now)] else [];
      ShapesConcat(prev, tail);
    }
  }

  /** A list appended to the symbol's rules (the map is left as it is when
      there is nothing to add, since AddRule is never called then). */
  function AppendRules(m: map<string, seq<DetectionRule>>, s: string, ds: seq<DetectionRule>): map<string, seq<DetectionRule>>
  {
    if ds == [] then m else m[s := Lookup(m, s) + ds]
  }

  lemma AppendRulesLookup(m: map<string, seq<DetectionRule>>, t: string, ds: seq<DetectionRule>, s: string)
    ensures Lookup(AppendRules(m, t, ds), s) == if s == t then Lookup(m, s) + ds else Lookup(m, s)
    ensures s in AppendRules(m, t, ds) <==> s in m || (s == t && ds != [])
  {
  }

  lemma AppendRulesSnoc(m: map<string, seq<DetectionRule>>, s: string, ds: seq<DetectionRule>, d: DetectionRule)
    ensures AppendRules(m, s, ds + [d]) == AppendRules(m, s, ds)[s := Lookup(AppendRules(m, s, ds), s) + [d]]
  {
    if ds == [] {
      assert ds + [d] == [d];
    } else {
      assert Lookup(m, s) + (ds + [d]) == (Lookup(m, s) + ds) + [d];
    }
  }

  lemma UpdateTwice(m: map<string, seq<DetectionRule>>, k: string, a: seq<DetectionRule>, b: seq<DetectionRule>)
    ensures m[k := a][k := b] == m[k := b]
  {
  }

  lemma AppendRulesPresent(m: map<string, seq<DetectionRule>>, s: string, ds: seq<DetectionRule>)
    requires s in m
    ensures AppendRules(m, s, ds) == m[s := m[s] + ds]
  {
    if ds == [] {
      assert m[s] + ds == m[s];
      assert m[s := m[s]] == m;
    }
  }

  /** AddSubscription's rule loops: for each symbol occurrence in turn, the
      derived rules are appended to that symbol's list; the result holds the
      new rule table and the next generator position. */
  function WithSubscriptionRules(rules: map<string, seq<DetectionRule>>, symbols: seq<string>,
                                 ars: seq<AlertRule>, n: nat, now: int): (map<string, seq<DetectionRule>>, nat)
    decreases |symbols|
  {
    if |symbols| == 0 then (rules, n)
    else
      var r := WithSubscriptionRules(rules, symbols[..|symbols| - 1], ars, n, now);
      var ds := Derived(ars, r.1, now);
      (AppendRules(r.0, symbols[|symbols| - 1], ds), r.1 + |ds|)
  }

  lemma WithSubscriptionRulesStep(rules: map<string, seq<DetectionRule>>, symbols: seq<string>, i: nat,
                                  ars: seq<AlertRule>, n: nat, now: int)
    requires i < |symbols|
    ensures var r := WithSubscriptionRules(rules, symbols[..i], ars, n, now);
      var ds := Derived(ars, r.1, now);
      WithSubscriptionRules(rules, symbols[..i + 1], ars, n, now) == (AppendRules(r.0, symbols[i], ds), r.1 + |ds|)
  {
    var o := symbols[..i + 1];
    assert o[..|o| - 1] == symbols[..i] && o[|o| - 1] == symbols[i];
  }

  /** Adding a subscription leaves the rules of every other symbol alone. */
  lemma {:induction false} SubscriptionRulesElsewhere(rules: map<string, seq<DetectionRule>>, symbols: seq<string>,
                                                      ars: seq<AlertRule>, n: nat, now: int, s: string)
    requires s !in symbols
    ensures var m := WithSubscriptionRules(rules, symbols, ars, n, now).0;
      (s in m <==> s in rules) && Lookup(m, s) == Lookup(rules, s)
    decreases |symbols|
  {
    if |symbols| > 0 {
      var prefix := symbols[..|symbols| - 1];
      assert symbols == prefix + [symbols[|symbols| - 1]];
      SubscriptionRulesElsewhere(rules, prefix, ars, n, now, s);
    }
  }

  /** A subscription without enabled rules leaves the rule table as it was. */
  lemma {:induction false} SubscriptionRulesNone(rules: map<string, seq<DetectionRule>>, symbols: seq<string>,
                                                 ars: seq<AlertRule>, n: nat, now: int)
    requires EnabledShapes(ars) == []
    ensures WithSubscriptionRules(rules, symbols, ars, n, now) == (rules, n)
    decreases |symbols|
  {
    if |symbols| > 0 {
      SubscriptionRulesNone(rules, symbols[..|symbols| - 1], ars, n, now);
      DerivedShapes(ars, n, now);
    }
  }

  /** `after` extends `before` by k copies of the given shapes. */
  ghost predicate GainedCopies(before: seq<DetectionRule>, after: seq<DetectionRule>, shapes: seq<RuleShape>, k: nat)
  {
    before <= after && Shapes(after[|before|..]) == Copies(shapes, k)
  }

  /** One more occurrence appends one more copy of the derived shapes. */
  lemma GainedCopiesStep(before: seq<DetectionRule>, mid: seq<DetectionRule>, ds: seq<DetectionRule>,
                         shapes: seq<RuleShape>, k: nat)
    requires GainedCopies(before, mid, shapes, k) && Shapes(ds) == shapes
    ensures GainedCopies(before, mid + ds, shapes, k + 1)
  {
    assert (mid + ds)[|before|..] == mid[|before|..] + ds;
    ShapesConcat(mid[|before|..], ds);
  }

  /** Each symbol of the subscription keeps its old rules and gains, per
      occurrence, a rule of the same shape for each enabled subscriber rule. */
  lemma {:induction false} SubscriptionRulesAppended(rules: map<string, seq<DetectionRule>>, symbols: seq<string>,
                                                     ars: seq<AlertRule>, n: nat, now: int, s: string)
    ensures GainedCopies(Lookup(rules, s), Lookup(WithSubscriptionRules(rules, symbols, ars, n, now).0, s),
                         EnabledShapes(ars), Occurrences(symbols, s))
    decreases |symbols|
  {
    if |symbols| > 0 {
      var prefix := symbols[..|symbols| - 1];
      var last := symbols[|symbols| - 1];
      SubscriptionRulesAppended(rules, prefix, ars, n, now, s);
      var r := WithSubscriptionRules(rules, prefix, ars, n, now);
      var ds := Derived(ars, r.1, now);
      var m := WithSubscriptionRules(rules, symbols, ars, n, now).0;
      assert m == AppendRules(r.0, last, ds);
      assert Occurrences(symbols, s) == Occurrences(prefix, s) + (if last == s then 1 else 0);
      AppendRulesLookup(r.0, last, ds, s);
      if last == s {
        assert Lookup(m, s) == Lookup(r.0, s) + ds;
        DerivedShapes(ars, r.1, now);
        GainedCopiesStep(Lookup(rules, s), Lookup(r.0, s), ds, EnabledShapes(ars), Occurrences(prefix, s));
      } else {
        assert Lookup(m, s) == Lookup(r.0, s);
      }
    } else {
      assert Lookup(rules, s)[|Lookup(rules, s)|..] == [];
    }
  }

  /** The rules one subscription contributes to a symbol when that symbol's
      list is rebuilt: its derived rules once per occurrence of the symbol. */
  function OccurrenceRules(symbols: seq<string>, ars: seq<AlertRule>, s: string, n: nat, now: int): seq<DetectionRule>
    decreases |symbols|
  {
    if |symbols| == 0 then []
    else
      var prev := OccurrenceRules(symbols[..|symbols| - 1], ars, s, n, now);
      prev + (if symbols[|symbols| - 1] == s then Derived(ars, n + |prev|, now) else [])
  }

  /** rebuildRulesForSymbol: the symbol's new list, subscription by
      subscription in map order. */
  function RebuildList(subs: map<string, Subscription>, order: seq<string>, s: string, n: nat, now: int): seq<DetectionRule>
    decreases |order|
  {
    if |order| == 0 then []
    else
      var prev := RebuildList(subs, order[..|order| - 1], s, n, now);
      var id := order[|order| - 1];
      prev + (if id in subs then OccurrenceRules(subs[id].symbols, subs[id].alertRules, s, n + |prev|, now) else [])
  }

  /** RemoveSubscription's loop: each symbol of the removed subscription is
      rebuilt in turn from the remaining subscriptions, the i-th rebuild
      visiting them in the i-th order. */
  function RebuildAll(rules: map<string, seq<DetectionRule>>, subs: map<string, Subscription>, orders: seq<seq<string>>,
                      symbols: seq<string>, n: nat, now: int): (map<string, seq<DetectionRule>>, nat)
    requires |symbols| <= |orders|
    decreases |symbols|
  {
    if |symbols| == 0 then (rules, n)
    else
      var i := |symbols| - 1;
      var r := RebuildAll(rules, subs, orders, symbols[..i], n, now);
      var list := RebuildList(subs, orders[i], symbols[i], r.1, now);
      (r.0[symbols[i] := list], r.1 + |list|)
  }

  lemma OccurrenceRulesStep(symbols: seq<string>, i: nat, ars: seq<AlertRule>, s: string, n: nat, now: int, m: nat)
    requires i < |symbols| && m == n + |OccurrenceRules(symbols[..i], ars, s, n, now)|
    ensures symbols[i] == s ==>
      (OccurrenceRules(symbols[..i + 1], ars, s, n, now)
       == OccurrenceRules(symbols[..i], ars, s, n, now) + Derived(ars, m, now))
    ensures symbols[i] != s ==>
      (OccurrenceRules(symbols[..i + 1], ars, s, n, now) == OccurrenceRules(symbols[..i], ars, s, n, now))
  {
    var o := symbols[..i + 1];
    assert o[..|o| - 1] == symbols[..i] && o[|o| - 1] == symbols[i];
    var prev := OccurrenceRules(symbols[..i], ars, s, n, now);
    assert prev + [] == prev;
  }

  lemma RebuildListStep(subs: map<string, Subscription>, order: seq<string>, k: nat, s: string, n: nat, now: int,
                        sub: Subscription, m: nat)
    requires k < |order| && order[k] in subs && subs[order[k]] == sub
    requires m == n + |RebuildList(subs, order[..k], s, n, now)|
    ensures RebuildList(subs, order[..k + 1], s, n, now)
      == RebuildList(subs, order[..k], s, n, now) + OccurrenceRules(sub.symbols, sub.alertRules, s, m, now)
  {
    var o := order[..k + 1];
    assert o[..|o| - 1] == order[..k] && o[|o| - 1] == order[k];
  }

  lemma RebuildAllStep(rules: map<string, seq<DetectionRule>>, subs: map<string, Subscription>, orders: seq<seq<string>>,
                       symbols: seq<string>, i: nat, n: nat, now: int)
    requires i < |symbols| <= |orders|
    ensures var r := RebuildAll(rules, subs, orders, symbols[..i], n, now);
      var list := RebuildList(subs, orders[i], symbols[i], r.1, now);
      RebuildAll(rules, subs, orders, symbols[..i + 1], n, now) == (r.0[symbols[i] := list], r.1 + |list|)
  {
    var o := symbols[..i + 1];
    assert o[..|o| - 1] == symbols[..i] && o[|o| - 1] == symbols[i];
  }

  /** The shapes a symbol's rebuilt list must hold: for every remaining
      subscription in map order, its enabled rules once per occurrence. */
  function RebuildShapes(subs: map<string, Subscription>, order: seq<string>, s: string): seq<RuleShape>
    decreases |order|
  {
    if |order| == 0 then []
    else
      var id := order[|order| - 1];
      RebuildShapes(subs, order[..|order| - 1], s)
      + (if id in subs then Copies(EnabledShapes(subs[id].alertRules), Occurrences(subs[id].symbols, s)) else [])
  }

  lemma {:induction false} OccurrenceRulesShapes(symbols: seq<string>, ars: seq<AlertRule>, s: string, n: nat, now: int)
    ensures Shapes(OccurrenceRules(symbols, ars, s, n, now)) == Copies(EnabledShapes(ars), Occurrences(symbols, s))
    decreases |symbols|
  {
    if |symbols| > 0 {
      var prefix := symbols[..|symbols| - 1];
      OccurrenceRulesShapes(prefix, ars, s, n, now);
      var prev := OccurrenceRules(prefix, ars, s, n, now);
      if symbols[|symbols| - 1] == s {
        DerivedShapes(ars, n + |prev|, now);
        ShapesConcat(prev, Derived(ars, n + |prev|, now));
      } else {
        assert OccurrenceRules(symbols, ars, s, n, now) == prev;
      }
    }
  }

  /** A rebuilt list says exactly what the remaining subscriptions' enabled
      rules say, whatever ids it draws. */
  lemma {:induction false} RebuildListShapes(subs: map<string, Subscription>, order: seq<string>, s: string, n: nat, now: int)
    ensures Shapes(RebuildList(subs, order, s, n, now)) == RebuildShapes(subs, order, s)
    decreases |order|
  {
    if |order| > 0 {
      var prefix := order[..|order| - 1];
      var id := order[|order| - 1];
      RebuildListShapes(subs, prefix, s, n, now);
      var prev := RebuildList(subs, prefix, s, n, now);
      if id in subs {
        OccurrenceRulesShapes(subs[id].symbols, subs[id].alertRules, s, n + |prev|, now);
        ShapesConcat(prev, OccurrenceRules(subs[id].symbols, subs[id].alertRules, s, n + |prev|, now));
      } else {
        assert RebuildList(subs, order, s, n, now) == prev;
      }
    }
  }

  /** After a removal, each symbol of the removed subscription holds exactly
      the rules the remaining subscriptions call for, in the order of its
      last rebuild (the j-th, where it occurs last); other symbols are left
      alone. */
  lemma {:induction false} RebuildAllShapes(rules: map<string, seq<DetectionRule>>, subs: map<string, Subscription>,
                                            orders: seq<seq<string>>, symbols: seq<string>, n: nat, now: int, s: string)
    requires |symbols| <= |orders|
    ensures var m := RebuildAll(rules, subs, orders, symbols, n, now).0;
      && (s in symbols ==> s in m)
      && (forall j :: 0 <= j < |symbols| && symbols[j] == s && s !in symbols[j + 1..] ==>
            Shapes(m[s]) == RebuildShapes(subs, orders[j], s))
      && (s !in symbols ==> (s in m <==> s in rules) && Lookup(m, s) == Lookup(rules, s))
    decreases |symbols|
  {
    if |symbols| > 0 {
      var i := |symbols| - 1;
      var prefix := symbols[..i];
      RebuildAllShapes(rules, subs, orders, prefix, n, now, s);
      var r := RebuildAll(rules, subs, orders, prefix, n, now);
      assert symbols == prefix + [symbols[i]];
      if s == symbols[i] {
        RebuildListShapes(subs, orders[i], s, r.1, now);
      }
      forall j | 0 <= j < |symbols| && symbols[j] == s && s !in symbols[j + 1..]
        ensures Shapes(RebuildAll(rules, subs, orders, symbols, n, now).0[s]) == RebuildShapes(subs, orders[j], s)
      {
        if j < i {
          assert symbols[i] in symbols[j + 1..];
          assert prefix[j + 1..] == symbols[j + 1..i];
        }
      }
    }
  }

  /** UpdateRule's patch: a field changes only when the update map holds a
      value of exactly the field's Go type (float64, bool, string) under its
      key; the update time is always set. */
  function Patched(r: DetectionRule, updates: map<string, Dyn>, now: int): DetectionRule
  {
    var r1 := if "threshold" in updates && updates["threshold"].F64? then r.(threshold := updates["threshold"].f) else r;
    var r2 := if "enabled" in updates && updates["enabled"].Bool? then r1.(enabled := updates["enabled"].b) else r1;
    var r3 := if "description" in updates && updates["description"].Str? then r2.(description := updates["description"].s) else r2;
    r3.(updatedAt := now)
  }

  /** A patch keeps the rule's identity and type, and changes each patchable
      field exactly when a correctly typed value is supplied for it. */
  lemma PatchedFields(r: DetectionRule, updates: map<string, Dyn>, now: int)
    ensures var p := Patched(r, updates, now);
      && p.id == r.id && p.ruleType == r.ruleType && p.createdAt == r.createdAt && p.updatedAt == now
      && p.threshold == (if "threshold" in updates && updates["threshold"].F64? then updates["threshold"].f else r.threshold)
      && p.enabled == (if "enabled" in updates && updates["enabled"].Bool? then updates["enabled"].b else r.enabled)
      && p.description == (if "description" in updates && updates["description"].Str? then updates["description"].s else r.description)
  {
  }

  /** Position of the first rule with the given id, or the list's length when
      there is none. */
  function IndexOfRule(list: seq<DetectionRule>, id: string): (i: nat)
    ensures i <= |list|
    ensures i < |list| ==> list[i].id == id
    ensures forall k :: 0 <= k < i ==> list[k].id != id
    decreases |list|
  {
    if |list| == 0 then 0
    else if list[0].id == id then 0
    else 1 + IndexOfRule(list[1..], id)
  }

  /** The figures GetRuleStats reports. */
  datatype RuleStats = RuleStats(
    totalRules: nat,
    enabledRules: nat,
    symbolCount: nat,
    subscriptionCount: nat,
    typeDistribution: map<AlertType, nat>)

  function EnabledInList(list: seq<DetectionRule>): (n: nat)
    ensures n <= |list|
    decreases |list|
  {
    if |list| == 0 then 0
    else EnabledInList(list[..|list| - 1]) + (if list[|list| - 1].enabled then 1 else 0)
  }

  function TypeInList(list: seq<DetectionRule>, t: AlertType): (n: nat)
    ensures n <= |list|
    decreases |list|
  {
    if |list| == 0 then 0
    else TypeInList(list[..|list| - 1], t) + (if list[|list| - 1].ruleType == t then 1 else 0)
  }

  /** Number of rules over the symbols listed in order. */
  function TotalRules(rules: map<string, seq<DetectionRule>>, order: seq<string>): nat
    decreases |order|
  {
    if |order| == 0 then 0
    else TotalRules(rules, order[..|order| - 1]) + |Lookup(rules, order[|order| - 1])|
  }

  function EnabledRules(rules: map<string, seq<DetectionRule>>, order: seq<string>): nat
    decreases |order|
  {
    if |order| == 0 then 0
    else EnabledRules(rules, order[..|order| - 1]) + EnabledInList(Lookup(rules, order[|order| - 1]))
  }

  function TypeCount(rules: map<string, seq<DetectionRule>>, order: seq<string>, t: AlertType): nat
    decreases |order|
  {
    if |order| == 0 then 0
    else TypeCount(rules, order[..|order| - 1], t) + TypeInList(Lookup(rules, order[|order| - 1]), t)
  }

  /** No more rules are enabled, nor of any one type, than there are rules. */
  lemma {:induction false} StatsBounded(rules: map<string, seq<DetectionRule>>, order: seq<string>, t: AlertType)
    ensures EnabledRules(rules, order) <= TotalRules(rules, order)
    ensures TypeCount(rules, order, t) <= TotalRules(rules, order)
    decreases |order|
  {
    if |order| > 0 {
      StatsBounded(rules, order[..|order| - 1], t);
    }
  }

  function Get(m: map<AlertType, nat>, t: AlertType): nat
  {
    if t in m then m[t] else 0
  }

  /** The figures grow symbol by symbol. */
  lemma StatsStep(rules: map<string, seq<DetectionRule>>, order: seq<string>, k: nat)
    requires k < |order|
    ensures TotalRules(rules, order[..k + 1]) == TotalRules(rules, order[..k]) + |Lookup(rules, order[k])|
    ensures EnabledRules(rules, order[..k + 1]) == EnabledRules(rules, order[..k]) + EnabledInList(Lookup(rules, order[k]))
    ensures forall t :: TypeCount(rules, order[..k + 1], t) == TypeCount(rules, order[..k], t) + TypeInList(Lookup(rules, order[k]), t)
  {
    var o := order[..k + 1];
    assert o[..|o| - 1] == order[..k] && o[|o| - 1] == order[k];
  }

  /** The inner loop of GetRuleStats over one symbol's list: the rule
      counts and the per-type counts grow by that list's figures. */
  method TallyList(list: seq<DetectionRule>, total0: nat, enabled0: nat, dist0: map<AlertType, nat>)
    returns (total: nat, enabled: nat, dist: map<AlertType, nat>)
    requires forall t :: t in dist0 ==> dist0[t] > 0
    ensures total == total0 + |list| && enabled == enabled0 + EnabledInList(list)
    ensures forall t :: Get(dist, t) == Get(dist0, t) + TypeInList(list, t)
    ensures forall t :: t in dist ==> dist[t] > 0
  {
    total, enabled, dist := total0, enabled0, dist0;
    var j := 0;
    while j < |list|
      invariant 0 <= j <= |list|
      invariant total == total0 + j
      invariant enabled == enabled0 + EnabledInList(list[..j])
      invariant forall t :: Get(dist, t) == Get(dist0, t) + TypeInList(list[..j], t)
      invariant forall t :: t in dist ==> dist[t] > 0
    {
      assert list[..j + 1][..j] == list[..j];
      total := total + 1;
      if list[j].enabled {
        enabled := enabled + 1;
      }
      dist := dist[list[j].ruleType := Get(dist, list[j].ruleType) + 1];
      j := j + 1;
    }
    assert list[..j] == list;
  }

  /** RuleEngine. The alert channel is a buffer of fixed capacity drained by
      the consumer (Receive); `dropped` counts the alerts that found it full,
      and `nextId` is the id generator's position. */
  class Engine {
    var rules: map<string, seq<DetectionRule>>
    var subscriptions: map<string, Subscription>
    var queue: seq<AlertEvent>
    const capacity: nat
    var dropped: nat
    var nextId: nat

    ghost predicate Valid()
      reads this
    {
      |queue| <= capacity && KeyedById(subscriptions)
    }

    /** NewRuleEngine, over a fresh channel of the given capacity. */
    constructor (capacity: nat)
      ensures Valid()
      ensures this.capacity == capacity && rules == map[] && subscriptions == map[]
      ensures queue == [] && dropped == 0 && nextId == 0
    {
      this.capacity := capacity;
      rules := map[];
      subscriptions := map[];
      queue := [];
      dropped := 0;
      nextId := 0;
    }

    /** The consumer's side of the channel: the oldest buffered alert, if any. */
    method Receive() returns (a: Option<AlertEvent>)
      requires Valid()
      modifies this`queue
      ensures Valid()
      ensures old(queue) == [] ==> a == None && queue == []
      ensures old(queue) != [] ==> a == Some(old(queue)[0]) && queue == old(queue)[1..]
    {
      if queue == [] {
        a := None;
      } else {
        a := Some(queue[0]);
        queue := queue[1..];
      }
    }

    /** The select with a default branch: the alert is buffered when there is
      room and dropped otherwise; the sender never waits. */
    method Publish(alert: AlertEvent)
      requires Valid()
      modifies this`queue, this`dropped
      ensures Valid()
      ensures Delivered(capacity, old(queue), old(dropped), [alert], queue, dropped)
      ensures |old(queue)| < capacity ==> queue == old(queue) + [alert] && dropped == old(dropped)
      ensures |old(queue)| >= capacity ==> queue == old(queue) && dropped == old(dropped) + 1
    {
      if |queue| < capacity {
        queue := queue + [alert];
      } else {
        dropped := dropped + 1;
      }
    }

    /** AddRule appends to the symbol's list, creating it when absent. */
    method AddRule(symbol: string, rule: DetectionRule)
      modifies this`rules
      ensures rules == old(rules)[symbol := Lookup(old(rules), symbol) + [rule]]
    {
      if symbol !in rules {
        rules := rules[symbol := []];
      }
      rules := rules[symbol := rules[symbol] + [rule]];
    }

    method ReloadRules(newRules: map<string, seq<DetectionRule>>)
      modifies this`rules
      ensures rules == newRules
    {
      rules := newRules;
    }

    method ClearRules()
      modifies this`rules
      ensures rules == map[]
    {
      rules := map[];
    }

    method GetSubscriptions() returns (subs: map<string, Subscription>)
      ensures subs == subscriptions
    {
      subs := subscriptions;
    }

    method GetSubscription(subscriptionId: string) returns (sub: Option<Subscription>)
      ensures subscriptionId in subscriptions ==> sub == Some(subscriptions[subscriptionId])
      ensures subscriptionId !in subscriptions ==> sub == None
    {
      if subscriptionId in subscriptions {
        sub := Some(subscriptions[subscriptionId]);
      } else {
        sub := None;
      }
    }

    /** GetRules: a symbol without a list reads as the empty list. */
    method GetRules(symbol: string) returns (list: seq<DetectionRule>)
      ensures list == Lookup(rules, symbol)
    {
      list := if symbol in rules then rules[symbol] else [];
    }

    method GetAllRules() returns (all: map<string, seq<DetectionRule>>)
      ensures all == rules
    {
      all := rules;
    }

    /** UpdateRule: an unknown symbol or rule id is an error and changes
      nothing; otherwise the first rule with that id is patched in place. */
    method UpdateRule(symbol: string, ruleId: string, updates: map<string, Dyn>, now: int) returns (result: Outcome)
      modifies this`rules
      ensures symbol !in old(rules) ==> result.Fail? && rules == old(rules)
      ensures symbol in old(rules) && IndexOfRule(old(rules)[symbol], ruleId) == |old(rules)[symbol]| ==>
        result.Fail? && rules == old(rules)
      ensures symbol in old(rules) && IndexOfRule(old(rules)[symbol], ruleId) < |old(rules)[symbol]| ==>
        var list := old(rules)[symbol];
        var i := IndexOfRule(list, ruleId);
        result == Pass && rules == old(rules)[symbol := list[i := Patched(list[i], updates, now)]]
    {
      if symbol !in rules {
        return Fail("股票 " + symbol + " 不存在规则");
      }
      var list := rules[symbol];
      var i := 0;
      while i < |list|
        invariant 0 <= i <= |list|
        invariant forall k :: 0 <= k < i ==> list[k].id != ruleId
        invariant rules == old(rules)
      {
        if list[i].id == ruleId {
          var r := list[i];
          if "threshold" in updates && updates["threshold"].F64? {
            r := r.(threshold := updates["threshold"].f);
          }
          if "enabled" in updates && updates["enabled"].Bool? {
            r := r.(enabled := updates["enabled"].b);
          }
          if "description" in updates && updates["description"].Str? {
            r := r.(description := updates["description"].s);
          }
          r := r.(updatedAt := now);
          rules := rules[symbol := list[i := r]];
          return Pass;
        }
        i := i + 1;
      }
      return Fail("规则 " + ruleId + " 不存在");
    }

    /** GetRuleStats, visiting the symbols in the map order given. */
    method GetRuleStats(order: seq<string>) returns (stats: RuleStats)
      requires IsOrderOf(order, rules.Keys)
      ensures stats.totalRules == TotalRules(rules, order)
      ensures stats.enabledRules == EnabledRules(rules, order)
      ensures stats.symbolCount == |rules| && stats.subscriptionCount == |subscriptions|
      ensures forall t :: t in stats.typeDistribution <==> TypeCount(rules, order, t) > 0
      ensures forall t :: t in stats.typeDistribution ==> stats.typeDistribution[t] == TypeCount(rules, order, t)
    {
      var total := 0;
      var enabled := 0;
      var dist: map<AlertType, nat> := map[];
      var k := 0;
      while k < |order|
        invariant 0 <= k <= |order|
        invariant total == TotalRules(rules, order[..k])
        invariant enabled == EnabledRules(rules, order[..k])
        invariant forall t :: Get(dist, t) == TypeCount(rules, order[..k], t)
        invariant forall t :: t in dist ==> dist[t] > 0
      {
        assert order[k] in order;
        StatsStep(rules, order, k);
        total, enabled, dist := TallyList(rules[order[k]], total, enabled, dist);
        k := k + 1;
      }
      assert order[..k] == order;
      stats := RuleStats(total, enabled, |rules|, |subscriptions|, dist);
    }

    /** The inner loop of generateAlertsForUsers: one alert, with a fresh id,
      per subscriber rule that admits the fired rule. */
    method AlertMatchingRules(base: AlertEvent, alertRules: seq<AlertRule>, ruleType: AlertType, quote: StockQuote)
      requires Valid()
      modifies this`queue, this`dropped, this`nextId
      ensures Valid()
      ensures Offered(capacity, old(queue), old(dropped), old(nextId), Repeat(base, CountMatching(alertRules, ruleType, quote)), queue, dropped, nextId)
    {
      OfferedNothing(capacity, queue, dropped, nextId);
      var j := 0;
      while j < |alertRules|
        invariant 0 <= j <= |alertRules|
        invariant Valid()
        invariant Offered(capacity, old(queue), old(dropped), old(nextId), Repeat(base, CountMatching(alertRules[..j], ruleType, quote)), queue, dropped, nextId)
      {
        CountMatchingStep(alertRules, j, ruleType, quote);
        var ar := alertRules[j];
        if Matches(ar, ruleType, quote) {
          ghost var produced := Repeat(base, CountMatching(alertRules[..j], ruleType, quote));
          var alert := base.(id := Uuid(nextId));
          ghost var q1, d1, n1 := queue, dropped, nextId;
          nextId := nextId + 1;
          Publish(alert);
          OfferedOne(capacity, q1, d1, n1, base, queue, dropped);
          OfferedConcat(capacity, old(queue), old(dropped), old(nextId), produced, q1, d1, n1, [base], queue, dropped, nextId);
          RepeatMore(base, |produced|);
        }
        j := j + 1;
      }
      assert alertRules[..j] == alertRules;
    }

    /** The body of generateAlertsForUsers' loop for one subscription: at the
      first occurrence of the quote's symbol, one alert per admitting rule. */
    method AlertSubscription(sub: Subscription, quote: StockQuote, rule: DetectionRule, trig: Trigger, now: int)
      requires Valid()
      modifies this`queue, this`dropped, this`nextId
      ensures Valid()
      ensures Offered(capacity, old(queue), old(dropped), old(nextId), SubscriptionAlerts(sub, quote, rule, trig, now), queue, dropped, nextId)
    {
      var base := SubscriberAlert(sub, quote, rule, trig, now);
      var i := 0;
      while i < |sub.symbols|
        invariant 0 <= i <= |sub.symbols|
        invariant quote.symbol !in sub.symbols[..i]
        invariant queue == old(queue) && dropped == old(dropped) && nextId == old(nextId)
      {
        if sub.symbols[i] == quote.symbol {
          AlertMatchingRules(base, sub.alertRules, rule.ruleType, quote);
          return;
        }
        assert sub.symbols[..i + 1] == sub.symbols[..i] + [sub.symbols[i]];
        i := i + 1;
      }
      assert sub.symbols[..i] == sub.symbols;
      OfferedNothing(capacity, queue, dropped, nextId);
    }

    /** generateAlertsForUsers, visiting the subscriptions in the map order given. */
    method GenerateAlertsForUsers(quote: StockQuote, rule: DetectionRule, trig: Trigger, order: seq<string>, now: int)
      requires Valid() && IsOrderOf(order, subscriptions.Keys)
      modifies this`queue, this`dropped, this`nextId
      ensures Valid()
      ensures Offered(capacity, old(queue), old(dropped), old(nextId), FanOut(subscriptions, order, quote, rule, trig, now), queue, dropped, nextId)
    {
      OfferedNothing(capacity, queue, dropped, nextId);
      var k := 0;
      while k < |order|
        invariant 0 <= k <= |order|
        invariant Valid()
        invariant Offered(capacity, old(queue), old(dropped), old(nextId), FanOut(subscriptions, order[..k], quote, rule, trig, now), queue, dropped, nextId)
      {
        assert order[k] in order;
        assert order[..k + 1][..k] == order[..k];
        ghost var before := FanOut(subscriptions, order[..k], quote, rule, trig, now);
        ghost var q1, d1, n1 := queue, dropped, nextId;
        var sub := subscriptions[order[k]];
        AlertSubscription(sub, quote, rule, trig, now);
        OfferedConcat(capacity, old(queue), old(dropped), old(nextId), before, q1, d1, n1,
          SubscriptionAlerts(sub, quote, rule, trig, now), queue, dropped, nextId);
        k := k + 1;
      }
      assert order[..k] == order;
    }

    /** One pass of evaluateRules' loop: a rule that fires is fanned out to
        the subscribers. */
    method ApplyRule(rule: DetectionRule, quote: StockQuote, order: seq<string>, now: int)
      requires Valid() && IsOrderOf(order, subscriptions.Keys)
      requires Divides(rule) ==> rule.threshold > 0.0
      modifies this`queue, this`dropped, this`nextId
      ensures Valid()
      ensures Offered(capacity, old(queue), old(dropped), old(nextId), RuleFanOut(rule, subscriptions, order, quote, now), queue, dropped, nextId)
    {
      OfferedNothing(capacity, queue, dropped, nextId);
      if rule.enabled {
        var triggered := false;
        var intensity := 0.0;
        var severity := Unset;
        var message := "";
        match rule.ruleType {
          case PriceVolatility =>
            if Abs(quote.changePercent) >= rule.threshold {
              triggered := true;
              intensity := Abs(quote.changePercent) / rule.threshold;
              severity := CalculateSeverity(intensity);
              message := quote.symbol + " 价格异动：涨跌幅超过阈值";
            }
          case VolumeSpike =>
            if quote.volume >= rule.threshold {
              triggered := true;
              intensity := quote.volume / rule.threshold;
              severity := CalculateSeverity(intensity);
              message := quote.symbol + " 成交量异动：当前成交量超过阈值";
            }
          case _ =>
        }
        if triggered {
          var trig := Trigger(intensity, severity, message);
          assert EvaluateRule(rule, quote) == Some(trig);
          GenerateAlertsForUsers(quote, rule, trig, order, now);
        }
      }
    }

    /** evaluateRules for one list (a missing list is the empty one); the
        i-th rule's fan-out ranges over the subscriptions in the i-th order. */
    method EvaluateRules(symbol: string, quote: StockQuote, orders: seq<seq<string>>, now: int)
      requires Valid() && AreOrdersOf(orders, subscriptions.Keys) && |orders| == |Lookup(rules, symbol)|
      requires ThresholdsPositive(Lookup(rules, symbol))
      modifies this`queue, this`dropped, this`nextId
      ensures Valid()
      ensures Offered(capacity, old(queue), old(dropped), old(nextId), RuleAlerts(Lookup(rules, symbol), subscriptions, orders, quote, now), queue, dropped, nextId)
    {
      OfferedNothing(capacity, queue, dropped, nextId);
      if symbol !in rules {
        return;
      }
      var list := rules[symbol];
      var i := 0;
      while i < |list|
        invariant 0 <= i <= |list|
        invariant ThresholdsPositive(list[..i])
        invariant Valid()
        invariant Offered(capacity, old(queue), old(dropped), old(nextId), RuleAlerts(list[..i], subscriptions, orders, quote, now), queue, dropped, nextId)
      {
        RuleAlertsStep(list, i, subscriptions, orders, quote, now);
        ghost var before := RuleAlerts(list[..i], subscriptions, orders, quote, now);
        ghost var q1, d1, n1 := queue, dropped, nextId;
        ApplyRule(list[i], quote, orders[i], now);
        OfferedConcat(capacity, old(queue), old(dropped), old(nextId), before, q1, d1, n1,
          RuleFanOut(list[i], subscriptions, orders[i], quote, now), queue, dropped, nextId);
        i := i + 1;
      }
      assert list[..i] == list;
    }

    /** Evaluate: the global "*" rules, then the quote's own symbol's rules,
        each rule's fan-out with its own visiting order. */
    method Evaluate(quote: StockQuote, globalOrders: seq<seq<string>>, symbolOrders: seq<seq<string>>, now: int)
      requires Valid() && AreOrdersOf(globalOrders, subscriptions.Keys) && AreOrdersOf(symbolOrders, subscriptions.Keys)
      requires |globalOrders| == |Lookup(rules, "*")| && |symbolOrders| == |Lookup(rules, quote.symbol)|
      requires ThresholdsPositive(Lookup(rules, "*")) && ThresholdsPositive(Lookup(rules, quote.symbol))
      modifies this`queue, this`dropped, this`nextId
      ensures Valid()
      ensures Offered(capacity, old(queue), old(dropped), old(nextId),
        EvaluationAlerts(rules, subscriptions, globalOrders, symbolOrders, quote, now), queue, dropped, nextId)
    {
      EvaluateRules("*", quote, globalOrders, now);
      ghost var q1, d1, n1 := queue, dropped, nextId;
      EvaluateRules(quote.symbol, quote, symbolOrders, now);
      OfferedConcat(capacity, old(queue), old(dropped), old(nextId),
        RuleAlerts(Lookup(rules, "*"), subscriptions, globalOrders, quote, now), q1, d1, n1,
        RuleAlerts(Lookup(rules, quote.symbol), subscriptions, symbolOrders, quote, now), queue, dropped, nextId);
    }

    /** The rule-conversion loop shared by AddSubscription and
      rebuildRulesForSymbol: each enabled subscriber rule becomes a new
      detection rule appended to the symbol's list. */
    method AppendDerivedRules(symbol: string, alertRules: seq<AlertRule>, now: int)
      modifies this`rules, this`nextId
      ensures nextId == old(nextId) + |Derived(alertRules, old(nextId), now)|
      ensures rules == AppendRules(old(rules), symbol, Derived(alertRules, old(nextId), now))
    {
      var j := 0;
      while j < |alertRules|
        invariant 0 <= j <= |alertRules|
        invariant nextId == old(nextId) + |Derived(alertRules[..j], old(nextId), now)|
        invariant rules == AppendRules(old(rules), symbol, Derived(alertRules[..j], old(nextId), now))
      {
        assert alertRules[..j + 1][..j] == alertRules[..j];
        ghost var prev := Derived(alertRules[..j], old(nextId), now);
        var ar := alertRules[j];
        if ar.enabled {
          var d := ToDetection(ar, Uuid(nextId), now);
          assert Derived(alertRules[..j + 1], old(nextId), now) == prev + [d];
          AppendRulesSnoc(old(rules), symbol, prev, d);
          nextId := nextId + 1;
          AddRule(symbol, d);
        } else {
          assert Derived(alertRules[..j + 1], old(nextId), now) == prev;
        }
        j := j + 1;
      }
      assert alertRules[..j] == alertRules;
    }

    /** AddSubscription: a missing subscription is ignored; otherwise it is
      stored under its id and its enabled rules are derived for every
      occurrence of every symbol it watches. */
    method AddSubscription(subscription: Option<Subscription>, now: int)
      requires Valid()
      modifies this`subscriptions, this`rules, this`nextId
      ensures Valid()
      ensures subscription.None? ==>
        subscriptions == old(subscriptions) && rules == old(rules) && nextId == old(nextId)
      ensures subscription.Some? ==>
        var s := subscription.value;
        && subscriptions == old(subscriptions)[s.id := s]
        && rules == WithSubscriptionRules(old(rules), s.symbols, s.alertRules, old(nextId), now).0
        && nextId == WithSubscriptionRules(old(rules), s.symbols, s.alertRules, old(nextId), now).1
    {
      if subscription.None? {
        return;
      }
      var s := subscription.value;
      subscriptions := subscriptions[s.id := s];
      var i := 0;
      while i < |s.symbols|
        invariant 0 <= i <= |s.symbols|
        invariant subscriptions == old(subscriptions)[s.id := s]
        invariant rules == WithSubscriptionRules(old(rules), s.symbols[..i], s.alertRules, old(nextId), now).0
        invariant nextId == WithSubscriptionRules(old(rules), s.symbols[..i], s.alertRules, old(nextId), now).1
      {
        WithSubscriptionRulesStep(old(rules), s.symbols, i, s.alertRules, old(nextId), now);
        AppendDerivedRules(s.symbols[i], s.alertRules, now);
        i := i + 1;
      }
      assert s.symbols[..i] == s.symbols;
    }

    /** The body of rebuildRulesForSymbol's loop for one subscription: its
      derived rules appended once per occurrence of the symbol. */
    method RebuildFromSubscription(symbol: string, sub: Subscription, now: int)
      requires symbol in rules
      modifies this`rules, this`nextId
      ensures rules == old(rules)[symbol := old(rules)[symbol] + OccurrenceRules(sub.symbols, sub.alertRules, symbol, old(nextId), now)]
      ensures nextId == old(nextId) + |OccurrenceRules(sub.symbols, sub.alertRules, symbol, old(nextId), now)|
    {
      ghost var before := rules[symbol];
      assert before + OccurrenceRules(sub.symbols[..0], sub.alertRules, symbol, old(nextId), now) == before;
      assert old(rules)[symbol := before] == old(rules);
      var i := 0;
      while i < |sub.symbols|
        invariant 0 <= i <= |sub.symbols|
        invariant rules == old(rules)[symbol := before + OccurrenceRules(sub.symbols[..i], sub.alertRules, symbol, old(nextId), now)]
        invariant nextId == old(nextId) + |OccurrenceRules(sub.symbols[..i], sub.alertRules, symbol, old(nextId), now)|
      {
        ghost var prev := OccurrenceRules(sub.symbols[..i], sub.alertRules, symbol, old(nextId), now);
        OccurrenceRulesStep(sub.symbols, i, sub.alertRules, symbol, old(nextId), now, nextId);
        if sub.symbols[i] == symbol {
          ghost var ds := Derived(sub.alertRules, nextId, now);
          AppendRulesPresent(rules, symbol, ds);
          AppendDerivedRules(symbol, sub.alertRules, now);
          UpdateTwice(old(rules), symbol, before + prev, (before + prev) + ds);
          AppendAssoc(before, prev, ds);
        }
        i := i + 1;
      }
      assert sub.symbols[..i] == sub.symbols;
    }

    /** rebuildRulesForSymbol: the symbol's list is emptied and refilled from
      every subscription that watches it, in the map order given. */
    method RebuildRulesForSymbol(symbol: string, order: seq<string>, now: int)
      requires IsOrderOf(order, subscriptions.Keys)
      modifies this`rules, this`nextId
      ensures rules == old(rules)[symbol := RebuildList(subscriptions, order, symbol, old(nextId), now)]
      ensures nextId == old(nextId) + |RebuildList(subscriptions, order, symbol, old(nextId), now)|
    {
      rules := rules[symbol := []];
      var k := 0;
      while k < |order|
        invariant 0 <= k <= |order|
        invariant rules == old(rules)[symbol := RebuildList(subscriptions, order[..k], symbol, old(nextId), now)]
        invariant nextId == old(nextId) + |RebuildList(subscriptions, order[..k], symbol, old(nextId), now)|
      {
        assert order[k] in order;
        ghost var prev := RebuildList(subscriptions, order[..k], symbol, old(nextId), now);
        var sub := subscriptions[order[k]];
        ghost var r0, n1 := rules, nextId;
        assert r0[symbol] == prev && n1 == old(nextId) + |prev|;
        RebuildListStep(subscriptions, order, k, symbol, old(nextId), now, sub, n1);
        ghost var next := prev + OccurrenceRules(sub.symbols, sub.alertRules, symbol, n1, now);
        RebuildFromSubscription(symbol, sub, now);
        UpdateTwice(old(rules), symbol, prev, next);
        k := k + 1;
      }
      assert order[..k] == order;
    }

    /** RemoveSubscription: an unknown id is ignored; otherwise the
      subscription is dropped and each symbol it watched is rebuilt from the
      remaining subscriptions, the i-th rebuild visiting them in the i-th
      order. */
    method RemoveSubscription(subscriptionId: string, orders: seq<seq<string>>, now: int)
      requires Valid() && AreOrdersOf(orders, subscriptions.Keys - {subscriptionId})
      requires subscriptionId in subscriptions ==> |orders| == |subscriptions[subscriptionId].symbols|
      modifies this`subscriptions, this`rules, this`nextId
      ensures Valid()
      ensures subscriptionId !in old(subscriptions) ==>
        subscriptions == old(subscriptions) && rules == old(rules) && nextId == old(nextId)
      ensures subscriptionId in old(subscriptions) ==>
        && subscriptions == old(subscriptions) - {subscriptionId}
        && rules == RebuildAll(old(rules), subscriptions, orders,
             old(subscriptions)[subscriptionId].symbols, old(nextId), now).0
        && nextId == RebuildAll(old(rules), subscriptions, orders,
             old(subscriptions)[subscriptionId].symbols, old(nextId), now).1
    {
      if subscriptionId !in subscriptions {
        return;
      }
      var sub := subscriptions[subscriptionId];
      subscriptions := subscriptions - {subscriptionId};
      var i := 0;
      while i < |sub.symbols|
        invariant 0 <= i <= |sub.symbols|
        invariant subscriptions == old(subscriptions) - {subscriptionId}
        invariant rules == RebuildAll(old(rules), subscriptions, orders, sub.symbols[..i], old(nextId), now).0
        invariant nextId == RebuildAll(old(rules), subscriptions, orders, sub.symbols[..i], old(nextId), now).1
      {
        RebuildAllStep(old(rules), subscriptions, orders, sub.symbols, i, old(nextId), now);
        RebuildRulesForSymbol(sub.symbols[i], orders[i], now);
        i := i + 1;
      }
      assert sub.symbols[..i] == sub.symbols;
    }
  }
}
