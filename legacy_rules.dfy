/** The older rule engine of pkg/engine/rules.go: the same rule table keyed by
    symbol ("*" for global rules), but no subscriptions, no Enabled check and
    a blocking send per fired rule. A blocking send that completes is an
    append to the log of sent alerts. The event it builds sets only symbol,
    type, intensity and a timestamp, which is the alert's createdAt here. */
module LegacyRules {
  import opened Model
  import RuleEngine
  import MemoryRepository

  /** The rules whose evaluation divides by the threshold (enabled or not). */
  predicate Divides(r: DetectionRule)
  {
    r.ruleType == PriceVolatility || r.ruleType == VolumeSpike
  }

  predicate ThresholdsPositive(list: seq<DetectionRule>)
  {
    forall i :: 0 <= i < |list| ==> Divides(list[i]) ==> list[i].threshold > 0.0
  }

  /** The switch of evaluateRules: the intensity of a fired rule. */
  function FiredIntensity(rule: DetectionRule, quote: StockQuote): (r: Option<real>)
    requires Divides(rule) ==> rule.threshold > 0.0
    ensures r.Some? <==>
      (rule.ruleType == PriceVolatility && Abs(quote.changePercent) >= rule.threshold) ||
      (rule.ruleType == VolumeSpike && quote.volume >= rule.threshold)
    ensures r.Some? && rule.ruleType == PriceVolatility ==> r.value * rule.threshold == Abs(quote.changePercent)
    ensures r.Some? && rule.ruleType == VolumeSpike ==> r.value * rule.threshold == quote.volume
    ensures r.Some? ==> r.value >= 1.0
  {
    match rule.ruleType
    case PriceVolatility =>
      if Abs(quote.changePercent) >= rule.threshold then
        QuotientAtLeastOne(Abs(quote.changePercent), rule.threshold);
        Some(Abs(quote.changePercent) / rule.threshold)
      else None
    case VolumeSpike =>
      if quote.volume >= rule.threshold then
        QuotientAtLeastOne(quote.volume, rule.threshold);
        Some(quote.volume / rule.threshold)
      else None
    case _ => None
  }

  function LegacyAlert(quote: StockQuote, rule: DetectionRule, intensity: real, now: int): AlertEvent
  {
    BlankAlert(rule.ruleType, now).(symbol := quote.symbol, intensity := intensity)
  }

  /** The events one rule list sends, rule by rule. */
  function ListAlerts(list: seq<DetectionRule>, quote: StockQuote, now: int): seq<AlertEvent>
    requires ThresholdsPositive(list)
    decreases |list|
  {
    if |list| == 0 then []
    else
      var rule := list[|list| - 1];
      ListAlerts(list[..|list| - 1], quote, now)
      + (match FiredIntensity(rule, quote) case Some(i) => [LegacyAlert(quote, rule, i, now)] case None => [])
  }

  /** One more rule adds the event it fires, if any. */
  lemma ListAlertsStep(list: seq<DetectionRule>, i: nat, quote: StockQuote, now: int)
    requires ThresholdsPositive(list) && i < |list|
    ensures ThresholdsPositive(list[..i]) && ThresholdsPositive(list[..i + 1])
    ensures FiredIntensity(list[i], quote).Some?
      ==> (ListAlerts(list[..i + 1], quote, now)
           == ListAlerts(list[..i], quote, now) + [LegacyAlert(quote, list[i], FiredIntensity(list[i], quote).value, now)])
    ensures FiredIntensity(list[i], quote).None?
      ==> ListAlerts(list[..i + 1], quote, now) == ListAlerts(list[..i], quote, now)
  {
    var o := list[..i + 1];
    assert o[..|o| - 1] == list[..i] && o[|o| - 1] == list[i];
  }

  /** Evaluate: the "*" list, then the quote's own symbol's list. */
  function EvaluationAlerts(rules: map<string, seq<DetectionRule>>, quote: StockQuote, now: int): seq<AlertEvent>
    requires ThresholdsPositive(RuleEngine.Lookup(rules, "*")) && ThresholdsPositive(RuleEngine.Lookup(rules, quote.symbol))
  {
    ListAlerts(RuleEngine.Lookup(rules, "*"), quote, now) + ListAlerts(RuleEngine.Lookup(rules, quote.symbol), quote, now)
  }

  /** Each rule of the list that fires sends exactly one event, in list
      order, carrying the quote's symbol, the rule's type and its intensity. */
  lemma {:induction false} ListAlertsExact(list: seq<DetectionRule>, quote: StockQuote, now: int)
    requires ThresholdsPositive(list)
    ensures |ListAlerts(list, quote, now)| == |Fired(list, quote)|
    ensures forall k :: 0 <= k < |Fired(list, quote)| ==>
      var rule := list[Fired(list, quote)[k]];
      var a := ListAlerts(list, quote, now)[k];
      a.symbol == quote.symbol && a.alertType == rule.ruleType
      && FiredIntensity(rule, quote) == Some(a.intensity) && a.createdAt == now
    decreases |list|
  {
    if |list| > 0 {
      var n := |list| - 1;
      var prefix := list[..n];
      ListAlertsExact(prefix, quote, now);
      ListAlertsStep(list, n, quote, now);
      assert list[..n + 1] == list;
      var fp := Fired(prefix, quote);
      var ap := ListAlerts(prefix, quote, now);
      assert Fired(list, quote)[..|fp|] == fp;
      assert ListAlerts(list, quote, now)[..|ap|] == ap;
      forall k | 0 <= k < |fp|
        ensures list[fp[k]] == prefix[fp[k]]
      {
      }
    }
  }

  /** Positions of the rules of the list that fire, in increasing order. */
  function Fired(list: seq<DetectionRule>, quote: StockQuote): (ks: seq<nat>)
    requires ThresholdsPositive(list)
    ensures forall k :: 0 <= k < |ks| ==> ks[k] < |list| && FiredIntensity(list[ks[k]], quote).Some?
    decreases |list|
  {
    if |list| == 0 then []
    else
      var prefix := list[..|list| - 1];
      Fired(prefix, quote) + (if FiredIntensity(list[|list| - 1], quote).Some? then [|list| - 1] else [])
  }

  /** The Enabled flag plays no part: switching every rule on or off leaves
      the events unchanged. */
  lemma {:induction false} EnabledIgnored(list: seq<DetectionRule>, flag: bool, quote: StockQuote, now: int)
    requires ThresholdsPositive(list)
    ensures ThresholdsPositive(WithEnabled(list, flag))
    ensures ListAlerts(WithEnabled(list, flag), quote, now) == ListAlerts(list, quote, now)
    decreases |list|
  {
    if |list| > 0 {
      var prefix := list[..|list| - 1];
      assert WithEnabled(list, flag)[..|list| - 1] == WithEnabled(prefix, flag);
      EnabledIgnored(prefix, flag, quote, now);
    }
  }

  function WithEnabled(list: seq<DetectionRule>, flag: bool): (r: seq<DetectionRule>)
    ensures |r| == |list|
  {
    seq(|list|, i requires 0 <= i < |list| => list[i].(enabled := flag))
  }

  /** calculateIntensity: the size of the percentage change. */
  function CalculateIntensity(quote: StockQuote): (r: real)
    ensures r >= 0.0 && (r == quote.changePercent || r == -quote.changePercent)
  {
    Abs(quote.changePercent)
  }

  /** A fired price-volatility rule's intensity is calculateIntensity scaled
      down by the threshold. */
  lemma PriceIntensityScaled(rule: DetectionRule, quote: StockQuote)
    requires rule.ruleType == PriceVolatility && rule.threshold > 0.0
    requires FiredIntensity(rule, quote).Some?
    ensures FiredIntensity(rule, quote).value * rule.threshold == CalculateIntensity(quote)
  {
  }

  /** The system check's scenario: a 6.5 % move on 000001.SZ with a volume of
      2,000,000 against the seed rules. This engine fires the global price
      rule (intensity 1.3), the global volume rule (2.0) and the symbol's own
      price rule (6.5 / 3), in that order; the subscription engine, which
      checks Enabled, fires none of the seed rules, as none is enabled. */
  lemma SeedScenario(quote: StockQuote, now: int)
    requires quote.symbol == "000001.SZ" && quote.changePercent == 6.5 && quote.volume == 2000000.0
    ensures var seeds := MemoryRepository.LoadActiveRules();
      ThresholdsPositive(RuleEngine.Lookup(seeds, "*")) && ThresholdsPositive(RuleEngine.Lookup(seeds, quote.symbol))
    ensures var alerts := EvaluationAlerts(MemoryRepository.LoadActiveRules(), quote, now);
      && |alerts| == 3
      && alerts[0].alertType == PriceVolatility && alerts[0].intensity == 1.3
      && alerts[1].alertType == VolumeSpike && alerts[1].intensity == 2.0
      && alerts[2].alertType == PriceVolatility && alerts[2].intensity == 6.5 / 3.0
      && forall k :: 0 <= k < 3 ==> alerts[k].symbol == "000001.SZ"
    ensures forall k, i :: k in MemoryRepository.LoadActiveRules() && 0 <= i < |MemoryRepository.LoadActiveRules()[k]| ==>
      RuleEngine.EvaluateRule(MemoryRepository.LoadActiveRules()[k][i], quote).None?
  {
    var seeds := MemoryRepository.LoadActiveRules();
    var global, own := seeds["*"], seeds["000001.SZ"];
    assert ThresholdsPositive(global) && ThresholdsPositive(own);
    assert FiredIntensity(global[0], quote) == Some(1.3);
    assert FiredIntensity(global[1], quote) == Some(2.0);
    assert FiredIntensity(own[0], quote) == Some(6.5 / 3.0);
    assert global[..1][..0] == [] && global[..1][0] == global[0];
    assert global[..|global| - 1] == global[..1];
    assert own[..|own| - 1] == [];
  }

  class Engine {
    var rules: map<string, seq<DetectionRule>>
    /** The events whose blocking send has completed, oldest first. */
    var sent: seq<AlertEvent>

    constructor ()
      ensures rules == map[] && sent == []
    {
      rules := map[];
      sent := [];
    }

    /** AddRule appends to the symbol's list, creating it when absent. */
    method AddRule(symbol: string, rule: DetectionRule)
      modifies this`rules
      ensures rules == old(rules)[symbol := RuleEngine.Lookup(old(rules), symbol) + [rule]]
    {
      if symbol !in rules {
        rules := rules[symbol := []];
      }
      rules := rules[symbol := rules[symbol] + [rule]];
    }

    method ReloadRules(newRules: map<string, seq<DetectionRule>>)
      modifies this`rules
      ensures rules == newRules
    {
      rules := newRules;
    }

    method EvaluateRules(symbol: string, quote: StockQuote, now: int)
      requires ThresholdsPositive(RuleEngine.Lookup(rules, symbol))
      modifies this`sent
      ensures sent == old(sent) + ListAlerts(RuleEngine.Lookup(rules, symbol), quote, now)
    {
      if symbol !in rules {
        return;
      }
      var list := rules[symbol];
      var i := 0;
      while i < |list|
        invariant 0 <= i <= |list|
        invariant sent == old(sent) + ListAlerts(list[..i], quote, now)
      {
        ListAlertsStep(list, i, quote, now);
        var rule := list[i];
        var triggered := false;
        var intensity := 0.0;
        match rule.ruleType {
          case PriceVolatility =>
            if Abs(quote.changePercent) >= rule.threshold {
              triggered := true;
              intensity := Abs(quote.changePercent) / rule.threshold;
            }
          case VolumeSpike =>
            if quote.volume >= rule.threshold {
              triggered := true;
              intensity := quote.volume / rule.threshold;
            }
          case _ =>
        }
        if triggered {
          AppendAssoc(old(sent), ListAlerts(list[..i], quote, now), [LegacyAlert(quote, rule, intensity, now)]);
          sent := sent + [LegacyAlert(quote, rule, intensity, now)];
        }
        i := i + 1;
      }
      assert list[..i] == list;
    }

    /** Evaluate: the "*" rules, then the quote's own symbol's rules. */
    method Evaluate(quote: StockQuote, now: int)
      requires ThresholdsPositive(RuleEngine.Lookup(rules, "*")) && ThresholdsPositive(RuleEngine.Lookup(rules, quote.symbol))
      modifies this`sent
      ensures sent == old(sent) + EvaluationAlerts(rules, quote, now)
    {
      EvaluateRules("*", quote, now);
      EvaluateRules(quote.symbol, quote, now);
      AppendAssoc(old(sent), ListAlerts(RuleEngine.Lookup(rules, "*"), quote, now),
        ListAlerts(RuleEngine.Lookup(rules, quote.symbol), quote, now));
    }
  }
}
