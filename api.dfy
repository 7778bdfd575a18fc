/** The request handling of pkg/api/handlers.go that has logic of its own:
    the symbol check of validateSymbols, the splitting of GetQuotes'
    `symbols` parameter, and the subscription SubscribeStock builds, stores
    and hands to the rule engine. The JSON body as decoded, Gin's
    `binding:"required"` checks on it, and the JSON replies become
    datatypes. */
module Api {
  import opened Model
  import opened Strings
  import MemoryRepository
  import RuleEngine

  /** A handler's reply: a status code with an error text or a payload. */
  datatype Response =
    | BadRequest(error: string)
    | ServerError(error: string)
    | Quotes(quotes: seq<StockQuote>)
    | Subscribed(subscriptionId: string, symbols: seq<string>)

  /** The JSON body of a subscribe call as decoded: an absent or null
      `symbols` is a nil slice (None); an empty array is an empty slice. */
  datatype SubscribeStockBody = SubscribeStockBody(userId: string, symbols: Option<seq<string>>, alertRules: seq<AlertRule>)

  /** The request once both required fields have passed binding. */
  datatype SubscribeStockRequest = SubscribeStockRequest(userId: string, symbols: seq<string>, alertRules: seq<AlertRule>)

  /** The validator's message for a field that fails its `required` tag. */
  function RequiredError(field: string): string
  {
    "Key: 'SubscribeStockRequest." + field + "' Error:Field validation for '" + field + "' failed on the 'required' tag"
  }

  /** ShouldBindJSON's `binding:"required"` checks, in field order: the
      user id must not be the empty string and the symbol slice must not be
      nil. The failures' messages are joined by a newline. */
  function Bind(body: SubscribeStockBody): (r: Result<SubscribeStockRequest>)
    ensures r.Ok? <==> body.userId != "" && body.symbols.Some?
    ensures r.Ok? ==> r.value == SubscribeStockRequest(body.userId, body.symbols.value, body.alertRules)
    ensures body.userId == "" ==> r.Err? && HasPrefix(r.error, RequiredError("UserID"))
    ensures body.symbols.None? ==> r.Err? && HasSuffix(r.error, RequiredError("Symbols"))
    ensures body.userId == "" && body.symbols.Some? ==> r.error == RequiredError("UserID")
    ensures body.userId != "" && body.symbols.None? ==> r.error == RequiredError("Symbols")
  {
    var userError := if body.userId == "" then [RequiredError("UserID")] else [];
    var symbolsError := if body.symbols.None? then [RequiredError("Symbols")] else [];
    var errors := userError + symbolsError;
    if |errors| == 0 then Ok(SubscribeStockRequest(body.userId, body.symbols.value, body.alertRules))
    else if |errors| == 1 then Err(errors[0])
    else Err(errors[0] + "\n" + errors[1])
  }

  /** The format check: at least six characters and an A-share suffix. */
  predicate IsValidSymbol(symbol: string)
  {
    |symbol| >= 6 && (HasSuffix(symbol, ".SZ") || HasSuffix(symbol, ".SH"))
  }

  /** The symbols that pass the check, in input order. */
  function ValidSymbols(symbols: seq<string>): (r: seq<string>)
    ensures |r| <= |symbols|
    ensures forall s :: s in r ==> s in symbols && IsValidSymbol(s)
    decreases |symbols|
  {
    if |symbols| == 0 then []
    else
      var init := ValidSymbols(symbols[..|symbols| - 1]);
      var last := symbols[|symbols| - 1];
      if IsValidSymbol(last) then init + [last] else init
  }

  const NoValidSymbol: string := "没有有效的股票代码"

  /** validateSymbols' result. */
  function Validated(symbols: seq<string>): (r: Result<seq<string>>)
    ensures r.Ok? ==> |r.value| >= 1
    ensures r.Err? ==> r.error == NoValidSymbol
  {
    var valid := ValidSymbols(symbols);
    if |valid| == 0 then Err(NoValidSymbol) else Ok(valid)
  }

  /** Every valid input symbol is kept, as often as it occurs. */
  lemma {:induction false} ValidSymbolsKeepsValid(symbols: seq<string>, s: string)
    requires s in symbols && IsValidSymbol(s)
    ensures s in ValidSymbols(symbols)
    decreases |symbols|
  {
    var init := symbols[..|symbols| - 1];
    if symbols[|symbols| - 1] != s {
      assert s in init by {
        var j :| 0 <= j < |symbols| && symbols[j] == s;
        assert init[j] == s;
      }
      ValidSymbolsKeepsValid(init, s);
    }
  }

  /** The filter keeps the input order: it distributes over concatenation. */
  lemma {:induction false} ValidSymbolsAppend(xs: seq<string>, ys: seq<string>)
    ensures ValidSymbols(xs + ys) == ValidSymbols(xs) + ValidSymbols(ys)
    decreases |ys|
  {
    if |ys| > 0 {
      var zs := xs + ys;
      assert zs[..|zs| - 1] == xs + ys[..|ys| - 1];
      assert zs[|zs| - 1] == ys[|ys| - 1];
      ValidSymbolsAppend(xs, ys[..|ys| - 1]);
    } else {
      assert xs + ys == xs;
    }
  }

  /** The call fails exactly when no symbol is valid. */
  lemma ValidatedFails(symbols: seq<string>)
    ensures Validated(symbols).Err? <==> forall s :: s in symbols ==> !IsValidSymbol(s)
  {
    if exists s :: s in symbols && IsValidSymbol(s) {
      var s :| s in symbols && IsValidSymbol(s);
      ValidSymbolsKeepsValid(symbols, s);
    } else {
      NoneValid(symbols);
    }
  }

  lemma {:induction false} NoneValid(symbols: seq<string>)
    requires forall s :: s in symbols ==> !IsValidSymbol(s)
    ensures ValidSymbols(symbols) == []
    decreases |symbols|
  {
    if |symbols| > 0 {
      NoneValid(symbols[..|symbols| - 1]);
      assert symbols[|symbols| - 1] in symbols;
    }
  }

  /** Hong Kong codes alone are refused. */
  lemma HongKongOnlyRefused(symbols: seq<string>)
    requires forall s :: s in symbols ==> HasSuffix(s, ".HK")
    ensures Validated(symbols) == Err(NoValidSymbol)
  {
    forall s | s in symbols
      ensures !IsValidSymbol(s)
    {
      assert s[|s| - 1] == 'K';
    }
    ValidatedFails(symbols);
  }

  /** validateSymbols. */
  method ValidateSymbols(symbols: seq<string>) returns (result: Result<seq<string>>)
    ensures result == Validated(symbols)
  {
    var valid: seq<string> := [];
    for i := 0 to |symbols|
      invariant valid == ValidSymbols(symbols[..i])
    {
      assert symbols[..i + 1][..i] == symbols[..i];
      if IsValidSymbol(symbols[i]) {
        valid := valid + [symbols[i]];
      }
    }
    assert symbols[..|symbols|] == symbols;
    if |valid| == 0 {
      return Err(NoValidSymbol);
    }
    return Ok(valid);
  }

  /** The symbol list GetQuotes asks for: an empty parameter is refused,
      any other is cut at every comma. */
  function QuoteSymbols(param: string): (r: Result<seq<string>>)
    ensures r.Err? <==> param == ""
    ensures r.Ok? ==> |r.value| >= 1 && Join(r.value, ',') == param
    ensures r.Ok? ==> forall p :: p in r.value ==> ',' !in p
  {
    if param == "" then Err("symbols参数不能为空")
    else
      JoinSplit(param, ',');
      SplitPiecesHaveNoSeparator(param, ',');
      Ok(Split(param, ','))
  }

  /** GetQuotes: the fetcher's error is passed on behind a prefix. */
  function GetQuotes(param: string, fetchRealtime: seq<string> -> Result<seq<StockQuote>>): (r: Response)
    ensures param == "" ==> r == BadRequest("symbols参数不能为空")
    ensures param != "" ==> (r.Quotes? <==> fetchRealtime(Split(param, ',')).Ok?)
    ensures r.Quotes? ==> r.quotes == fetchRealtime(Split(param, ',')).value
  {
    match QuoteSymbols(param)
    case Err(e) => BadRequest(e)
    case Ok(symbols) =>
      match fetchRealtime(symbols)
      case Err(e) => ServerError("获取行情数据失败: " + e)
      case Ok(quotes) => Quotes(quotes)
  }

  /** The subscription SubscribeStock builds: the validated symbols only,
      the requested rules, status active, both stamps the current time, no
      id yet (the repository gives one). */
  function NewSubscription(req: SubscribeStockRequest, now: int): (r: Result<Subscription>)
    ensures r.Err? <==> Validated(req.symbols).Err?
    ensures r.Err? ==> r.error == "无效的股票代码: " + NoValidSymbol
    ensures r.Ok? ==> && r.value.symbols == ValidSymbols(req.symbols)
                      && r.value.userId == req.userId && r.value.alertRules == req.alertRules
                      && r.value.status == Active && r.value.id == ""
                      && r.value.createdAt == now && r.value.updatedAt == now
  {
    match Validated(req.symbols)
    case Err(e) => Err("无效的股票代码: " + e)
    case Ok(valid) =>
      Ok(Subscription("", req.userId, "", "", valid, req.alertRules, Active, now, now, None, None, None))
  }

  /** The handler set: the repository and, when present, the rule engine. */
  class Handlers {
    const repository: MemoryRepository.Repository
    const ruleEngine: RuleEngine.Engine?

    constructor (repository: MemoryRepository.Repository, ruleEngine: RuleEngine.Engine?)
      ensures this.repository == repository && this.ruleEngine == ruleEngine
    {
      this.repository := repository;
      this.ruleEngine := ruleEngine;
    }

    /** SubscribeStock: a body that fails binding, then an invalid symbol
        list, is refused before anything is stored or any engine state
        changes; otherwise the subscription is stored under a fresh id
        (joining its user's list, the id index and one per-symbol entry per
        symbol), added to the rule engine with its derived detection rules,
        and the reply names the id and symbols. */
    method SubscribeStock(body: SubscribeStockBody, now: int, newId: string) returns (response: Response)
      requires ruleEngine != null ==> ruleEngine.Valid()
      modifies repository`subscriptions, repository`userSubscriptions, repository`subscriptionById
      modifies ruleEngine
      ensures ruleEngine != null ==> ruleEngine.Valid()
      ensures Bind(body).Err? ==>
        && response == BadRequest(Bind(body).error)
        && unchanged(repository)
        && (ruleEngine != null ==> unchanged(ruleEngine))
      ensures Bind(body).Ok? && Validated(Bind(body).value.symbols).Err? ==>
        && response == BadRequest("无效的股票代码: " + NoValidSymbol)
        && unchanged(repository)
        && (ruleEngine != null ==> unchanged(ruleEngine))
      ensures Bind(body).Ok? && Validated(Bind(body).value.symbols).Ok? ==>
        var req := Bind(body).value;
        var sub := NewSubscription(req, now).value.(id := newId);
        && response == Subscribed(newId, ValidSymbols(req.symbols))
        && repository.subscriptionById == old(repository.subscriptionById)[newId := sub]
        && repository.userSubscriptions == MemoryRepository.AppendToUser(old(repository.userSubscriptions), sub)
        && repository.subscriptions == MemoryRepository.AppendLegacy(old(repository.subscriptions), sub.userId,
             sub.symbols, MemoryRepository.LegacyRules(sub.alertRules), now)
        && (old(repository.Valid()) && newId !in old(repository.subscriptionById) ==> repository.Valid())
        && (ruleEngine != null ==>
              var w := RuleEngine.WithSubscriptionRules(old(ruleEngine.rules), sub.symbols, sub.alertRules, old(ruleEngine.nextId), now);
              && ruleEngine.subscriptions == old(ruleEngine.subscriptions)[newId := sub]
              && ruleEngine.rules == w.0 && ruleEngine.nextId == w.1
              && ruleEngine.queue == old(ruleEngine.queue) && ruleEngine.dropped == old(ruleEngine.dropped))
    {
      var bound := Bind(body);
      if bound.Err? {
        return BadRequest(bound.error);
      }
      var req := bound.value;
      var validated := ValidateSymbols(req.symbols);
      if validated.Err? {
        return BadRequest("无效的股票代码: " + validated.error);
      }
      var subscription := NewSubscription(req, now).value;
      // The in-memory repository never fails, so the server-error reply of
      // the handler cannot arise here.
      var saved, _ := repository.SaveSubscriptionModel(subscription, newId);
      if ruleEngine != null {
        ruleEngine.AddSubscription(Some(saved), now);
      }
      return Subscribed(saved.id, validated.value);
    }
  }
}
