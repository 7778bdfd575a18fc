/** The records the engines exchange (pkg/model): alert kinds and severities,
    subscriptions with their alert rules, quotes, news events, alert events and
    the engine-internal detection rules. Go's float64 fields are reals, its
    time.Time fields are integer instants (seconds), a `*time.Time` is an
    Option, and a string-typed Go enumeration is a datatype. */
module Model {

  datatype Option<T> = None | Some(value: T)

  /** A Go `(T, error)` return: either a value or an error text. */
  datatype Result<T> = Ok(value: T) | Err(error: string)

  /** A Go function that returns only an `error`. */
  datatype Outcome = Pass | Fail(error: string)

  /** A Go `interface{}` value, by dynamic kind: what JSON decoding, the
      Tushare item cells and the rule-patching maps can hold. */
  datatype Dyn =
    | F64(f: real)
    | F32(f: real)
    | Int(i: int)
    | Int64(i: int)
    | Str(s: string)
    | Bool(b: bool)
    | Nil
    | OtherKind

  /** AlertType: the six named kinds of pkg/model/alert.go; any other string a
      Go caller may put into the string-typed field is Other(name). The
      constants model.AlertPriceVolatility, model.AlertVolumeSpike and
      model.AlertNewsImpact used by the legacy engine and the repository are
      the same values as PriceVolatility, VolumeSpike and NewsImpact. */
  datatype AlertType =
    | PriceVolatility
    | VolumeSpike
    | NewsImpact
    | SystemAlert
    | PriceChange
    | PriceLevel
    | Other(name: string)
  {
    function Name(): string
    {
      match this
      case PriceVolatility => "price_volatility"
      case VolumeSpike => "volume_spike"
      case NewsImpact => "news_alert"
      case SystemAlert => "system_alert"
      case PriceChange => "price_change"
      case PriceLevel => "price_level"
      case Other(n) => n
    }
  }

  /** AlertSeverity; Unset is Go's zero value "", carried by events that never
      assign a severity. */
  datatype AlertSeverity = Unset | Low | Medium | High | Critical
  {
    /** Position on the low < medium < high < critical scale. */
    function Rank(): nat
    {
      match this
      case Unset => 0
      case Low => 1
      case Medium => 2
      case High => 3
      case Critical => 4
    }
  }

  /** SubscriptionStatus; Expired is written by the monitor engine although
      pkg/model/subscription.go declares only the first three. */
  datatype SubscriptionStatus = Active | Paused | Cancelled | Expired

  datatype NewsSentiment = Positive | Negative | Neutral

  /** A rule a user attaches to a subscription. */
  datatype AlertRule = AlertRule(
    id: string,
    ruleType: AlertType,
    threshold: real,
    enabled: bool,
    description: string,
    createdAt: int,
    updatedAt: int)

  /** The engine-internal form of a rule (pkg/model/detection.go). */
  datatype DetectionRule = DetectionRule(
    id: string,
    ruleType: AlertType,
    threshold: real,
    enabled: bool,
    description: string,
    createdAt: int,
    updatedAt: int)

  /** A user's standing request: symbols watched under a list of rules.
      ExpiresAt and LastCheckedAt are read and written by the monitor engine
      although the Go struct does not declare them. */
  datatype Subscription = Subscription(
    id: string,
    userId: string,
    name: string,
    description: string,
    symbols: seq<string>,
    alertRules: seq<AlertRule>,
    status: SubscriptionStatus,
    createdAt: int,
    updatedAt: int,
    lastAlertAt: Option<int>,
    expiresAt: Option<int>,
    lastCheckedAt: Option<int>)

  /** A quote snapshot (pkg/model/stock.go). */
  datatype StockQuote = StockQuote(
    id: int,
    symbol: string,
    name: string,
    price: real,
    open: real,
    high: real,
    low: real,
    close: real,
    preClose: real,
    volume: real,
    amount: real,
    turnover: real,
    change: real,
    changePercent: real,
    timestamp: int,
    createdAt: int)

  /** A quote with every field at Go's zero value except the symbol and time. */
  function BlankQuote(symbol: string, now: int): StockQuote
  {
    StockQuote(0, symbol, "", 0.0, 0.0, 0.0, 0.0, 0.0, 0.0, 0.0, 0.0, 0.0, 0.0, 0.0, now, 0)
  }

  /** A normalised news item (pkg/model/news.go). */
  datatype NewsEvent = NewsEvent(
    id: string,
    symbol: string,
    title: string,
    content: string,
    summary: string,
    source: string,
    author: string,
    url: string,
    sentiment: NewsSentiment,
    impact: real,
    keywords: seq<string>,
    publishedAt: int,
    createdAt: int,
    updatedAt: int)

  /** An alert as dispatched to consumers (pkg/model/alert.go). */
  datatype AlertEvent = AlertEvent(
    id: string,
    userId: string,
    subscriptionId: string,
    symbol: string,
    stockName: string,
    alertType: AlertType,
    severity: AlertSeverity,
    title: string,
    message: string,
    quoteData: Option<StockQuote>,
    aiAnalysis: string,
    intensity: real,
    threshold: real,
    isRead: bool,
    isNotified: bool,
    createdAt: int,
    updatedAt: int,
    expireAt: Option<int>)

  /** An alert with every field at Go's zero value except its type and time. */
  function BlankAlert(alertType: AlertType, now: int): AlertEvent
  {
    AlertEvent("", "", "", "", "", alertType, Unset, "", "", None, "", 0.0, 0.0, false, false, now, 0, None)
  }

  function Abs(x: real): (r: real)
    ensures r >= 0.0 && (r == x || r == -x)
  {
    if x < 0.0 then -x else x
  }

  /** A value at or above a positive divisor has quotient at least one,
      and the quotient times the divisor gives the value back. */
  lemma QuotientAtLeastOne(a: real, t: real)
    requires t > 0.0 && a >= t
    ensures a / t >= 1.0 && a / t * t == a
  {
    assert a / t * t == a;
  }

  lemma AppendAssoc<T>(a: seq<T>, b: seq<T>, c: seq<T>)
    ensures (a + b) + c == a + (b + c)
  {
  }

  /** `order` lists every key of a Go map exactly once: one of the orders in
      which `range` may visit the map. */
  ghost predicate IsOrderOf(order: seq<string>, keys: set<string>)
  {
    && (forall i, j :: 0 <= i < j < |order| ==> order[i] != order[j])
    && (forall k :: k in order <==> k in keys)
  }

  /** One visiting order per `range` statement of a call: Go draws a fresh
      order each time a map is ranged over, so each range gets its own. */
  ghost predicate AreOrdersOf(orders: seq<seq<string>>, keys: set<string>)
  {
    forall i :: 0 <= i < |orders| ==> IsOrderOf(orders[i], keys)
  }

  /** A visiting order has one entry per key. */
  lemma {:induction false} OrderLength(order: seq<string>, keys: set<string>)
    requires IsOrderOf(order, keys)
    ensures |order| == |keys|
    decreases |order|
  {
    if |order| > 0 {
      var init := order[..|order| - 1];
      var last := order[|order| - 1];
      assert forall j :: 0 <= j < |init| ==> init[j] == order[j];
      assert forall k :: k in init <==> k in keys - {last} by {
        assert order == init + [last];
      }
      OrderLength(init, keys - {last});
    }
  }
}
