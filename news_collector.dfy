/** The news collector of pkg/collector/news_collector.go: it normalises the
    crawler's raw messages into news events (stock code, keyword sentiment,
    impact score, keyword list), keeps them in a cache keyed by id, answers
    newest-first queries over the cache, and keeps a list of update handlers.
    JSON decoding and the parsing of the date text come in from outside. */
module NewsCollector {
  import opened Model
  import opened Strings

  /** The crawler's raw message (CrawlerNewsData). */
  datatype CrawlerNews = CrawlerNews(
    title: string,
    summary: string,
    date: string,
    link: string,
    content: string,
    id: string,
    kind: string,
    author: string,
    readNumber: real,
    time: string)

  // ---------------------------------------------------------------------
  // Stock codes

  /** isValidStockCode: six characters opening with a Shanghai (60, 68) or
      Shenzhen (00, 30) prefix. */
  predicate IsValidStockCode(code: string)
  {
    |code| == 6
    && (HasPrefix(code, "60") || HasPrefix(code, "68") || HasPrefix(code, "00") || HasPrefix(code, "30"))
  }

  /** A run of six ASCII digits starts at position i of s. */
  predicate CodeAt(s: string, i: int)
  {
    0 <= i && i + 6 <= |s| && AllDigits(s[i..i + 6])
  }

  /** The leftmost position at or after `from` where six digits start: where
      the regular expression (\d{6}) finds its first match. */
  function FirstCodeFrom(s: string, from: nat): (r: Option<nat>)
    ensures r.Some? ==> from <= r.value && CodeAt(s, r.value)
    ensures r.Some? ==> forall j :: from <= j < r.value ==> !CodeAt(s, j)
    ensures r.None? ==> forall j :: from <= j ==> !CodeAt(s, j)
    decreases |s| - from
  {
    if from + 6 > |s| then None
    else if CodeAt(s, from) then Some(from)
    else FirstCodeFrom(s, from + 1)
  }

  /** The category names used when no valid code is found. */
  predicate IsCategory(r: string)
  {
    r == "A股" || r == "港股" || r == "美股" || r == "通用"
  }

  /** The category fallback: the first market the text names, tried in the
      order A股, 港股, 美股, else general news. */
  function MarketCategory(content: string): (r: string)
    ensures IsCategory(r)
    ensures r == "A股" <==> Contains(content, "A股")
    ensures r == "港股" <==> !Contains(content, "A股") && Contains(content, "港股")
    ensures r == "美股" <==> !Contains(content, "A股") && !Contains(content, "港股") && Contains(content, "美股")
    ensures r == "通用" <==> !Contains(content, "A股") && !Contains(content, "港股") && !Contains(content, "美股")
  {
    if Contains(content, "A股") then "A股"
    else if Contains(content, "港股") then "港股"
    else if Contains(content, "美股") then "美股"
    else "通用"
  }

  /** extractSymbolFromContent: the first six-digit run when it is a valid
      code, else the category fallback. */
  function ExtractSymbolFromContent(content: string): (r: string)
    ensures r != ""
    ensures IsValidStockCode(r) || IsCategory(r)
    ensures IsValidStockCode(r) ==>
      (exists i :: CodeAt(content, i) && content[i..i + 6] == r
         && forall j :: 0 <= j < i ==> !CodeAt(content, j))
  {
    var first := FirstCodeFrom(content, 0);
    if first.Some? && IsValidStockCode(content[first.value..first.value + 6]) then
      content[first.value..first.value + 6]
    else MarketCategory(content)
  }

  /** A valid first run is the answer, whatever markets the text names. */
  lemma ValidFirstRunReturned(content: string, i: nat)
    requires CodeAt(content, i) && IsValidStockCode(content[i..i + 6])
    requires forall j :: 0 <= j < i ==> !CodeAt(content, j)
    ensures ExtractSymbolFromContent(content) == content[i..i + 6]
  {
    var first := FirstCodeFrom(content, 0);
    assert first == Some(i);
  }

  /** Text without any six-digit run falls back to its category. */
  lemma NoRunFallsBack(content: string)
    requires forall j :: !CodeAt(content, j)
    ensures ExtractSymbolFromContent(content) == MarketCategory(content)
  {
  }

  /** Only the first run counts: a valid code is not found when an invalid
      run comes earlier, and then the text falls back to its category. */
  lemma {:induction false} EarlierInvalidRunHidesCode(content: string, i: nat)
    requires CodeAt(content, i) && !IsValidStockCode(content[i..i + 6])
    requires forall j :: 0 <= j < i ==> !CodeAt(content, j)
    ensures ExtractSymbolFromContent(content) == MarketCategory(content)
  {
    var first := FirstCodeFrom(content, 0);
    assert first == Some(i);
  }

  // ---------------------------------------------------------------------
  // Keyword scans

  const NegativeKeywords: seq<string> := [
    "下跌", "暴跌", "亏损", "风险", "警告", "下滑", "跌幅", "利空",
    "失败", "困难", "问题", "危机", "担忧", "恶化", "下降"]

  const PositiveKeywords: seq<string> := [
    "上涨", "暴涨", "盈利", "机会", "突破", "增长", "涨幅", "利好",
    "成功", "机遇", "收益", "优势", "改善", "提升", "上升"]

  const HighImpactKeywords: seq<string> := [
    "重大", "突发", "紧急", "重要", "关键", "重磅", "首次", "历史性",
    "突破", "创新高", "跌停", "涨停", "停牌", "复牌"]

  /** Stock, industry and policy keywords, in that order. */
  const AllKeywords: seq<string> := [
    "股票", "股价", "涨跌", "交易", "市值", "成交量", "换手率",
    "PE", "PB", "ROE", "EPS", "分红", "业绩", "财报",
    "科技", "金融", "医药", "地产", "汽车", "消费", "能源",
    "AI", "人工智能", "芯片", "新能源", "5G", "区块链",
    "政策", "监管", "法规", "央行", "降准", "降息", "IPO",
    "注册制", "退市", "并购", "重组"]

  /** How many entries of the list occur in the text. */
  function CountPresent(text: string, kws: seq<string>): nat
    decreases |kws|
  {
    if |kws| == 0 then 0
    else CountPresent(text, kws[..|kws| - 1]) + (if Contains(text, kws[|kws| - 1]) then 1 else 0)
  }

  /** Each keyword adds at most one, however often it occurs. */
  lemma {:induction false} CountPresentBound(text: string, kws: seq<string>)
    ensures CountPresent(text, kws) <= |kws|
    ensures CountPresent(text, kws) == 0 <==> forall i :: 0 <= i < |kws| ==> !Contains(text, kws[i])
    decreases |kws|
  {
    if |kws| > 0 {
      var init := kws[..|kws| - 1];
      CountPresentBound(text, init);
      assert forall i :: 0 <= i < |init| ==> init[i] == kws[i];
    }
  }

  /** Adding text before or after never loses a keyword. */
  lemma {:induction false} CountPresentGrows(text: string, u: string, kws: seq<string>)
    ensures CountPresent(text, kws) <= CountPresent(text + u, kws)
    ensures CountPresent(text, kws) <= CountPresent(u + text, kws)
    decreases |kws|
  {
    if |kws| > 0 {
      CountPresentGrows(text, u, kws[..|kws| - 1]);
      if Contains(text, kws[|kws| - 1]) {
        ContainsAppend(text, u, kws[|kws| - 1]);
      }
    }
  }

  /** The text the scans look at. */
  function NewsText(title: string, content: string): string
  {
    title + " " + content
  }

  function Classify(positive: nat, negative: nat): NewsSentiment
  {
    if positive > negative then Positive
    else if negative > positive then Negative
    else Neutral
  }

  /** The sentiment analyzeSentiment computes: keyword counts on the
      lower-cased text. */
  function SentimentOf(title: string, content: string): NewsSentiment
  {
    var text := ToLower(NewsText(title, content));
    Classify(CountPresent(text, PositiveKeywords), CountPresent(text, NegativeKeywords))
  }

  /** Text with no keyword of either list is neutral; text with only
      negative keywords is negative, with only positive ones positive. */
  lemma SentimentByPresence(title: string, content: string)
    ensures var text := ToLower(NewsText(title, content));
      var pos := forall i :: 0 <= i < |PositiveKeywords| ==> !Contains(text, PositiveKeywords[i]);
      var neg := forall i :: 0 <= i < |NegativeKeywords| ==> !Contains(text, NegativeKeywords[i]);
      && (pos && neg ==> SentimentOf(title, content) == Neutral)
      && (pos && !neg ==> SentimentOf(title, content) == Negative)
      && (!pos && neg ==> SentimentOf(title, content) == Positive)
  {
    var text := ToLower(NewsText(title, content));
    CountPresentBound(text, PositiveKeywords);
    CountPresentBound(text, NegativeKeywords);
  }

  function ReadBonus(readNumber: real): real
  {
    if readNumber > 100000.0 then 0.5
    else if readNumber > 50000.0 then 0.4
    else if readNumber > 10000.0 then 0.3
    else if readNumber > 5000.0 then 0.2
    else if readNumber > 1000.0 then 0.1
    else 0.0
  }

  predicate AnyPresent(text: string, kws: seq<string>)
  {
    exists i :: 0 <= i < |kws| && Contains(text, kws[i])
  }

  /** The impact score from the read count and whether a high-impact keyword
      occurs, capped at 1.0. */
  function ImpactScore(readNumber: real, keyword: bool): (r: real)
    ensures 0.3 <= r <= 1.0
  {
    var impact := 0.3 + ReadBonus(readNumber) + (if keyword then 0.2 else 0.0);
    if impact > 1.0 then 1.0 else impact
  }

  /** The impact calculateImpact computes. */
  function ImpactOf(title: string, content: string, readNumber: real): real
  {
    ImpactScore(readNumber, AnyPresent(NewsText(title, content), HighImpactKeywords))
  }

  /** More reads never lower the score; a keyword adds at most 0.2, and
      only once however many keywords occur. */
  lemma ImpactMonotone(r1: real, r2: real, keyword: bool)
    requires r1 <= r2
    ensures ImpactScore(r1, keyword) <= ImpactScore(r2, keyword)
    ensures ImpactScore(r1, false) <= ImpactScore(r1, true) <= ImpactScore(r1, false) + 0.2
  {
  }

  /** The top tier with a keyword saturates the score. */
  lemma ImpactSaturates(readNumber: real)
    requires readNumber > 100000.0
    ensures ImpactScore(readNumber, true) == 1.0
    ensures ImpactScore(readNumber, false) == 0.8
  {
  }

  /** One more keyword either joins the result or leaves it as it was. */
  lemma PresentKeywordsStep(text: string, kws: seq<string>, i: nat)
    requires i < |kws|
    ensures Contains(text, kws[i])
      ==> PresentKeywords(text, kws[..i + 1]) == PresentKeywords(text, kws[..i]) + [kws[i]]
    ensures !Contains(text, kws[i])
      ==> PresentKeywords(text, kws[..i + 1]) == PresentKeywords(text, kws[..i])
  {
    var o := kws[..i + 1];
    assert o[..|o| - 1] == kws[..i] && o[|o| - 1] == kws[i];
  }

  /** The listed keywords present in the text, in list order. */
  function PresentKeywords(text: string, kws: seq<string>): (r: seq<string>)
    ensures |r| <= |kws|
    decreases |kws|
  {
    if |kws| == 0 then []
    else
      var prev := PresentKeywords(text, kws[..|kws| - 1]);
      if Contains(text, kws[|kws| - 1]) then prev + [kws[|kws| - 1]] else prev
  }

  predicate Distinct(s: seq<string>)
  {
    forall i, j :: 0 <= i < j < |s| ==> s[i] != s[j]
  }

  /** The keywords reported are exactly the listed ones the text contains,
      and a duplicate-free list gives a duplicate-free report. */
  lemma {:induction false} PresentKeywordsExact(text: string, kws: seq<string>)
    ensures forall k :: k in PresentKeywords(text, kws) <==> k in kws && Contains(text, k)
    ensures Distinct(kws) ==> Distinct(PresentKeywords(text, kws))
    decreases |kws|
  {
    if |kws| > 0 {
      var init := kws[..|kws| - 1];
      var last := kws[|kws| - 1];
      PresentKeywordsExact(text, init);
      assert kws == init + [last];
      if Distinct(kws) {
        assert Distinct(init);
        assert last !in init;
      }
    }
  }

  // ---------------------------------------------------------------------
  // Normalisation

  /** convertToNewsEvent, with the date text already parsed (or the current
      time when it could not be). */
  function Converted(raw: CrawlerNews, publishedAt: int, now: int): (ev: NewsEvent)
  {
    var text := NewsText(raw.title, raw.content);
    NewsEvent(raw.id, ExtractSymbolFromContent(text), raw.title, raw.content, raw.summary,
      "财联社", raw.author, raw.link, SentimentOf(raw.title, raw.content),
      ImpactOf(raw.title, raw.content, raw.readNumber),
      PresentKeywords(text, AllKeywords), publishedAt, now, now)
  }

  /** A normalised event keeps the message's id and title, always names a
      symbol, and scores its impact in [0.3, 1.0]; so the general-news
      branch of the monitor engine (empty symbol) never sees it. */
  lemma ConvertedShape(raw: CrawlerNews, publishedAt: int, now: int)
    ensures var ev := Converted(raw, publishedAt, now);
      && ev.id == raw.id && ev.title == raw.title
      && ev.symbol != "" && 0.3 <= ev.impact <= 1.0
      && ev.source == "财联社"
      && forall k :: k in ev.keywords ==> k in AllKeywords && Contains(NewsText(raw.title, raw.content), k)
  {
    PresentKeywordsExact(NewsText(raw.title, raw.content), AllKeywords);
  }

  /** analyzeSentiment. */
  method AnalyzeSentiment(title: string, content: string) returns (sentiment: NewsSentiment)
    ensures sentiment == SentimentOf(title, content)
  {
    var text := ToLower(title + " " + content);
    var negativeScore := 0;
    var positiveScore := 0;
    for i := 0 to |NegativeKeywords|
      invariant negativeScore == CountPresent(text, NegativeKeywords[..i])
    {
      assert NegativeKeywords[..i + 1][..i] == NegativeKeywords[..i];
      if Contains(text, NegativeKeywords[i]) {
        negativeScore := negativeScore + 1;
      }
    }
    assert NegativeKeywords[..|NegativeKeywords|] == NegativeKeywords;
    for i := 0 to |PositiveKeywords|
      invariant positiveScore == CountPresent(text, PositiveKeywords[..i])
    {
      assert PositiveKeywords[..i + 1][..i] == PositiveKeywords[..i];
      if Contains(text, PositiveKeywords[i]) {
        positiveScore := positiveScore + 1;
      }
    }
    assert PositiveKeywords[..|PositiveKeywords|] == PositiveKeywords;
    if positiveScore > negativeScore {
      return Positive;
    } else if negativeScore > positiveScore {
      return Negative;
    }
    return Neutral;
  }

  /** calculateImpact: base 0.3, a read-count tier, at most one keyword
      bonus, capped at 1.0. */
  method CalculateImpact(title: string, content: string, readNumber: real) returns (impact: real)
    ensures impact == ImpactOf(title, content, readNumber)
  {
    impact := 0.3;
    if readNumber > 100000.0 {
      impact := impact + 0.5;
    } else if readNumber > 50000.0 {
      impact := impact + 0.4;
    } else if readNumber > 10000.0 {
      impact := impact + 0.3;
    } else if readNumber > 5000.0 {
      impact := impact + 0.2;
    } else if readNumber > 1000.0 {
      impact := impact + 0.1;
    }
    ghost var base := impact;
    var text := title + " " + content;
    var i := 0;
    while i < |HighImpactKeywords|
      invariant 0 <= i <= |HighImpactKeywords|
      invariant impact == base
      invariant forall j :: 0 <= j < i ==> !Contains(text, HighImpactKeywords[j])
    {
      if Contains(text, HighImpactKeywords[i]) {
        impact := impact + 0.2;
        break;
      }
      i := i + 1;
    }
    assert impact == base + (if AnyPresent(text, HighImpactKeywords) then 0.2 else 0.0);
    if impact > 1.0 {
      impact := 1.0;
    }
  }

  /** extractKeywords. */
  method ExtractKeywords(title: string, content: string) returns (keywords: seq<string>)
    ensures keywords == PresentKeywords(NewsText(title, content), AllKeywords)
  {
    keywords := [];
    var text := title + " " + content;
    for i := 0 to |AllKeywords|
      invariant keywords == PresentKeywords(text, AllKeywords[..i])
    {
      PresentKeywordsStep(text, AllKeywords, i);
      if Contains(text, AllKeywords[i]) {
        keywords := keywords + [AllKeywords[i]];
      }
    }
    assert AllKeywords[..|AllKeywords|] == AllKeywords;
  }

  /** convertToNewsEvent. */
  method ConvertToNewsEvent(raw: CrawlerNews, publishedAt: int, now: int) returns (ev: NewsEvent)
    ensures ev == Converted(raw, publishedAt, now)
  {
    var symbol := ExtractSymbolFromContent(raw.title + " " + raw.content);
    var sentiment := AnalyzeSentiment(raw.title, raw.content);
    var impact := CalculateImpact(raw.title, raw.content, raw.readNumber);
    var keywords := ExtractKeywords(raw.title, raw.content);
    ev := NewsEvent(raw.id, symbol, raw.title, raw.content, raw.summary, "财联社", raw.author,
      raw.link, sentiment, impact, keywords, publishedAt, now, now);
  }

  // ---------------------------------------------------------------------
  // Queries

  /** The two query filters: by symbol (empty selects all) and by open
      time interval. */
  datatype Filter = BySymbol(symbol: string) | ByTime(start: int, end: int)

  predicate Keeps(f: Filter, ev: NewsEvent)
  {
    match f
    case BySymbol(symbol) => symbol == "" || ev.symbol == symbol
    case ByTime(start, end) => start < ev.publishedAt < end
  }

  /** The cached events the filter keeps, in the order the keys are visited. */
  function Select(cache: map<string, NewsEvent>, order: seq<string>, f: Filter): seq<NewsEvent>
    decreases |order|
  {
    if |order| == 0 then []
    else
      var prev := Select(cache, order[..|order| - 1], f);
      var k := order[|order| - 1];
      if k in cache && Keeps(f, cache[k]) then prev + [cache[k]] else prev
  }

  lemma {:induction false} SelectMembers(cache: map<string, NewsEvent>, order: seq<string>, f: Filter)
    ensures forall ev :: ev in Select(cache, order, f) <==>
      (exists k :: k in order && k in cache && cache[k] == ev) && Keeps(f, ev)
    decreases |order|
  {
    if |order| > 0 {
      var init := order[..|order| - 1];
      SelectMembers(cache, init, f);
      assert order == init + [order[|order| - 1]];
    }
  }

  predicate NewestFirst(s: seq<NewsEvent>)
  {
    forall i, j :: 0 <= i < j < |s| ==> s[i].publishedAt >= s[j].publishedAt
  }

  function Insert(ev: NewsEvent, s: seq<NewsEvent>): seq<NewsEvent>
    decreases |s|
  {
    if |s| == 0 || ev.publishedAt >= s[0].publishedAt then [ev] + s
    else [s[0]] + Insert(ev, s[1..])
  }

  /** Insertion adds the one event and keeps all the others. */
  lemma {:induction false} InsertPermutes(ev: NewsEvent, s: seq<NewsEvent>)
    ensures multiset(Insert(ev, s)) == multiset(s) + multiset{ev}
    ensures forall x :: x in Insert(ev, s) ==> x == ev || x in s
    decreases |s|
  {
    if |s| > 0 && ev.publishedAt < s[0].publishedAt {
      InsertPermutes(ev, s[1..]);
      assert s == [s[0]] + s[1..];
    }
  }

  lemma {:induction false} InsertSorted(ev: NewsEvent, s: seq<NewsEvent>)
    requires NewestFirst(s)
    ensures NewestFirst(Insert(ev, s))
    decreases |s|
  {
    if |s| > 0 && ev.publishedAt < s[0].publishedAt {
      var rest := Insert(ev, s[1..]);
      InsertSorted(ev, s[1..]);
      InsertPermutes(ev, s[1..]);
      assert forall x :: x in rest ==> s[0].publishedAt >= x.publishedAt;
      var r := [s[0]] + rest;
      assert forall j :: 0 < j < |r| ==> r[j] in rest;
    }
  }

  lemma SortStep(s: seq<NewsEvent>, rest: seq<NewsEvent>)
    requires |s| > 0 && NewestFirst(rest) && multiset(rest) == multiset(s[1..])
    ensures NewestFirst(Insert(s[0], rest)) && multiset(Insert(s[0], rest)) == multiset(s)
  {
    InsertSorted(s[0], rest);
    InsertPermutes(s[0], rest);
    assert s == [s[0]] + s[1..];
  }

  /** The order sort.Slice leaves behind: newest first, same events. Events
      with equal times may come in any order, as sort.Slice is not stable. */
  function SortNewestFirst(s: seq<NewsEvent>): (r: seq<NewsEvent>)
    ensures NewestFirst(r) && multiset(r) == multiset(s)
    decreases |s|
  {
    if |s| == 0 then []
    else
      var rest := SortNewestFirst(s[1..]);
      SortStep(s, rest);
      Insert(s[0], rest)
  }

  // ---------------------------------------------------------------------
  // The collector

  class Collector {
    /** The cache of the latest news, by id. */
    var newsCache: map<string, NewsEvent>
    /** The registered update handlers. */
    var handlers: seq<NewsEvent -> ()>

    /** Every cached event sits under its own id and names a symbol. */
    predicate Valid()
      reads this
    {
      forall k :: k in newsCache ==> newsCache[k].id == k && newsCache[k].symbol != ""
    }

    constructor ()
      ensures Valid() && newsCache == map[] && handlers == []
    {
      newsCache := map[];
      handlers := [];
    }

    /** handleNewsMessage: a message that does not decode, or lacks an id or
        a title, is refused and leaves the cache alone; otherwise its
        normalised event replaces whatever the cache held under that id.
        `parseTime` is the date parser; an unparsable date means now. */
    method HandleNewsMessage(message: Result<CrawlerNews>, parseTime: string -> Option<int>, now: int)
      returns (result: Outcome)
      requires Valid()
      modifies this`newsCache
      ensures Valid()
      ensures message.Err? ==> result.Fail? && newsCache == old(newsCache)
      ensures message.Ok? && (message.value.id == "" || message.value.title == "") ==>
        result.Fail? && newsCache == old(newsCache)
      ensures message.Ok? && message.value.id != "" && message.value.title != "" ==>
        && result == Pass
        && var published := if parseTime(message.value.date).Some? then parseTime(message.value.date).value else now;
           newsCache == old(newsCache)[message.value.id := Converted(message.value, published, now)]
    {
      if message.Err? {
        return Fail("解析新闻数据失败: " + message.error);
      }
      var raw := message.value;
      if raw.id == "" || raw.title == "" {
        return Fail("新闻数据缺少必要字段: ID=" + raw.id + ", Title=" + raw.title);
      }
      var parsed := parseTime(raw.date);
      var published := if parsed.Some? then parsed.value else now;
      var ev := ConvertToNewsEvent(raw, published, now);
      ConvertedShape(raw, published, now);
      newsCache := newsCache[ev.id := ev];
      return Pass;
    }

    /** GetLatestNews: the cached events of the symbol (all when the symbol
        is empty), newest first. `order` is the map's visiting order. */
    method GetLatestNews(symbol: string, order: seq<string>) returns (news: seq<NewsEvent>)
      requires IsOrderOf(order, newsCache.Keys)
      ensures NewestFirst(news)
      ensures multiset(news) == multiset(Select(newsCache, order, BySymbol(symbol)))
    {
      news := Collect(BySymbol(symbol), order);
      news := SortNewestFirst(news);
    }

    /** GetNewsByTimeRange: the cached events published strictly between the
        two instants, newest first. */
    method GetNewsByTimeRange(start: int, end: int, order: seq<string>) returns (news: seq<NewsEvent>)
      requires IsOrderOf(order, newsCache.Keys)
      ensures NewestFirst(news)
      ensures multiset(news) == multiset(Select(newsCache, order, ByTime(start, end)))
    {
      news := Collect(ByTime(start, end), order);
      news := SortNewestFirst(news);
    }

    /** The range loop both queries share. */
    method Collect(f: Filter, order: seq<string>) returns (news: seq<NewsEvent>)
      requires IsOrderOf(order, newsCache.Keys)
      ensures news == Select(newsCache, order, f)
    {
      news := [];
      for i := 0 to |order|
        invariant news == Select(newsCache, order[..i], f)
      {
        assert order[..i + 1][..i] == order[..i];
        assert order[i] in newsCache;
        var ev := newsCache[order[i]];
        if Keeps(f, ev) {
          news := news + [ev];
        }
      }
      assert order[..|order|] == order;
    }

    /** SubscribeNewsUpdates appends one handler. */
    method SubscribeNewsUpdates(handler: NewsEvent -> ()) returns (result: Outcome)
      modifies this`handlers
      ensures result == Pass && handlers == old(handlers) + [handler]
    {
      handlers := handlers + [handler];
      return Pass;
    }

    /** Stop empties the cache and the handler list. */
    method Stop() returns (result: Outcome)
      modifies this
      ensures result == Pass && newsCache == map[] && handlers == [] && Valid()
    {
      newsCache := map[];
      handlers := [];
      return Pass;
    }
  }

  /** A query returns an event exactly when it is cached and the filter
      keeps it. */
  lemma QueryMembers(cache: map<string, NewsEvent>, order: seq<string>, f: Filter, news: seq<NewsEvent>)
    requires IsOrderOf(order, cache.Keys)
    requires multiset(news) == multiset(Select(cache, order, f))
    ensures forall ev :: ev in news <==> ev in cache.Values && Keeps(f, ev)
  {
    SelectMembers(cache, order, f);
    forall ev
      ensures ev in news <==> ev in Select(cache, order, f)
    {
      assert ev in news <==> ev in multiset(news);
    }
  }
}
