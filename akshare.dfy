/** The AKShare adapter of pkg/collector/akshare_adapter.go: FetchRealtime
    walks the requested codes, sends each one to its market by suffix, loads
    that market's whole list once (the HTTP request, its retries and the JSON
    decoding are one outside function here), and emits a quote for the first
    listed stock whose code, without leading zeros, equals the requested
    code's number. Go's `fmt.Sprintf("%v", …)` and `fmt.Sscanf(…, "%f", …)`
    also come in from outside. */
module AKShare {
  import opened Model
  import opened Strings

  /** The two markets the adapter knows: A shares (.SH, .SZ) and Hong Kong. */
  datatype Market = AShares | HongKong

  /** One decoded element of a market list: a JSON object. */
  type Row = map<string, Dyn>

  /** What the adapter needs from outside: the list fetch (given the market
      and how many fetches this call has already made; Ok(None) is a body
      that decoded to JSON null), `%v` formatting, `%f` scanning (which
      leaves 0 when the text is not a number), and the clock. */
  datatype Env = Env(
    fetch: (Market, nat) -> Result<Option<seq<Row>>>,
    show: Dyn -> string,
    scan: string -> real,
    now: int)

  /** One list fetch this call made, and whether it stored a list. */
  datatype Fetch = Fetch(market: Market, loaded: bool)

  /** The loop's state: the two cached lists (None is Go's nil slice), the
      fetches made, the quotes collected, and the error that stopped it. */
  datatype Scan = Scan(
    aList: Option<seq<Row>>,
    hkList: Option<seq<Row>>,
    fetches: seq<Fetch>,
    quotes: seq<StockQuote>,
    aborted: Option<string>)

  /** A map lookup as Go does it: a missing key reads as nil. */
  function Cell(row: Row, key: string): Dyn
  {
    if key in row then row[key] else Nil
  }

  /** parseFloat: float64, float32, Go int and strings give a number; every
      other kind (int64 included) gives 0. */
  function ParseFloat(v: Dyn, scan: string -> real): (r: real)
    ensures (v.F64? || v.F32?) ==> r == v.f
    ensures v.Int? ==> r == v.i as real
    ensures v.Str? ==> r == scan(v.s)
    ensures (v.Int64? || v.Bool? || v.Nil? || v.OtherKind?) ==> r == 0.0
  {
    match v
    case F64(f) => f
    case F32(f) => f
    case Int(i) => i as real
    case Str(s) => scan(s)
    case _ => 0.0
  }

  /** The market a code's suffix selects, if any. */
  function MarketOf(code: string): (m: Option<Market>)
    ensures m == Some(AShares) <==> HasSuffix(code, ".SH") || HasSuffix(code, ".SZ")
    ensures m == Some(HongKong) <==> !HasSuffix(code, ".SH") && !HasSuffix(code, ".SZ") && HasSuffix(code, ".HK")
  {
    if HasSuffix(code, ".SH") || HasSuffix(code, ".SZ") then Some(AShares)
    else if HasSuffix(code, ".HK") then Some(HongKong)
    else None
  }

  function UnsupportedCode(code: string): string
  {
    "不支持的股票代码格式: " + code
  }

  const NotFound: string := "未找到任何请求的股票"

  /** A listed stock stands for a requested code when its code, formatted
      with %v and without leading zeros, equals the requested code's part
      before the first dot without leading zeros. */
  predicate Matches(row: Row, code: string, show: Dyn -> string)
  {
    TrimLeftChar(show(Cell(row, "代码")), '0') == TrimLeftChar(Before(code, '.'), '0')
  }

  /** The position of the first listed stock that matches. */
  function FirstMatch(list: seq<Row>, code: string, show: Dyn -> string): (k: Option<nat>)
    ensures k.Some? ==> k.value < |list| && Matches(list[k.value], code, show)
    ensures k.Some? ==> forall j :: 0 <= j < k.value ==> !Matches(list[j], code, show)
    ensures k.None? ==> forall j :: 0 <= j < |list| ==> !Matches(list[j], code, show)
    decreases |list|
  {
    if |list| == 0 then None
    else if Matches(list[0], code, show) then Some(0)
    else
      var k := FirstMatch(list[1..], code, show);
      if k.None? then None else Some(k.value + 1)
  }

  /** The quote for a requested code: the symbol is the code as requested,
      the name and six numbers come from the listed stock. */
  function RowQuote(code: string, row: Row, env: Env): (q: StockQuote)
    ensures q.symbol == code && q.timestamp == env.now
    ensures q.name == env.show(Cell(row, "名称"))
    ensures q.price == ParseFloat(Cell(row, "最新价"), env.scan)
    ensures q.changePercent == ParseFloat(Cell(row, "涨跌幅"), env.scan)
  {
    BlankQuote(code, env.now).(
      name := env.show(Cell(row, "名称")),
      price := ParseFloat(Cell(row, "最新价"), env.scan),
      open := ParseFloat(Cell(row, "开盘价"), env.scan),
      high := ParseFloat(Cell(row, "最高价"), env.scan),
      low := ParseFloat(Cell(row, "最低价"), env.scan),
      volume := ParseFloat(Cell(row, "成交量"), env.scan),
      changePercent := ParseFloat(Cell(row, "涨跌幅"), env.scan))
  }

  function Cached(st: Scan, m: Market): Option<seq<Row>>
  {
    if m == AShares then st.aList else st.hkList
  }

  function Store(st: Scan, m: Market, list: seq<Row>): Scan
  {
    if m == AShares then st.(aList := Some(list)) else st.(hkList := Some(list))
  }

  /** Looks a code up in its market's list, appending its quote when found. */
  function Matched(st: Scan, code: string, list: seq<Row>, env: Env): Scan
  {
    var k := FirstMatch(list, code, env.show);
    if k.None? then st else st.(quotes := st.quotes + [RowQuote(code, list[k.value], env)])
  }

  /** One iteration of the loop over the requested codes. */
  function Visit(st: Scan, code: string, env: Env): Scan
  {
    if st.aborted.Some? then st
    else match MarketOf(code)
      case None => st.(aborted := Some(UnsupportedCode(code)))
      case Some(m) =>
        if Cached(st, m).Some? then Matched(st, code, Cached(st, m).value, env)
        else
          var got := env.fetch(m, |st.fetches|);
          if got.Err? || got.value.None? then st.(fetches := st.fetches + [Fetch(m, false)])
          else Matched(Store(st.(fetches := st.fetches + [Fetch(m, true)]), m, got.value.value), code, got.value.value, env)
  }

  /** The loop's state after the given codes. */
  function Run(codes: seq<string>, env: Env): Scan
    decreases |codes|
  {
    if |codes| == 0 then Scan(None, None, [], [], None)
    else Visit(Run(codes[..|codes| - 1], env), codes[|codes| - 1], env)
  }

  /** What FetchRealtime returns. */
  function Realtime(codes: seq<string>, env: Env): (r: Result<seq<StockQuote>>)
    ensures r.Ok? ==> |r.value| >= 1
  {
    var st := Run(codes, env);
    if st.aborted.Some? then Err(st.aborted.value)
    else if |st.quotes| == 0 then Err(NotFound)
    else Ok(st.quotes)
  }

  /** The symbols of a quote list, in order. */
  function Symbols(quotes: seq<StockQuote>): (r: seq<string>)
    ensures |r| == |quotes|
    ensures forall i :: 0 <= i < |quotes| ==> r[i] == quotes[i].symbol
    decreases |quotes|
  {
    if |quotes| == 0 then [] else Symbols(quotes[..|quotes| - 1]) + [quotes[|quotes| - 1].symbol]
  }

  /** xs is ys with some elements left out, order kept. */
  predicate SubseqOf(xs: seq<string>, ys: seq<string>)
    decreases |ys|
  {
    if |xs| == 0 then true
    else if |ys| == 0 then false
    else if xs[|xs| - 1] == ys[|ys| - 1] then SubseqOf(xs[..|xs| - 1], ys[..|ys| - 1])
    else SubseqOf(xs, ys[..|ys| - 1])
  }

  lemma {:induction false} SubseqShorter(xs: seq<string>, ys: seq<string>)
    requires SubseqOf(xs, ys)
    ensures |xs| <= |ys|
    decreases |ys|
  {
    if |xs| > 0 {
      if xs[|xs| - 1] == ys[|ys| - 1] {
        SubseqShorter(xs[..|xs| - 1], ys[..|ys| - 1]);
      } else {
        SubseqShorter(xs, ys[..|ys| - 1]);
      }
    }
  }

  lemma {:induction false} SubseqDropLast(xs: seq<string>, ys: seq<string>)
    requires |xs| > 0 && SubseqOf(xs, ys)
    ensures SubseqOf(xs[..|xs| - 1], ys)
    decreases |ys|, 0
  {
    var init := xs[..|xs| - 1];
    if |init| > 0 {
      assert ys[|ys| - 1] == init[|init| - 1] ==> SubseqOf(init, ys) == SubseqOf(init[..|init| - 1], ys[..|ys| - 1]);
      if xs[|xs| - 1] == ys[|ys| - 1] {
        SubseqExtend(init, ys[..|ys| - 1], ys[|ys| - 1]);
        assert ys[..|ys| - 1] + [ys[|ys| - 1]] == ys;
      } else {
        SubseqDropLast(xs, ys[..|ys| - 1]);
        SubseqExtend(init, ys[..|ys| - 1], ys[|ys| - 1]);
        assert ys[..|ys| - 1] + [ys[|ys| - 1]] == ys;
      }
    }
  }

  /** A subsequence stays one when the longer sequence grows. */
  lemma {:induction false} SubseqExtend(xs: seq<string>, ys: seq<string>, c: string)
    requires SubseqOf(xs, ys)
    ensures SubseqOf(xs, ys + [c])
    decreases |ys|, 1
  {
    var zs := ys + [c];
    assert zs[..|zs| - 1] == ys;
    if |xs| > 0 && xs[|xs| - 1] == c {
      SubseqDropLast(xs, ys);
    }
  }

  /** What every state the loop reaches keeps: a market with a stored fetch
      is cached and never fetched again, and the quotes are for supported
      requested codes, in request order. */
  ghost predicate Sound(st: Scan, codes: seq<string>)
  {
    && (forall i :: 0 <= i < |st.fetches| && st.fetches[i].loaded ==> Cached(st, st.fetches[i].market).Some?)
    && (forall i, j :: 0 <= i < j < |st.fetches| && st.fetches[i].loaded ==> st.fetches[j].market != st.fetches[i].market)
    && (forall q :: q in st.quotes ==> MarketOf(q.symbol).Some?)
    && SubseqOf(Symbols(st.quotes), codes)
  }

  lemma {:induction false} QuotesStep(quotes: seq<StockQuote>, codes: seq<string>, code: string, q: StockQuote)
    requires SubseqOf(Symbols(quotes), codes) && q.symbol == code
    ensures SubseqOf(Symbols(quotes + [q]), codes + [code])
    ensures SubseqOf(Symbols(quotes), codes + [code])
  {
    var xs := Symbols(quotes + [q]);
    var ys := codes + [code];
    assert xs[..|xs| - 1] == Symbols(quotes);
    assert ys[..|ys| - 1] == codes;
    SubseqExtend(Symbols(quotes), codes, code);
  }

  /** A state with more requested codes behind it is still sound. */
  lemma SoundExtend(st: Scan, codes: seq<string>, code: string)
    requires Sound(st, codes)
    ensures Sound(st, codes + [code])
  {
    SubseqExtend(Symbols(st.quotes), codes, code);
  }

  lemma {:induction false} MatchedSound(st: Scan, codes: seq<string>, code: string, list: seq<Row>, env: Env)
    requires Sound(st, codes) && MarketOf(code).Some?
    ensures Sound(Matched(st, code, list, env), codes + [code])
  {
    var k := FirstMatch(list, code, env.show);
    if k.None? {
      assert Matched(st, code, list, env) == st;
      SoundExtend(st, codes, code);
    } else {
      var q := RowQuote(code, list[k.value], env);
      assert Matched(st, code, list, env) == st.(quotes := st.quotes + [q]);
      QuoteAddedSound(st, codes, code, q);
    }
  }

  /** Appending the quote for a supported requested code keeps the state sound. */
  lemma QuoteAddedSound(st: Scan, codes: seq<string>, code: string, q: StockQuote)
    requires Sound(st, codes) && MarketOf(code).Some? && q.symbol == code
    ensures Sound(st.(quotes := st.quotes + [q]), codes + [code])
  {
    QuotesStep(st.quotes, codes, code, q);
  }

  lemma StoreSound(st: Scan, codes: seq<string>, m: Market, list: seq<Row>)
    requires Sound(st, codes) && Cached(st, m).None?
    ensures Sound(Store(st.(fetches := st.fetches + [Fetch(m, true)]), m, list), codes)
  {
  }

  lemma FailedFetchSound(st: Scan, codes: seq<string>, code: string, m: Market)
    requires Sound(st, codes) && Cached(st, m).None?
    ensures Sound(st.(fetches := st.fetches + [Fetch(m, false)]), codes + [code])
  {
    SoundExtend(st, codes, code);
  }

  lemma {:induction false} VisitSound(st: Scan, codes: seq<string>, code: string, env: Env)
    requires Sound(st, codes)
    ensures Sound(Visit(st, code, env), codes + [code])
  {
    if st.aborted.Some? || MarketOf(code).None? {
      SoundExtend(st, codes, code);
      SoundExtend(st.(aborted := Some(UnsupportedCode(code))), codes, code);
    } else {
      var m := MarketOf(code).value;
      if Cached(st, m).Some? {
        MatchedSound(st, codes, code, Cached(st, m).value, env);
      } else {
        var got := env.fetch(m, |st.fetches|);
        if got.Err? || got.value.None? {
          FailedFetchSound(st, codes, code, m);
        } else {
          var list := got.value.value;
          var mid := Store(st.(fetches := st.fetches + [Fetch(m, true)]), m, list);
          StoreSound(st, codes, m, list);
          MatchedSound(mid, codes, code, list, env);
        }
      }
    }
  }

  lemma {:induction false} RunSound(codes: seq<string>, env: Env)
    ensures Sound(Run(codes, env), codes)
    decreases |codes|
  {
    if |codes| > 0 {
      var init := codes[..|codes| - 1];
      RunSound(init, env);
      VisitSound(Run(init, env), init, codes[|codes| - 1], env);
      assert init + [codes[|codes| - 1]] == codes;
    }
  }

  /** Each market's list is loaded at most once per call, and a market
      whose list was loaded is never fetched again. */
  lemma LoadedOnce(codes: seq<string>, env: Env, i: nat, j: nat)
    requires i < j < |Run(codes, env).fetches| && Run(codes, env).fetches[i].loaded
    ensures Run(codes, env).fetches[j].market != Run(codes, env).fetches[i].market
  {
    RunSound(codes, env);
  }

  /** Unmatched codes are skipped: a successful result has at most one quote
      per requested code, every quote carries a supported requested code as
      its symbol, and the quotes follow the request order. */
  lemma RealtimeQuotes(codes: seq<string>, env: Env)
    requires Realtime(codes, env).Ok?
    ensures |Realtime(codes, env).value| <= |codes|
    ensures SubseqOf(Symbols(Realtime(codes, env).value), codes)
    ensures forall q :: q in Realtime(codes, env).value ==> q.symbol in codes && MarketOf(q.symbol).Some?
  {
    RunSound(codes, env);
    var quotes := Realtime(codes, env).value;
    SubseqShorter(Symbols(quotes), codes);
    forall q | q in quotes
      ensures q.symbol in codes
    {
      var k :| 0 <= k < |quotes| && quotes[k] == q;
      SubseqMember(Symbols(quotes), codes, k);
    }
  }

  lemma {:induction false} SubseqMember(xs: seq<string>, ys: seq<string>, k: nat)
    requires SubseqOf(xs, ys) && k < |xs|
    ensures xs[k] in ys
    decreases |ys|
  {
    if xs[|xs| - 1] == ys[|ys| - 1] {
      if k == |xs| - 1 {
        assert ys[|ys| - 1] in ys;
      } else {
        SubseqMember(xs[..|xs| - 1], ys[..|ys| - 1], k);
        assert xs[..|xs| - 1][k] == xs[k];
      }
    } else {
      SubseqMember(xs, ys[..|ys| - 1], k);
    }
  }

  /** Once the loop has stopped on an unsupported code, the later codes
      change nothing. */
  lemma {:induction false} AbortStays(codes: seq<string>, n: nat, env: Env)
    requires n <= |codes| && Run(codes[..n], env).aborted.Some?
    ensures Run(codes, env) == Run(codes[..n], env)
    decreases |codes|
  {
    if n < |codes| {
      var init := codes[..|codes| - 1];
      assert init[..n] == codes[..n];
      AbortStays(init, n, env);
    } else {
      assert codes[..n] == codes;
    }
  }

  /** When all codes before it are supported, the first unsupported code
      ends the call with its error, whatever was collected before. */
  lemma {:induction false} AbortsAtFirstUnsupported(codes: seq<string>, k: nat, env: Env)
    requires k < |codes| && MarketOf(codes[k]).None?
    requires forall j :: 0 <= j < k ==> MarketOf(codes[j]).Some?
    ensures Realtime(codes, env) == Err(UnsupportedCode(codes[k]))
  {
    SupportedRun(codes[..k], env);
    assert codes[..k + 1][..k] == codes[..k];
    AbortStays(codes, k + 1, env);
  }

  /** Supported codes alone never stop the loop. */
  lemma {:induction false} SupportedRun(codes: seq<string>, env: Env)
    requires forall j :: 0 <= j < |codes| ==> MarketOf(codes[j]).Some?
    ensures Run(codes, env).aborted.None?
    decreases |codes|
  {
    if |codes| > 0 {
      SupportedRun(codes[..|codes| - 1], env);
    }
  }

  /** With only supported codes the call fails exactly when nothing was
      found. */
  lemma SupportedOutcome(codes: seq<string>, env: Env)
    requires forall j :: 0 <= j < |codes| ==> MarketOf(codes[j]).Some?
    ensures Realtime(codes, env).Err? <==> |Run(codes, env).quotes| == 0
    ensures Realtime(codes, env).Err? ==> Realtime(codes, env).error == NotFound
  {
    SupportedRun(codes, env);
  }

  /** The first match is pinned down by the stocks before it: none of
      them matches, and the one at i (if there is one) does. */
  lemma FirstMatchAt(list: seq<Row>, code: string, show: Dyn -> string, i: nat)
    requires i <= |list|
    requires forall j :: 0 <= j < i ==> !Matches(list[j], code, show)
    ensures i < |list| && Matches(list[i], code, show) ==> FirstMatch(list, code, show) == Some(i)
    ensures i == |list| ==> FirstMatch(list, code, show) == None
  {
    var k := FirstMatch(list, code, show);
    if k.Some? && i < |list| && Matches(list[i], code, show) {
      assert !(k.value < i) && !(i < k.value);
    }
  }

  /** The inner search: the first listed stock that matches. */
  method FindRow(list: seq<Row>, code: string, show: Dyn -> string) returns (k: Option<nat>)
    ensures k == FirstMatch(list, code, show)
  {
    for i := 0 to |list|
      invariant forall j :: 0 <= j < i ==> !Matches(list[j], code, show)
    {
      if Matches(list[i], code, show) {
        FirstMatchAt(list, code, show, i);
        return Some(i);
      }
    }
    FirstMatchAt(list, code, show, |list|);
    return None;
  }

  /** FetchRealtime, with the fetches it made. */
  method FetchRealtime(codes: seq<string>, env: Env) returns (result: Result<seq<StockQuote>>, fetches: seq<Fetch>)
    ensures result == Realtime(codes, env)
    ensures fetches == Run(codes, env).fetches
  {
    var quotes: seq<StockQuote> := [];
    var aList: Option<seq<Row>> := None;
    var hkList: Option<seq<Row>> := None;
    fetches := [];
    for i := 0 to |codes|
      invariant Run(codes[..i], env) == Scan(aList, hkList, fetches, quotes, None)
    {
      assert codes[..i + 1][..i] == codes[..i];
      var code := codes[i];
      var market := MarketOf(code);
      if market.None? {
        AbortStays(codes, i + 1, env);
        return Err(UnsupportedCode(code)), fetches;
      }
      var m := market.value;
      var list := if m == AShares then aList else hkList;
      if list.None? {
        var got := env.fetch(m, |fetches|);
        if got.Err? || got.value.None? {
          fetches := fetches + [Fetch(m, false)];
          continue;
        }
        fetches := fetches + [Fetch(m, true)];
        list := got.value;
        if m == AShares {
          aList := list;
        } else {
          hkList := list;
        }
      }
      var found := FindRow(list.value, code, env.show);
      if found.Some? {
        quotes := quotes + [RowQuote(code, list.value[found.value], env)];
      }
    }
    assert codes[..|codes|] == codes;
    if |quotes| == 0 {
      return Err(NotFound), fetches;
    }
    return Ok(quotes), fetches;
  }
}
