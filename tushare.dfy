/** The Tushare adapter of pkg/collector/tushare.go: argument checks, the
    comma-joined code parameter, and the normalisation of Tushare's field
    table (a list of field names and rows of dynamically typed cells) into
    quotes. The HTTP client calls and strconv.ParseFloat come in from
    outside as functions. */
module Tushare {
  import opened Model
  import opened Strings

  /** The `data` part of a Tushare response. */
  datatype Table = Table(fields: seq<string>, items: seq<seq<Dyn>>)

  /** toFloat64: the numeric kinds convert, a string is parsed, every other
      kind is an error. */
  function ToFloat64(v: Dyn, parseFloat: string -> Result<real>): (r: Result<real>)
    ensures (v.F64? || v.F32?) ==> r == Ok(v.f)
    ensures (v.Int? || v.Int64?) ==> r == Ok(v.i as real)
    ensures (v.Bool? || v.Nil? || v.OtherKind?) ==> r.Err?
  {
    match v
    case F64(f) => Ok(f)
    case F32(f) => Ok(f)
    case Int(i) => Ok(i as real)
    case Int64(i) => Ok(i as real)
    case Str(s) => parseFloat(s)
    case _ => Err("无法转换为float64")
  }

  /** The field-index map: each field name to its LAST position. */
  function FieldIndices(fields: seq<string>): (m: map<string, nat>)
    ensures m.Keys == set f | f in fields
    ensures forall f :: f in m ==> m[f] < |fields| && fields[m[f]] == f
    decreases |fields|
  {
    if |fields| == 0 then map[]
    else FieldIndices(fields[..|fields| - 1])[fields[|fields| - 1] := |fields| - 1]
  }

  /** For a repeated field name the last position wins. */
  lemma {:induction false} FieldIndicesLast(fields: seq<string>, f: string)
    requires f in fields
    ensures forall k :: FieldIndices(fields)[f] < k < |fields| ==> fields[k] != f
    decreases |fields|
  {
    var n := |fields|;
    var init := fields[..n - 1];
    assert FieldIndices(fields) == FieldIndices(init)[fields[n - 1] := n - 1];
    if fields[n - 1] != f {
      assert f in init by {
        var j :| 0 <= j < n && fields[j] == f;
        assert j < n - 1 && init[j] == f;
      }
      FieldIndicesLast(init, f);
      var idx := FieldIndices(init)[f];
      assert FieldIndices(fields)[f] == idx;
      forall k | idx < k < n
        ensures fields[k] != f
      {
        if k < n - 1 {
          assert fields[k] == init[k];
        }
      }
    }
  }

  predicate HasRequiredFields(index: map<string, nat>)
  {
    "ts_code" in index && "close" in index
  }

  /** The optional numeric fields a quote takes over. */
  const OptionalFields: seq<string> := ["open", "high", "low", "vol", "pct_chg", "name"]

  /** A row is readable when every position the conversion reads is inside
      it and the code cell is a string (otherwise Go panics). */
  predicate Readable(index: map<string, nat>, item: seq<Dyn>)
    requires HasRequiredFields(index)
  {
    && index["ts_code"] < |item| && item[index["ts_code"]].Str?
    && index["close"] < |item|
    && forall f :: f in OptionalFields && f in index ==> index[f] < |item|
  }

  /** An optional numeric cell: its value when present and convertible,
      else zero. */
  function NumberField(index: map<string, nat>, item: seq<Dyn>, f: string, parseFloat: string -> Result<real>): real
  {
    if f in index && index[f] < |item| && ToFloat64(item[index[f]], parseFloat).Ok?
    then ToFloat64(item[index[f]], parseFloat).value else 0.0
  }

  /** The quote one row becomes. */
  function RowQuote(index: map<string, nat>, item: seq<Dyn>, parseFloat: string -> Result<real>, now: int): StockQuote
    requires HasRequiredFields(index) && Readable(index, item)
  {
    var name := if "name" in index && item[index["name"]].Str? then item[index["name"]].s else "";
    BlankQuote(item[index["ts_code"]].s, now).(
      price := NumberField(index, item, "close", parseFloat),
      open := NumberField(index, item, "open", parseFloat),
      high := NumberField(index, item, "high", parseFloat),
      low := NumberField(index, item, "low", parseFloat),
      volume := NumberField(index, item, "vol", parseFloat),
      changePercent := NumberField(index, item, "pct_chg", parseFloat),
      name := name)
  }

  /** A row's quote takes its code and close price from the row, leaves the
      close, amount and change fields at zero, and keeps an absent optional
      field at zero (or the empty name). */
  lemma RowQuoteFields(index: map<string, nat>, item: seq<Dyn>, parseFloat: string -> Result<real>, now: int)
    requires HasRequiredFields(index) && Readable(index, item)
    ensures var q := RowQuote(index, item, parseFloat, now);
      && q.symbol == item[index["ts_code"]].s && q.timestamp == now
      && (ToFloat64(item[index["close"]], parseFloat).Ok? ==> q.price == ToFloat64(item[index["close"]], parseFloat).value)
      && (ToFloat64(item[index["close"]], parseFloat).Err? ==> q.price == 0.0)
      && ("open" !in index ==> q.open == 0.0) && ("high" !in index ==> q.high == 0.0)
      && ("low" !in index ==> q.low == 0.0) && ("vol" !in index ==> q.volume == 0.0)
      && ("pct_chg" !in index ==> q.changePercent == 0.0) && ("name" !in index ==> q.name == "")
      && q.close == 0.0 && q.amount == 0.0 && q.change == 0.0
  {
  }

  /** Go panics while converting a row unless it is readable. */
  predicate RowsReadable(table: Table)
  {
    var index := FieldIndices(table.fields);
    HasRequiredFields(index) ==> forall i :: 0 <= i < |table.items| ==> Readable(index, table.items[i])
  }

  const MissingField: string := "响应中缺少必要字段: "

  /** normalizeQuotes: an error naming the first missing required field, or
      one quote per row, in row order. */
  function Normalized(table: Table, parseFloat: string -> Result<real>, now: int): (r: Result<seq<StockQuote>>)
    requires RowsReadable(table)
    ensures r.Ok? ==> |r.value| == |table.items|
    ensures r.Err? <==> !("ts_code" in table.fields && "close" in table.fields)
  {
    var index := FieldIndices(table.fields);
    if "ts_code" !in index then Err(MissingField + "ts_code")
    else if "close" !in index then Err(MissingField + "close")
    else Ok(RowQuotes(index, table.items, parseFloat, now))
  }

  /** One quote per row, in row order. */
  function RowQuotes(index: map<string, nat>, items: seq<seq<Dyn>>, parseFloat: string -> Result<real>, now: int)
    : (quotes: seq<StockQuote>)
    requires HasRequiredFields(index) && forall i :: 0 <= i < |items| ==> Readable(index, items[i])
    ensures |quotes| == |items|
    ensures forall i :: 0 <= i < |items| ==> quotes[i] == RowQuote(index, items[i], parseFloat, now)
    decreases |items|
  {
    if |items| == 0 then []
    else RowQuotes(index, items[..|items| - 1], parseFloat, now) + [RowQuote(index, items[|items| - 1], parseFloat, now)]
  }

  /** The field-index loop of normalizeQuotes. */
  method BuildFieldIndices(fields: seq<string>) returns (index: map<string, nat>)
    ensures index == FieldIndices(fields)
  {
    index := map[];
    for i := 0 to |fields|
      invariant index == FieldIndices(fields[..i])
    {
      assert fields[..i + 1][..i] == fields[..i];
      index := index[fields[i] := i];
    }
    assert fields[..|fields|] == fields;
  }

  /** normalizeQuotes. */
  method NormalizeQuotes(table: Table, parseFloat: string -> Result<real>, now: int) returns (result: Result<seq<StockQuote>>)
    requires RowsReadable(table)
    ensures result == Normalized(table, parseFloat, now)
  {
    var index := BuildFieldIndices(table.fields);
    var requiredFields := ["ts_code", "close"];
    for k := 0 to |requiredFields|
      invariant forall j :: 0 <= j < k ==> requiredFields[j] in index
    {
      if requiredFields[k] !in index {
        assert k == 1 ==> requiredFields[0] in index;
        return Err(MissingField + requiredFields[k]);
      }
    }
    assert requiredFields[0] in index && requiredFields[1] in index;
    var quotes := ConvertRows(index, table.items, parseFloat, now);
    return Ok(quotes);
  }

  /** The row loop of normalizeQuotes. */
  method ConvertRows(index: map<string, nat>, items: seq<seq<Dyn>>, parseFloat: string -> Result<real>, now: int)
    returns (quotes: seq<StockQuote>)
    requires HasRequiredFields(index) && forall i :: 0 <= i < |items| ==> Readable(index, items[i])
    ensures quotes == RowQuotes(index, items, parseFloat, now)
  {
    quotes := [];
    for i := 0 to |items|
      invariant quotes == RowQuotes(index, items[..i], parseFloat, now)
    {
      assert items[..i + 1][..i] == items[..i];
      var quote := ConvertRow(index, items[i], parseFloat, now);
      quotes := quotes + [quote];
    }
    assert items[..|items|] == items;
  }

  /** Every optional field a readable row holds lies inside it. */
  lemma OptionalPositions(index: map<string, nat>, item: seq<Dyn>)
    requires HasRequiredFields(index) && Readable(index, item)
    ensures "open" in index ==> index["open"] < |item|
    ensures "high" in index ==> index["high"] < |item|
    ensures "low" in index ==> index["low"] < |item|
    ensures "vol" in index ==> index["vol"] < |item|
    ensures "pct_chg" in index ==> index["pct_chg"] < |item|
    ensures "name" in index ==> index["name"] < |item|
  {
    assert OptionalFields[0] == "open" && OptionalFields[1] == "high" && OptionalFields[2] == "low";
    assert OptionalFields[3] == "vol" && OptionalFields[4] == "pct_chg" && OptionalFields[5] == "name";
  }

  /** One optional numeric cell: its converted value when the field is
      present and converts, else the value the quote already holds. */
  method ReadNumber(index: map<string, nat>, item: seq<Dyn>, f: string, parseFloat: string -> Result<real>, current: real)
    returns (v: real)
    requires f in index ==> index[f] < |item|
    ensures current == 0.0 ==> v == NumberField(index, item, f, parseFloat)
  {
    v := current;
    if f in index {
      var converted := ToFloat64(item[index[f]], parseFloat);
      if converted.Ok? {
        v := converted.value;
      }
    }
  }

  /** The body of normalizeQuotes' row loop. */
  method ConvertRow(index: map<string, nat>, item: seq<Dyn>, parseFloat: string -> Result<real>, now: int)
    returns (quote: StockQuote)
    requires HasRequiredFields(index) && Readable(index, item)
    ensures quote == RowQuote(index, item, parseFloat, now)
  {
    OptionalPositions(index, item);
    quote := BlankQuote(item[index["ts_code"]].s, now);
    var price := ReadNumber(index, item, "close", parseFloat, quote.price);
    quote := quote.(price := price);
    var open := ReadNumber(index, item, "open", parseFloat, quote.open);
    quote := quote.(open := open);
    var high := ReadNumber(index, item, "high", parseFloat, quote.high);
    quote := quote.(high := high);
    var low := ReadNumber(index, item, "low", parseFloat, quote.low);
    quote := quote.(low := low);
    var vol := ReadNumber(index, item, "vol", parseFloat, quote.volume);
    quote := quote.(volume := vol);
    var pctChg := ReadNumber(index, item, "pct_chg", parseFloat, quote.changePercent);
    quote := quote.(changePercent := pctChg);
    if "name" in index && item[index["name"]].Str? {
      quote := quote.(name := item[index["name"]].s);
    }
  }

  /** joinCodes: one code unchanged, otherwise the codes with commas between
      them. */
  method JoinCodes(codes: seq<string>) returns (joined: string)
    ensures joined == Join(codes, ',')
  {
    if |codes| == 1 {
      return codes[0];
    }
    joined := "";
    for i := 0 to |codes|
      invariant joined == Join(codes[..i], ',')
    {
      if i > 0 {
        JoinSnoc(codes[..i], codes[i], ',');
        joined := joined + ",";
      }
      assert codes[..i + 1] == codes[..i] + [codes[i]];
      joined := joined + codes[i];
    }
    assert codes[..|codes|] == codes;
  }

  /** The joined parameter splits back into the codes when no code holds a
      comma. */
  lemma JoinedCodesSplit(codes: seq<string>)
    requires |codes| >= 1 && forall k :: 0 <= k < |codes| ==> ',' !in codes[k]
    ensures Split(Join(codes, ','), ',') == codes
  {
    SplitJoin(codes, ',');
  }

  /** The two client calls: realtime quotes by joined codes, daily quotes by
      joined codes and trade date. */
  datatype Client = Client(
    realtime: string -> Result<Table>,
    daily: (string, string) -> Result<Table>)

  predicate CallReadable(response: Result<Table>)
  {
    response.Ok? ==> RowsReadable(response.value)
  }

  /** FetchRealtime: an empty code list fails before any call; a failed call
      fails; otherwise the response is normalised. */
  method FetchRealtime(client: Client, codes: seq<string>, parseFloat: string -> Result<real>, now: int)
    returns (result: Result<seq<StockQuote>>)
    requires |codes| > 0 ==> CallReadable(client.realtime(Join(codes, ',')))
    ensures |codes| == 0 ==> result == Err("股票代码列表不能为空")
    ensures |codes| > 0 ==>
      var response := client.realtime(Join(codes, ','));
      && (response.Err? ==> result == Err("获取实时行情失败: " + response.error))
      && (response.Ok? ==> result == Normalized(response.value, parseFloat, now))
  {
    if |codes| == 0 {
      return Err("股票代码列表不能为空");
    }
    var param := JoinCodes(codes);
    var response := client.realtime(param);
    if response.Err? {
      return Err("获取实时行情失败: " + response.error);
    }
    result := NormalizeQuotes(response.value, parseFloat, now);
  }

  /** FetchDaily: as FetchRealtime, with the trade date passed along. */
  method FetchDaily(client: Client, codes: seq<string>, date: string, parseFloat: string -> Result<real>, now: int)
    returns (result: Result<seq<StockQuote>>)
    requires |codes| > 0 ==> CallReadable(client.daily(Join(codes, ','), date))
    ensures |codes| == 0 ==> result == Err("股票代码列表不能为空")
    ensures |codes| > 0 ==>
      var response := client.daily(Join(codes, ','), date);
      && (response.Err? ==> result == Err("获取日线行情失败: " + response.error))
      && (response.Ok? ==> result == Normalized(response.value, parseFloat, now))
  {
    if |codes| == 0 {
      return Err("股票代码列表不能为空");
    }
    var param := JoinCodes(codes);
    var response := client.daily(param, date);
    if response.Err? {
      return Err("获取日线行情失败: " + response.error);
    }
    result := NormalizeQuotes(response.value, parseFloat, now);
  }
}
