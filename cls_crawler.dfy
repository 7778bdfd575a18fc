/** The CLS news crawler of crawler/clsCrawler.py, without its browser and
    network: the id-keyed history it loads and merges, the filter of the
    crawl loop, the three text heuristics that pull a title, an author and
    the body out of a page's text, and the two selector heuristics. A news
    record is a JSON object with string values; the page fetch, md5 and the
    file reads come in from outside. */
module ClsCrawler {
  import opened Model
  import opened Strings

  type Record = map<string, string>

  /** dict.get(key, ''). */
  function Field(r: Record, key: string): string
  {
    if key in r then r[key] else ""
  }

  // ---------------------------------------------------------------------
  // History

  /** {ele['id']: ele for ele in data if 'id' in ele}: later records win. */
  function Keyed(records: seq<Record>): (h: map<string, Record>)
    ensures forall k :: k in h ==> "id" in h[k] && h[k]["id"] == k && h[k] in records
    ensures forall r :: r in records && "id" in r ==> r["id"] in h
    decreases |records|
  {
    if |records| == 0 then map[]
    else
      var init := Keyed(records[..|records| - 1]);
      var last := records[|records| - 1];
      if "id" in last then init[last["id"] := last] else init
  }

  /** A history is keyed by its records' ids. */
  ghost predicate KeyedBy(h: map<string, Record>)
  {
    forall k :: k in h ==> "id" in h[k] && h[k]["id"] == k
  }

  /** init(): no file gives an empty history, and so does a file that cannot
      be read; otherwise the file's records with an id, keyed by it. */
  function InitialHistory(fileExists: bool, data: Result<seq<Record>>): (h: map<string, Record>)
    ensures KeyedBy(h)
    ensures !fileExists || data.Err? ==> h == map[]
  {
    if !fileExists then map[]
    else match data
      case Err(_) => map[]
      case Ok(records) => Keyed(records)
  }

  /** The record a key ends up with is the last one that carries it. */
  lemma {:induction false} KeyedLastWins(records: seq<Record>, i: nat)
    requires i < |records| && "id" in records[i]
    requires forall j :: i < j < |records| && "id" in records[j] ==> records[j]["id"] != records[i]["id"]
    ensures Keyed(records)[records[i]["id"]] == records[i]
    decreases |records|
  {
    if i < |records| - 1 {
      var init := records[..|records| - 1];
      assert init[i] == records[i];
      KeyedLastWins(init, i);
    }
  }

  /** history.update({ele['id']: ele for ele in datas}) for records that all
      carry an id. */
  function Merged(h: map<string, Record>, records: seq<Record>): (m: map<string, Record>)
    requires forall r :: r in records ==> "id" in r
    ensures h.Keys <= m.Keys
    ensures forall i :: 0 <= i < |records| ==> records[i]["id"] in m
    decreases |records|
  {
    if |records| == 0 then h
    else
      var last := records[|records| - 1];
      var init := Merged(h, records[..|records| - 1]);
      assert forall i :: 0 <= i < |records| - 1 ==> records[i] == records[..|records| - 1][i];
      init[last["id"] := last]
  }

  /** A merge adds exactly the records' ids. */
  lemma {:induction false} MergedKeys(h: map<string, Record>, records: seq<Record>)
    requires forall r :: r in records ==> "id" in r
    ensures Merged(h, records).Keys == h.Keys + set r | r in records :: r["id"]
    decreases |records|
  {
    if |records| > 0 {
      var init := records[..|records| - 1];
      var last := records[|records| - 1];
      MergedKeys(h, init);
      assert forall r :: r in records <==> r in init || r == last;
      assert (set r | r in records :: r["id"]) == (set r | r in init :: r["id"]) + {last["id"]};
    }
  }

  /** A key that no record carries keeps its old record. */
  lemma {:induction false} MergedKeepsOthers(h: map<string, Record>, records: seq<Record>, k: string)
    requires forall r :: r in records ==> "id" in r
    requires k in h && forall r :: r in records ==> r["id"] != k
    ensures Merged(h, records)[k] == h[k]
    decreases |records|
  {
    if |records| > 0 {
      var init := records[..|records| - 1];
      assert forall r :: r in init ==> r in records;
      MergedKeepsOthers(h, init, k);
      assert records[|records| - 1] in records;
    }
  }

  /** The record a saved id ends up with is the last saved one that carries it. */
  lemma {:induction false} MergedLastWins(h: map<string, Record>, records: seq<Record>, i: nat)
    requires forall r :: r in records ==> "id" in r
    requires i < |records|
    requires forall j :: i < j < |records| ==> records[j]["id"] != records[i]["id"]
    ensures Merged(h, records)[records[i]["id"]] == records[i]
    decreases |records|
  {
    if i < |records| - 1 {
      var init := records[..|records| - 1];
      assert init[i] == records[i];
      assert forall r :: r in init ==> r in records;
      assert records[|records| - 1]["id"] != records[i]["id"];
      MergedLastWins(h, init, i);
    }
  }

  /** Merging keeps a history keyed by ids. */
  lemma {:induction false} MergedKeyed(h: map<string, Record>, records: seq<Record>)
    requires KeyedBy(h) && forall r :: r in records ==> "id" in r
    ensures KeyedBy(Merged(h, records))
    decreases |records|
  {
    if |records| > 0 {
      MergedKeyed(h, records[..|records| - 1]);
    }
  }

  /** save's argument: one record or a list of them. */
  datatype Batch = One(record: Record) | Many(records: seq<Record>)

  function Records(batch: Batch): (rs: seq<Record>)
    ensures batch.One? ==> rs == [batch.record]
    ensures batch.Many? ==> rs == batch.records
  {
    match batch
    case One(r) => [r]
    case Many(rs) => rs
  }

  // ---------------------------------------------------------------------
  // The crawl loop's filter

  /** A fetched page is kept when its stripped title has at least five
      characters. */
  predicate TitleLongEnough(news: Record)
  {
    |Strip(Field(news, "title"))| >= 5
  }

  datatype CrawlState = CrawlState(history: map<string, Record>, saved: seq<Record>)

  /** The crawl loop over the links, from the history it started with: a
      link whose md5 is known is skipped, a failed fetch or a short title is
      skipped, a page without an id fails in save and is skipped. */
  function CrawlRun(h: map<string, Record>, links: seq<string>, md5: string -> string,
                    fetch: string -> Option<Record>): CrawlState
    decreases |links|
  {
    if |links| == 0 then CrawlState(h, [])
    else
      var st := CrawlRun(h, links[..|links| - 1], md5, fetch);
      var link := links[|links| - 1];
      if md5(link) in st.history then st
      else match fetch(link)
        case None => st
        case Some(news) =>
          if !TitleLongEnough(news) || "id" !in news then st
          else CrawlState(st.history[news["id"] := news], st.saved + [news])
  }

  /** The pages a fetch returns carry their link's md5 as id when they carry
      one. */
  ghost predicate IdsAreMd5(md5: string -> string, fetch: string -> Option<Record>)
  {
    forall link :: fetch(link).Some? && "id" in fetch(link).value ==> fetch(link).value["id"] == md5(link)
  }

  /** The pages saved since history h: each has an id and a long enough
      title, none was known in h, and no two share an id. */
  ghost predicate FreshSaves(h: map<string, Record>, saved: seq<Record>)
  {
    && (forall r :: r in saved ==> "id" in r && TitleLongEnough(r) && r["id"] !in h)
    && (forall i, j :: 0 <= i < j < |saved| ==> saved[i]["id"] != saved[j]["id"])
  }

  /** Saving one more page whose id the history does not know. */
  lemma FreshSaveStep(h: map<string, Record>, saved: seq<Record>, news: Record)
    requires FreshSaves(h, saved)
    requires "id" in news && TitleLongEnough(news) && news["id"] !in Merged(h, saved)
    ensures FreshSaves(h, saved + [news])
    ensures Merged(h, saved)[news["id"] := news] == Merged(h, saved + [news])
  {
    var all := saved + [news];
    assert all[..|saved|] == saved;
    assert forall i :: 0 <= i < |saved| ==> saved[i]["id"] in Merged(h, saved);
  }

  /** What the crawl loop keeps: every saved page has an id and a long
      enough title, none was known before or saved twice, and the history is
      the old one with the saved pages merged in. */
  lemma {:induction false} CrawlSavesFresh(h: map<string, Record>, links: seq<string>, md5: string -> string,
                                           fetch: string -> Option<Record>)
    requires IdsAreMd5(md5, fetch)
    ensures FreshSaves(h, CrawlRun(h, links, md5, fetch).saved)
    ensures CrawlRun(h, links, md5, fetch).history == Merged(h, CrawlRun(h, links, md5, fetch).saved)
    decreases |links|
  {
    if |links| > 0 {
      var prev := CrawlRun(h, links[..|links| - 1], md5, fetch);
      CrawlSavesFresh(h, links[..|links| - 1], md5, fetch);
      var link := links[|links| - 1];
      if md5(link) !in prev.history && fetch(link).Some? {
        var news := fetch(link).value;
        if TitleLongEnough(news) && "id" in news {
          FreshSaveStep(h, prev.saved, news);
        }
      }
    }
  }

  /** A link already known is never fetched again: crawling it changes
      nothing. */
  lemma KnownLinkSkipped(h: map<string, Record>, links: seq<string>, md5: string -> string,
                         fetch: string -> Option<Record>, link: string)
    requires md5(link) in CrawlRun(h, links, md5, fetch).history
    ensures CrawlRun(h, links + [link], md5, fetch) == CrawlRun(h, links, md5, fetch)
  {
    assert (links + [link])[..|links|] == links;
  }

  /** FinanceNewsCrawler's state: the history, the records appended to its
      file, and the records published. */
  class NewsCrawler {
    const filePath: string
    var history: map<string, Record>
    var appended: seq<Record>
    var published: seq<Record>

    ghost predicate Valid()
      reads this
    {
      KeyedBy(history)
    }

    /** The constructor with init(): the file at data/<domain>.json. */
    constructor (domain: string, exists_: string -> bool, getDatas: string -> Result<seq<Record>>)
      ensures filePath == "data/" + domain + ".json"
      ensures history == InitialHistory(exists_(filePath), getDatas(filePath))
      ensures appended == [] && published == []
      ensures Valid()
    {
      filePath := "data/" + domain + ".json";
      var path := "data/" + domain + ".json";
      history := InitialHistory(exists_(path), getDatas(path));
      appended, published := [], [];
    }

    /** save: the batch is merged into the history by id (later wins) and
        appended to the file. */
    method Save(batch: Batch)
      requires forall r :: r in Records(batch) ==> "id" in r
      modifies this`history, this`appended
      ensures history == Merged(old(history), Records(batch))
      ensures appended == old(appended) + Records(batch)
      ensures old(Valid()) ==> Valid()
    {
      var datas := Records(batch);
      var i := 0;
      while i < |datas|
        invariant 0 <= i <= |datas|
        invariant history == Merged(old(history), datas[..i])
        invariant appended == old(appended)
      {
        assert datas[..i + 1][..i] == datas[..i];
        history := history[datas[i]["id"] := datas[i]];
        i := i + 1;
      }
      assert datas[..i] == datas;
      appended := appended + datas;
      if old(Valid()) {
        MergedKeyed(old(history), datas);
      }
    }

    /** crawl's loop over the links: each kept page is saved and published. */
    method Crawl(links: seq<string>, md5: string -> string, fetch: string -> Option<Record>)
      returns (processed: nat)
      modifies this`history, this`appended, this`published
      ensures history == CrawlRun(old(history), links, md5, fetch).history
      ensures appended == old(appended) + CrawlRun(old(history), links, md5, fetch).saved
      ensures published == old(published) + CrawlRun(old(history), links, md5, fetch).saved
      ensures processed == |CrawlRun(old(history), links, md5, fetch).saved|
    {
      processed := 0;
      for k := 0 to |links|
        invariant history == CrawlRun(old(history), links[..k], md5, fetch).history
        invariant appended == old(appended) + CrawlRun(old(history), links[..k], md5, fetch).saved
        invariant published == old(published) + CrawlRun(old(history), links[..k], md5, fetch).saved
        invariant processed == |CrawlRun(old(history), links[..k], md5, fetch).saved|
      {
        assert links[..k + 1][..k] == links[..k];
        var link := links[k];
        if md5(link) in history {
          continue;
        }
        var news := fetch(link);
        if news.None? || !TitleLongEnough(news.value) || "id" !in news.value {
          continue;
        }
        Save(One(news.value));
        published := published + [news.value];
        processed := processed + 1;
      }
      assert links[..|links|] == links;
    }
  }

  // ---------------------------------------------------------------------
  // Page text

  /** The first position of t in s, if any. */
  function Find(s: string, t: string): (k: Option<nat>)
    ensures k.Some? ==> k.value + |t| <= |s| && s[k.value..k.value + |t|] == t
    ensures k.None? ==> !Contains(s, t)
    decreases |s|
  {
    if HasPrefix(s, t) then Some(0)
    else if |s| == 0 then None
    else
      match Find(s[1..], t)
      case None => None
      case Some(j) =>
        assert s[j + 1..j + 1 + |t|] == s[1..][j..j + |t|];
        Some(j + 1)
  }

  /** The position found is the leftmost occurrence. */
  lemma {:induction false} FindLeftmost(s: string, t: string, j: nat)
    requires Find(s, t).Some? && j < Find(s, t).value
    ensures !HasPrefix(s[j..], t)
    decreases |s|
  {
    if j > 0 {
      assert s[j..] == s[1..][j - 1..];
      FindLeftmost(s[1..], t, j - 1);
    }
  }

  /** re.sub(r'<[^>]+>', repl, s): every tag with at least one character
      inside becomes repl. */
  function StripTags(s: string, repl: char): (r: string)
    ensures '<' !in s ==> r == s
    decreases |s|
  {
    if |s| == 0 then ""
    else if s[0] == '<' then
      var close := Find(s[1..], ">");
      if close.Some? && close.value > 0 then [repl] + StripTags(s[close.value + 2..], repl)
      else [s[0]] + StripTags(s[1..], repl)
    else
      assert '<' !in s ==> '<' !in s[1..];
      [s[0]] + StripTags(s[1..], repl)
  }

  predicate StartsWithAny(s: string, prefixes: seq<string>)
  {
    exists p :: p in prefixes && HasPrefix(s, p)
  }

  predicate EndsWithAny(s: string, suffixes: seq<string>)
  {
    exists p :: p in suffixes && HasSuffix(s, p)
  }

  /** How many times c occurs in s. */
  function CountChar(s: string, c: char): nat
    decreases |s|
  {
    if |s| == 0 then 0 else CountChar(s[..|s| - 1], c) + (if s[|s| - 1] == c then 1 else 0)
  }

  /** A CJK unified ideograph (U+4E00 to U+9FFF). */
  predicate IsHan(c: char)
  {
    '一' <= c <= '鿿'
  }

  function DropNonHanLeft(s: string): (r: string)
    ensures |r| == 0 || IsHan(r[0])
    ensures |r| <= |s|
    decreases |s|
  {
    if |s| > 0 && !IsHan(s[0]) then DropNonHanLeft(s[1..]) else s
  }

  function DropNonHanRight(s: string): (r: string)
    ensures |r| == 0 || IsHan(r[|r| - 1])
    ensures |r| <= |s| && (|r| > 0 ==> r[0] == s[0])
    decreases |s|
  {
    if |s| > 0 && !IsHan(s[|s| - 1]) then DropNonHanRight(s[..|s| - 1]) else s
  }

  // extract_title_from_all_text

  const TitleRejectPrefixes: seq<string> := ["关于我们", "网站声明", "联系方式", "用户反馈", "财联社-主流财经新闻集团", "http", "www"]
  const WebSuffixes: seq<string> := [".com", ".cn"]
  const TitleMarks: seq<char> := ['、', '：', '，', '！', '？', '"']
  const DateSeparators: seq<char> := ['-', '年', '月', '日', '时', '分', '秒', ':', '：']

  /** re.match(r'^\d+[-年月日时分秒\s:：]+', line): digits, then a date or
      time separator. */
  predicate DateLike(line: string)
  {
    var k := |DigitPrefix(line)|;
    k >= 1 && k < |line| && (line[k] in DateSeparators || IsSpace(line[k]))
  }

  /** The tests a stripped line passes to be a title. */
  predicate TitleShaped(line: string)
  {
    && 8 <= |line| <= 150
    && !StartsWithAny(line, TitleRejectPrefixes)
    && !EndsWithAny(line, WebSuffixes)
    && !Contains(line, "©") && !Contains(line, "版权")
    && CountChar(line, '|') < 2
    && (exists i :: 0 <= i < |line| && line[i] in TitleMarks)
    && !(|line| > 0 && AllDigits(line))
    && !DateLike(line)
  }

  /** A line without the non-Han characters at either end: what lies
      between its first and last Han character. */
  function HanCore(l: string): (t: string)
    ensures |t| <= |l|
    ensures |t| > 0 ==> IsHan(t[0]) && IsHan(t[|t| - 1])
  {
    var left := DropNonHanLeft(l);
    var t := DropNonHanRight(left);
    assert |t| > 0 ==> t[0] == left[0];
    t
  }

  /** One line's title, if it yields one: the stripped line, trimmed to its
      first and last Han character, when eight characters remain. */
  function TitleOfLine(line: string): (t: Option<string>)
    ensures t.Some? ==> |t.value| >= 8 && IsHan(t.value[0]) && IsHan(t.value[|t.value| - 1])
  {
    var l := Strip(line);
    if TitleShaped(l) && |HanCore(l)| >= 8 then Some(HanCore(l)) else None
  }

  /** The first line that yields a title. */
  function FirstTitle(lines: seq<string>): (t: Option<string>)
    ensures t.Some? ==> |t.value| >= 8
    ensures t.None? ==> forall i :: 0 <= i < |lines| ==> TitleOfLine(lines[i]).None?
    ensures t.Some? ==> exists i :: 0 <= i < |lines| && TitleOfLine(lines[i]) == t
    decreases |lines|
  {
    if |lines| == 0 then None
    else if TitleOfLine(lines[0]).Some? then TitleOfLine(lines[0])
    else
      var t := FirstTitle(lines[1..]);
      assert forall i :: 1 <= i < |lines| ==> lines[i] == lines[1..][i - 1];
      t
  }

  /** url.split(sep)[-1]: what follows the last separator found scanning
      from the left. */
  function LastPiece(s: string, sep: string): (r: string)
    requires |sep| > 0
    ensures |r| <= |s|
    decreases |s|
  {
    match Find(s, sep)
    case None => s
    case Some(i) => LastPiece(s[i + |sep|..], sep)
  }

  /** The title when no line yields one: the detail id, else the time. */
  function FallbackTitle(url: string, nowText: string): string
  {
    if Contains(url, "/detail/") then "财联社新闻_" + LastPiece(url, "/detail/")
    else "财联社新闻_" + nowText
  }

  /** extract_title_from_all_text on the page's lines (tags already
      replaced by spaces): only the first fifty lines are inspected. */
  function TitleFromLines(lines: seq<string>, url: string, nowText: string): (title: string)
    ensures |title| >= 8 || title == FallbackTitle(url, nowText)
  {
    match FirstTitle(lines[..Min(50, |lines|)])
    case Some(t) => t
    case None => FallbackTitle(url, nowText)
  }

  function ExtractTitle(text: string, url: string, nowText: string): string
  {
    TitleFromLines(Split(StripTags(text, ' '), '\n'), url, nowText)
  }

  /** Lines after the fiftieth never matter. */
  lemma TitleOnlyFirstFifty(a: seq<string>, b: seq<string>, url: string, nowText: string)
    requires |a| >= 50 && |b| >= 50 && a[..50] == b[..50]
    ensures TitleFromLines(a, url, nowText) == TitleFromLines(b, url, nowText)
  {
  }

  /** A title from the text is one of its first fifty lines, trimmed; when
      none of them yields one the fallback is used. */
  lemma TitleSource(lines: seq<string>, url: string, nowText: string)
    ensures var title := TitleFromLines(lines, url, nowText);
      || title == FallbackTitle(url, nowText)
      || exists i :: 0 <= i < Min(50, |lines|) && TitleOfLine(lines[i]) == Some(title)
    ensures (forall i :: 0 <= i < Min(50, |lines|) ==> TitleOfLine(lines[i]).None?) ==>
      TitleFromLines(lines, url, nowText) == FallbackTitle(url, nowText)
  {
    var head := lines[..Min(50, |lines|)];
    assert forall i :: 0 <= i < |head| ==> head[i] == lines[i];
  }

  // extract_author_from_all_text

  const AuthorPrefixes: seq<string> := ["财联社记者", "财联社", "记者", "编辑"]
  const DefaultAuthor: string := "财联社"

  /** A character of [^\s\n<>]. */
  predicate IsWordChar(c: char)
  {
    !IsSpace(c) && c != '<' && c != '>'
  }

  /** The end of the run of spaces starting at j. */
  function SpacesEnd(s: string, j: nat): (k: nat)
    requires j <= |s|
    ensures j <= k <= |s| && (k == |s| || !IsSpace(s[k]))
    ensures forall i :: j <= i < k ==> IsSpace(s[i])
    decreases |s| - j
  {
    if j < |s| && IsSpace(s[j]) then SpacesEnd(s, j + 1) else j
  }

  /** The end of the run of word characters starting at j. */
  function WordEnd(s: string, j: nat): (k: nat)
    requires j <= |s|
    ensures j <= k <= |s| && (k == |s| || !IsWordChar(s[k]))
    ensures forall i :: j <= i < k ==> IsWordChar(s[i])
    decreases |s| - j
  {
    if j < |s| && IsWordChar(s[j]) then WordEnd(s, j + 1) else j
  }

  /** The pattern prefix\s+([^\s\n<>]+) matched at i: its group. */
  function CaptureAt(s: string, prefix: string, i: nat): (g: Option<string>)
    requires i <= |s|
    ensures g.Some? ==> |g.value| >= 1 && forall c :: c in g.value ==> IsWordChar(c)
  {
    if i + |prefix| <= |s| && s[i..i + |prefix|] == prefix then
      var j := i + |prefix|;
      var k := SpacesEnd(s, j);
      if k > j && k < |s| && IsWordChar(s[k]) then Some(s[k..WordEnd(s, k)]) else None
    else None
  }

  /** re.search from position i on: the group of the leftmost match. */
  function Search(s: string, prefix: string, i: nat): (g: Option<string>)
    requires i <= |s|
    ensures g.Some? ==> |g.value| >= 1 && forall c :: c in g.value ==> IsWordChar(c)
    decreases |s| - i
  {
    if CaptureAt(s, prefix, i).Some? then CaptureAt(s, prefix, i)
    else if i == |s| then None
    else Search(s, prefix, i + 1)
  }

  /** The patterns from the k-th on: the first whose match is shorter than
      ten characters gives the author. */
  function AuthorFrom(text: string, k: nat): (author: string)
    requires k <= |AuthorPrefixes|
    ensures author == DefaultAuthor || (1 <= |author| < 10 && forall c :: c in author ==> IsWordChar(c))
    decreases |AuthorPrefixes| - k
  {
    if k == |AuthorPrefixes| then DefaultAuthor
    else
      var m := Search(text, AuthorPrefixes[k], 0);
      if m.Some? && |Strip(m.value)| > 0 && |Strip(m.value)| < 10 then
        StripOfWord(m.value);
        Strip(m.value)
      else AuthorFrom(text, k + 1)
  }

  /** A run of word characters has nothing to strip. */
  lemma StripOfWord(w: string)
    requires forall c :: c in w ==> IsWordChar(c)
    ensures Strip(w) == w
  {
    if |w| > 0 {
      assert w[0] in w && w[|w| - 1] in w;
    }
  }

  /** extract_author_from_all_text: the captured author, only when shorter
      than ten characters, else the default. */
  function ExtractAuthor(text: string): (author: string)
    ensures author == DefaultAuthor || (1 <= |author| < 10 && forall c :: c in author ==> IsWordChar(c))
  {
    AuthorFrom(text, 0)
  }

  /** A match of ten or more characters does not stop the search: the next
      pattern is tried. */
  lemma LongCaptureSkipped(text: string, k: nat)
    requires k < |AuthorPrefixes| && Search(text, AuthorPrefixes[k], 0).Some?
    requires |Search(text, AuthorPrefixes[k], 0).value| >= 10
    ensures AuthorFrom(text, k) == AuthorFrom(text, k + 1)
  {
    StripOfWord(Search(text, AuthorPrefixes[k], 0).value);
  }

  // extract_content_from_all_text

  const NavPrefixes: seq<string> := ["关于我们", "网站声明", "联系方式", "用户反馈", "帮助", "首页", "电报", "话题", "盯盘", "VIP"]
  const FooterPrefixes: seq<string> := ["收藏", "阅读", "我要评论", "反馈意见", "要闻", "股市", "查看更多", "关联话题"]
  const LinkPrefixes: seq<string> := ["http", "www"]

  /** Navigation, index tickers, copyright lines and short lines. */
  predicate SkippedLine(line: string)
  {
    || StartsWithAny(line, NavPrefixes)
    || Contains(line, "上证指数") || Contains(line, "深证成指")
    || Contains(line, "©") || Contains(line, "版权所有")
    || |line| < 15
  }

  /** The body begins at a dateline or at a long sentence. */
  predicate StartsContent(line: string)
  {
    || (Contains(line, "财联社") && (Contains(line, "日讯") || Contains(line, "电")))
    || (|line| > 30 && (Contains(line, "。") || Contains(line, "，")) && !StartsWithAny(line, LinkPrefixes))
  }

  predicate Collectable(line: string)
  {
    |line| > 15 && !StartsWithAny(line, FooterPrefixes) && !EndsWithAny(line, WebSuffixes)
  }

  datatype ContentScan = ContentScan(collected: seq<string>, started: bool)

  /** One line of the loop. */
  function ScanLine(st: ContentScan, line: string): ContentScan
  {
    if SkippedLine(line) then st
    else
      var started := st.started || StartsContent(line);
      ContentScan(if started && Collectable(line) then st.collected + [line] else st.collected, started)
  }

  /** The loop over the lines, stopping once more than twenty are
      collected. */
  function ScanContent(lines: seq<string>): (st: ContentScan)
    ensures |st.collected| <= 21
    ensures |st.collected| > 0 ==> st.started
    ensures forall l :: l in st.collected ==> !SkippedLine(l) && Collectable(l)
    decreases |lines|
  {
    if |lines| == 0 then ContentScan([], false)
    else
      var st := ScanContent(lines[..|lines| - 1]);
      if |st.collected| > 20 then st else ScanLine(st, Strip(lines[|lines| - 1]))
  }

  /** Without a line that starts the body nothing is collected. */
  lemma {:induction false} NoStartNoContent(lines: seq<string>)
    requires forall i :: 0 <= i < |lines| ==> !StartsContent(Strip(lines[i]))
    ensures ScanContent(lines) == ContentScan([], false)
    decreases |lines|
  {
    if |lines| > 0 {
      NoStartNoContent(lines[..|lines| - 1]);
    }
  }

  /** The body text: at most fifteen lines joined, or "" when that has
      thirty characters or fewer. */
  function ContentOf(lines: seq<string>): (body: string)
    ensures body == "" || |body| > 30
  {
    var collected := ScanContent(lines).collected;
    var body := Join(collected[..Min(15, |collected|)], '\n');
    if |body| > 30 then body else ""
  }

  function ExtractContent(text: string): string
  {
    ContentOf(Split(StripTags(text, '\n'), '\n'))
  }

  /** A non-empty body is at most fifteen collected lines, each longer than
      fifteen characters and none a navigation line. */
  lemma ContentLines(lines: seq<string>)
    requires ContentOf(lines) != ""
    ensures var collected := ScanContent(lines).collected;
      && ContentOf(lines) == Join(collected[..Min(15, |collected|)], '\n')
      && Min(15, |collected|) <= 15
      && forall l :: l in collected[..Min(15, |collected|)] ==> |l| > 15 && !StartsWithAny(l, NavPrefixes)
  {
    var collected := ScanContent(lines).collected;
    forall l | l in collected[..Min(15, |collected|)]
      ensures |l| > 15 && !StartsWithAny(l, NavPrefixes)
    {
      assert l in collected;
    }
  }

  /** extract_content_from_all_text. */
  method ExtractContentFromAllText(text: string) returns (body: string)
    ensures body == ExtractContent(text)
  {
    var lines := Split(StripTags(text, '\n'), '\n');
    var collected: seq<string> := [];
    var started := false;
    var i := 0;
    while i < |lines|
      invariant 0 <= i <= |lines|
      invariant ScanContent(lines[..i]) == ContentScan(collected, started)
      invariant |collected| <= 20
    {
      assert lines[..i + 1][..i] == lines[..i];
      var line := Strip(lines[i]);
      i := i + 1;
      if SkippedLine(line) {
        continue;
      }
      if StartsContent(line) {
        started := true;
      }
      if started && Collectable(line) {
        collected := collected + [line];
      }
      if |collected| > 20 {
        break;
      }
    }
    ScanStopped(lines, i);
    var joined := Join(collected[..Min(15, |collected|)], '\n');
    if |joined| > 30 {
      return joined;
    }
    return "";
  }

  /** Once more than twenty lines are collected the rest is not read. */
  lemma {:induction false} ScanStopped(lines: seq<string>, i: nat)
    requires i <= |lines|
    requires i == |lines| || |ScanContent(lines[..i]).collected| > 20
    ensures ScanContent(lines) == ScanContent(lines[..i])
    decreases |lines|
  {
    if i == |lines| {
      assert lines[..i] == lines;
    } else {
      var init := lines[..|lines| - 1];
      assert init[..i] == lines[..i];
      ScanStopped(init, i);
    }
  }

  // ---------------------------------------------------------------------
  // Selector heuristics

  /** An element found on the page: its tag, classes and stripped text. */
  datatype Element = Element(name: string, classes: seq<string>, text: string)

  datatype Candidate = Candidate(selector: string, classes: seq<string>, length: nat, preview: string)

  const TitleSkips: seq<string> := ["财联社-主流", "关于我们", "网站声明"]

  predicate TitleSized(text: string)
  {
    10 < |text| < 200 && forall skip :: skip in TitleSkips ==> !Contains(text, skip)
  }

  /** The selector an element is named by: its classes, else its tag. */
  function ClassSelector(e: Element): string
  {
    if |e.classes| > 0 then "." + Join(e.classes, ' ') else e.name
  }

  function Preview(text: string, n: nat): string
  {
    text[..Min(n, |text|)]
  }

  /** The h1 candidates, in page order. */
  function HeadingCandidates(h1s: seq<Element>): (cs: seq<Candidate>)
    ensures forall c :: c in cs ==> c.selector == "h1" && 10 < c.length < 200
    decreases |h1s|
  {
    if |h1s| == 0 then []
    else
      var init := HeadingCandidates(h1s[..|h1s| - 1]);
      var t := Strip(h1s[|h1s| - 1].text);
      if TitleSized(t) then init + [Candidate("h1", h1s[|h1s| - 1].classes, |t|, Preview(t, 50))] else init
  }

  /** The candidates among elements with a "title" class. */
  function TitleClassCandidates(elems: seq<Element>): (cs: seq<Candidate>)
    ensures forall c :: c in cs ==> 10 < c.length < 200
    decreases |elems|
  {
    if |elems| == 0 then []
    else
      var init := TitleClassCandidates(elems[..|elems| - 1]);
      var e := elems[|elems| - 1];
      var t := Strip(e.text);
      if TitleSized(t) then init + [Candidate(ClassSelector(e), e.classes, |t|, Preview(t, 50))] else init
  }

  function Distance(c: Candidate): nat
  {
    if c.length >= 30 then c.length - 30 else 30 - c.length
  }

  /** min(candidates, key=|length − 30|): the first of the closest. */
  function ClosestToThirty(cs: seq<Candidate>): (b: nat)
    requires |cs| > 0
    ensures b < |cs|
    ensures forall j :: 0 <= j < |cs| ==> Distance(cs[b]) <= Distance(cs[j])
    ensures forall j :: 0 <= j < b ==> Distance(cs[j]) > Distance(cs[b])
    decreases |cs|
  {
    if |cs| == 1 then 0
    else
      var b := ClosestToThirty(cs[..|cs| - 1]);
      if Distance(cs[|cs| - 1]) < Distance(cs[b]) then |cs| - 1 else b
  }

  /** analyze_best_title_selector: None without candidates, else the
      selector of the candidate closest to thirty characters. */
  function BestTitleSelector(h1s: seq<Element>, titled: seq<Element>): (r: Option<string>)
    ensures r.None? <==> |HeadingCandidates(h1s) + TitleClassCandidates(titled)| == 0
    ensures r.Some? ==>
      var cs := HeadingCandidates(h1s) + TitleClassCandidates(titled);
      exists b :: 0 <= b < |cs| && cs[b].selector == r.value && forall j :: 0 <= j < |cs| ==> Distance(cs[b]) <= Distance(cs[j])
  {
    var cs := HeadingCandidates(h1s) + TitleClassCandidates(titled);
    if |cs| == 0 then None else Some(cs[ClosestToThirty(cs)].selector)
  }

  const ContentPatterns: seq<string> := ["content", "article", "detail"]

  /** The candidates among the elements of one class pattern. */
  function LongTextCandidates(elems: seq<Element>): (cs: seq<Candidate>)
    ensures forall c :: c in cs ==> c.length > 200
    decreases |elems|
  {
    if |elems| == 0 then []
    else
      var init := LongTextCandidates(elems[..|elems| - 1]);
      var e := elems[|elems| - 1];
      var t := Strip(e.text);
      if |t| > 200 then init + [Candidate(ClassSelector(e), e.classes, |t|, Preview(t, 100))] else init
  }

  /** The content candidates, pattern by pattern. */
  function ContentCandidates(classed: string -> seq<Element>, k: nat): (cs: seq<Candidate>)
    requires k <= |ContentPatterns|
    ensures forall c :: c in cs ==> c.length > 200
    decreases |ContentPatterns| - k
  {
    if k == |ContentPatterns| then []
    else LongTextCandidates(classed(ContentPatterns[k])) + ContentCandidates(classed, k + 1)
  }

  /** max(candidates, key=length): the first of the longest. */
  function Longest(cs: seq<Candidate>): (b: nat)
    requires |cs| > 0
    ensures b < |cs|
    ensures forall j :: 0 <= j < |cs| ==> cs[j].length <= cs[b].length
    ensures forall j :: 0 <= j < b ==> cs[j].length < cs[b].length
    decreases |cs|
  {
    if |cs| == 1 then 0
    else
      var b := Longest(cs[..|cs| - 1]);
      if cs[|cs| - 1].length > cs[b].length then |cs| - 1 else b
  }

  /** analyze_best_content_selector: None without candidates, else the
      selector of the first longest text over two hundred characters. */
  function BestContentSelector(classed: string -> seq<Element>): (r: Option<string>)
    ensures r.None? <==> |ContentCandidates(classed, 0)| == 0
    ensures r.Some? ==>
      var cs := ContentCandidates(classed, 0);
      exists b :: 0 <= b < |cs| && cs[b].selector == r.value && cs[b].length > 200
        && forall j :: 0 <= j < |cs| ==> cs[j].length <= cs[b].length
  {
    var cs := ContentCandidates(classed, 0);
    if |cs| == 0 then None
    else
      var b := Longest(cs);
      assert cs[b] in cs;
      Some(cs[b].selector)
  }
}
