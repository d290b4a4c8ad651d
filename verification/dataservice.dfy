/** The decision logic of data_service.py with the HTTP calls lifted out:
    each provider's reply is an input, and the functions here say what the
    service makes of it. */
module DataService {
  import opened Wrappers
  import opened Text
  import opened Tickers
  import opened Recency

  // ---------------------------------------------------------------- periods

  /** The history periods with their own day count; anything else is read as five years. */
  const ShortPeriods: seq<string> := ["1d", "5d", "1mo", "3mo", "1y"]
  const FiveYearDays: nat := 365 * 5

  /** Days of history the Finnhub fallback asks for. */
  function PeriodDays(period: string): (d: nat)
    ensures d == FiveYearDays <==> period !in ShortPeriods
    ensures period in ShortPeriods ==> d < FiveYearDays
    ensures d in {1, 5, 30, 90, 365, FiveYearDays}
  {
    if period == "1d" then 1
    else if period == "5d" then 5
    else if period == "1mo" then 30
    else if period == "3mo" then 90
    else if period == "1y" then 365
    else FiveYearDays
  }

  /** A longer named period never looks back fewer days, and no two named
      periods share a day count. */
  lemma PeriodDaysIncreasing()
    ensures forall i, j :: 0 <= i < j < |ShortPeriods| ==>
      PeriodDays(ShortPeriods[i]) < PeriodDays(ShortPeriods[j])
  {
    assert PeriodDays(ShortPeriods[0]) == 1;
    assert PeriodDays(ShortPeriods[1]) == 5;
    assert PeriodDays(ShortPeriods[2]) == 30;
    assert PeriodDays(ShortPeriods[3]) == 90;
    assert PeriodDays(ShortPeriods[4]) == 365;
  }

  // -------------------------------------------------------------- sentiment

  datatype Sentiment = Positive | Neutral | Negative

  /** The label the service hands on: 正面, 中性 or 负面. */
  function Label(s: Sentiment): (l: string)
    ensures l in {"正面", "中性", "负面"}
  {
    match s
    case Positive => "正面"
    case Neutral => "中性"
    case Negative => "负面"
  }

  const BullishDefault: real := 0.5
  const PositiveAbove: real := 0.6
  const NegativeBelow: real := 0.4

  /** Classification of a bullish percentage; both thresholds are strict. */
  function Classify(score: real): (s: Sentiment)
    ensures s == Positive <==> score > PositiveAbove
    ensures s == Negative <==> score < NegativeBelow
    ensures s == Neutral <==> NegativeBelow <= score <= PositiveAbove
  {
    if score > PositiveAbove then Positive
    else if score < NegativeBelow then Negative
    else Neutral
  }

  /** `reply` is None when the request fails or answers with a status other
      than 200; otherwise it holds the bullish percentage, if the reply has one. */
  function SentimentOf(reply: Option<Option<real>>): (s: Sentiment)
    ensures reply.None? ==> s == Neutral
    ensures reply.Some? && reply.value.None? ==> s == Neutral
    ensures reply.Some? && reply.value.Some? ==> s == Classify(reply.value.value)
  {
    match reply
    case None => Neutral
    case Some(percent) => Classify(percent.GetOr(BullishDefault))
  }

  function Rank(s: Sentiment): int {
    match s
    case Negative => -1
    case Neutral => 0
    case Positive => 1
  }

  /** A more bullish reply never gives a less positive sentiment. */
  lemma ClassifyMonotone(a: real, b: real)
    requires a <= b
    ensures Rank(Classify(a)) <= Rank(Classify(b))
  {
  }

  // ------------------------------------------------------------ stock info

  /** A JSON value as the services see it; `Null` is JSON null (Python None). */
  datatype Value = Num(n: real) | Str(s: string) | Null
  type Info = map<string, Value>

  /** yfinance's info dictionary is used only when it is non-empty and has a current price. */
  predicate YahooUsable(yahoo: Option<Info>) {
    yahoo.Some? && yahoo.value != map[] && "currentPrice" in yahoo.value
  }

  /** `quote.get(field, 0)`. */
  function QuoteField(quote: Info, field: string): (v: Value)
    ensures field in quote ==> v == quote[field]
    ensures field !in quote ==> v == Num(0.0)
  {
    if field in quote then quote[field] else Num(0.0)
  }

  const QuoteKeys: set<string> := {"currentPrice", "previousClose", "dayHigh", "dayLow", "volume"}

  /** The profile with the quote's price fields copied in under the names yfinance uses. */
  function WithQuote(profile: Info, quote: Info): (info: Info)
    ensures info.Keys == profile.Keys + QuoteKeys
    ensures info["currentPrice"] == QuoteField(quote, "c")
    ensures info["previousClose"] == QuoteField(quote, "pc")
    ensures info["dayHigh"] == QuoteField(quote, "h")
    ensures info["dayLow"] == QuoteField(quote, "l")
    ensures info["volume"] == QuoteField(quote, "v")
    ensures forall k :: k in profile && k !in QuoteKeys ==> info[k] == profile[k]
  {
    profile["currentPrice" := QuoteField(quote, "c")]["previousClose" := QuoteField(quote, "pc")]
           ["dayHigh" := QuoteField(quote, "h")]["dayLow" := QuoteField(quote, "l")]
           ["volume" := QuoteField(quote, "v")]
  }

  /** yfinance's info was unusable and the Finnhub profile came back non-empty. */
  predicate FromProfile(yahoo: Option<Info>, profile: Reply<Info>) {
    !YahooUsable(yahoo) && profile.Answered? && profile.body != map[]
  }

  /** The Finnhub path gets as far as returning the profile: a non-empty
      profile, and a quote request that did not raise. */
  predicate ProfileKept(yahoo: Option<Info>, profile: Reply<Info>, quote: Reply<Info>) {
    FromProfile(yahoo, profile) && !quote.Raised?
  }

  /** The info dictionary `get_stock_info` returns. `yahoo` is None when
      yfinance raises. The quote is requested only after a non-empty profile.
      A Finnhub request that raises, or a reply that is not JSON, leaves
      through the outer handler, which returns an empty dictionary; so does
      a profile answered with a status other than 200. A quote answered with
      another status leaves the profile without price fields. */
  function StockInfo(ticker: string, yahoo: Option<Info>, profile: Reply<Info>, quote: Reply<Info>): (r: Info)
    requires IsAscii(ticker)
    ensures YahooUsable(yahoo) ==> r == yahoo.value
    ensures r == map[] <==> !YahooUsable(yahoo) && !ProfileKept(yahoo, profile, quote)
    ensures FromProfile(yahoo, profile) && quote.Raised? ==> r == map[]
    ensures ProfileKept(yahoo, profile, quote) && quote.Answered? ==>
      && "currentPrice" in r && r["currentPrice"] == QuoteField(quote.body, "c")
      && "previousClose" in r && r["previousClose"] == QuoteField(quote.body, "pc")
    ensures ProfileKept(yahoo, profile, quote) && quote.Refused? ==>
      forall k :: k in r && k != "longName" ==> k in profile.body && r[k] == profile.body[k]
    ensures ProfileKept(yahoo, profile, quote) && "name" !in profile.body ==>
      "longName" in r && r["longName"] == Str(ProcessHk(ticker))
    ensures ProfileKept(yahoo, profile, quote) && "name" in profile.body ==>
      ("longName" in r <==> "longName" in profile.body)
    ensures ProfileKept(yahoo, profile, quote) ==>
      forall k :: k in profile.body && k !in QuoteKeys && k != "longName" ==> k in r && r[k] == profile.body[k]
  {
    if YahooUsable(yahoo) then yahoo.value
    else if !profile.Answered? || profile.body == map[] || quote.Raised? then map[]
    else ProfileInfo(ticker, profile.body, if quote.Answered? then Some(quote.body) else None)
  }

  /** The Finnhub path once the profile is non-empty: the quote's fields when
      `quote` is present, and a long name when the profile has no name. */
  function ProfileInfo(ticker: string, profile: Info, quote: Option<Info>): (r: Info)
    requires IsAscii(ticker) && profile != map[]
    ensures r != map[]
    ensures quote.Some? ==>
      && "currentPrice" in r && r["currentPrice"] == QuoteField(quote.value, "c")
      && "previousClose" in r && r["previousClose"] == QuoteField(quote.value, "pc")
    ensures quote.None? ==> forall k :: k in r && k != "longName" ==> k in profile && r[k] == profile[k]
    ensures "name" !in profile ==> "longName" in r && r["longName"] == Str(ProcessHk(ticker))
    ensures "name" in profile ==> ("longName" in r <==> "longName" in profile)
    ensures forall k :: k in profile && k !in QuoteKeys && k != "longName" ==> k in r && r[k] == profile[k]
    ensures "currentPrice" in r <==> quote.Some? || "currentPrice" in profile
  {
    var info := if quote.Some? then WithQuote(profile, quote.value) else profile;
    assert "name" in info <==> "name" in profile;
    assert "longName" in info <==> "longName" in profile;
    assert "currentPrice" in info <==> quote.Some? || "currentPrice" in profile;
    var k :| k in profile;
    assert k in info;
    Named(info, ProcessHk(ticker))
  }

  /** `info['longName'] = name` when the dictionary has no "name". */
  function Named(info: Info, name: string): (r: Info)
    ensures "name" !in info ==> r.Keys == info.Keys + {"longName"} && r["longName"] == Str(name)
    ensures "name" in info ==> r == info
    ensures forall k :: k in info && k != "longName" ==> r[k] == info[k]
  {
    if "name" !in info then info["longName" := Str(name)] else info
  }

  /** The dictionary has a current price exactly when yfinance's info is
      usable, or the Finnhub profile is kept with a quote that answered 200,
      or with a quote refused and a profile that carries the price itself. */
  lemma StockInfoPriced(ticker: string, yahoo: Option<Info>, profile: Reply<Info>, quote: Reply<Info>)
    requires IsAscii(ticker)
    ensures ("currentPrice" in StockInfo(ticker, yahoo, profile, quote))
      <==> (YahooUsable(yahoo) || (ProfileKept(yahoo, profile, quote) && (quote.Answered? || "currentPrice" in profile.body)))
  {
  }

  // ------------------------------------------------------------------ news

  /** A publication time: a Unix timestamp, or a text standing in for one. */
  datatype Date = Stamp(seconds: int) | Text(text: string)

  datatype NewsEntry = NewsEntry(title: string, link: string, date: Date, source: string)

  const MaxPerProvider: nat := 10
  const UnknownTime: string := "未知时间"

  /** The sort key an entry was ranked by: its timestamp, or 0 when it has none. */
  function EntryKey(e: NewsEntry): int {
    if e.date.Stamp? then e.date.seconds else 0
  }

  function AtMost(n: nat, m: nat): nat {
    if n < m then n else m
  }

  /** Python truthiness of an optional string field. */
  predicate Present(s: Option<string>) {
    s.Some? && |s.value| > 0
  }

  // Finnhub company news.

  datatype FinnhubItem = FinnhubItem(headline: Option<string>, url: Option<string>, time: Option<int>, source: Option<string>)

  predicate Usable(item: FinnhubItem) {
    Present(item.headline) && Present(item.url)
  }

  /** The items with a headline and a link, in their original order. */
  function UsableItems(items: seq<FinnhubItem>): (r: seq<FinnhubItem>)
    ensures |r| <= |items|
    ensures forall x :: x in r <==> x in items && Usable(x)
  {
    if |items| == 0 then []
    else (if Usable(items[0]) then [items[0]] else []) + UsableItems(items[1..])
  }

  function FinnhubKey(item: FinnhubItem): int {
    item.time.GetOr(0)
  }

  /** An entry built from a Finnhub item: the fields present are copied,
      the missing ones get "" or "Unknown", and a missing time reads as 0. */
  function FinnhubEntry(item: FinnhubItem): (e: NewsEntry)
    ensures EntryKey(e) == FinnhubKey(item) && e.date.Stamp?
    ensures item.time.Some? ==> e.date.seconds == item.time.value
    ensures item.headline.Some? ==> e.title == item.headline.value
    ensures item.url.Some? ==> e.link == item.url.value
    ensures item.source.Some? ==> e.source == item.source.value
    ensures item.source.None? ==> e.source == "Unknown"
  {
    NewsEntry(item.headline.GetOr(""), item.url.GetOr(""), Stamp(FinnhubKey(item)), item.source.GetOr("Unknown"))
  }

  function FinnhubEntries(items: seq<FinnhubItem>): (r: seq<NewsEntry>)
    ensures |r| == |items|
    ensures forall i :: 0 <= i < |items| ==> r[i] == FinnhubEntry(items[i])
  {
    MapSeq(items, FinnhubEntry)
  }

  /** The Finnhub list: usable items only, newest first, at most ten, and no
      usable item left out is newer than any item kept. */
  function FinnhubNews(items: seq<FinnhubItem>): (r: seq<NewsEntry>)
    ensures |r| == AtMost(|UsableItems(items)|, MaxPerProvider)
    ensures multiset(r) <= multiset(FinnhubEntries(UsableItems(items)))
    ensures forall k :: IsPrefix(WithKey(r, EntryKey, k), WithKey(FinnhubEntries(UsableItems(items)), EntryKey, k))
    ensures Descending(r, EntryKey)
    ensures forall i :: 0 <= i < |r| ==> |r[i].title| > 0 && |r[i].link| > 0
    ensures forall x, i :: x in UsableItems(items) && FinnhubEntry(x) !in r && 0 <= i < |r| ==>
      FinnhubKey(x) <= EntryKey(r[i])
  {
    var kept := Newest(UsableItems(items), FinnhubKey, MaxPerProvider);
    FinnhubKept(UsableItems(items), kept);
    MapSubMultiset(kept, UsableItems(items), FinnhubEntry);
    MapKeepsTies(kept, UsableItems(items), FinnhubEntry, FinnhubKey, EntryKey);
    FinnhubEntries(kept)
  }

  lemma FinnhubKept(usable: seq<FinnhubItem>, kept: seq<FinnhubItem>)
    requires forall x :: x in usable ==> Usable(x)
    requires multiset(kept) <= multiset(usable)
    requires forall x, i :: x in multiset(usable) - multiset(kept) && 0 <= i < |kept| ==> FinnhubKey(x) <= FinnhubKey(kept[i])
    ensures forall i :: 0 <= i < |kept| ==> |FinnhubEntries(kept)[i].title| > 0 && |FinnhubEntries(kept)[i].link| > 0
    ensures forall x, i :: x in usable && FinnhubEntry(x) !in FinnhubEntries(kept) && 0 <= i < |kept| ==>
      FinnhubKey(x) <= EntryKey(FinnhubEntries(kept)[i])
  {
    var r := FinnhubEntries(kept);
    forall i | 0 <= i < |r| ensures |r[i].title| > 0 && |r[i].link| > 0 {
      assert kept[i] in multiset(usable);
      assert kept[i] in usable;
      assert r[i] == FinnhubEntry(kept[i]);
    }
    forall x, i | x in usable && FinnhubEntry(x) !in r && 0 <= i < |r|
      ensures FinnhubKey(x) <= EntryKey(r[i])
    {
      forall y | y in kept ensures FinnhubEntry(y) in r {
        var j :| 0 <= j < |kept| && kept[j] == y;
        assert r[j] == FinnhubEntry(y);
      }
      assert x !in kept;
      assert x in multiset(usable) - multiset(kept);
    }
  }

  // yfinance news.

  datatype YahooItem = YahooItem(title: Option<string>, link: Option<string>, time: Option<int>, publisher: Option<string>)

  function YahooKey(item: YahooItem): int {
    item.time.GetOr(0)
  }

  /** An entry built from a yfinance item: the fields present are copied,
      a missing title or link becomes "", a missing publisher "未知来源",
      and a missing or zero publish time is shown as unknown. */
  function YahooEntry(item: YahooItem): (e: NewsEntry)
    ensures EntryKey(e) == YahooKey(item)
    ensures e.date.Stamp? <==> item.time.Some? && item.time.value != 0
    ensures e.date.Stamp? ==> e.date.seconds == item.time.value
    ensures !e.date.Stamp? ==> e.date == Text(UnknownTime)
    ensures item.title.Some? ==> e.title == item.title.value
    ensures item.title.None? ==> e.title == ""
    ensures item.link.Some? ==> e.link == item.link.value
    ensures item.link.None? ==> e.link == ""
    ensures item.publisher.Some? ==> e.source == item.publisher.value
    ensures item.publisher.None? ==> e.source == "未知来源"
  {
    var date := if item.time.Some? && item.time.value != 0 then Stamp(item.time.value) else Text(UnknownTime);
    NewsEntry(item.title.GetOr(""), item.link.GetOr(""), date, item.publisher.GetOr("未知来源"))
  }

  function YahooEntries(items: seq<YahooItem>): (r: seq<NewsEntry>)
    ensures |r| == |items|
    ensures forall i :: 0 <= i < |items| ==> r[i] == YahooEntry(items[i])
  {
    MapSeq(items, YahooEntry)
  }

  /** The yfinance list: the ten newest items, newest first. */
  function YahooNews(items: seq<YahooItem>): (r: seq<NewsEntry>)
    ensures |r| == AtMost(|items|, MaxPerProvider)
    ensures multiset(r) <= multiset(YahooEntries(items))
    ensures forall k :: IsPrefix(WithKey(r, EntryKey, k), WithKey(YahooEntries(items), EntryKey, k))
    ensures Descending(r, EntryKey)
    ensures forall x, i :: x in items && YahooEntry(x) !in r && 0 <= i < |r| ==> YahooKey(x) <= EntryKey(r[i])
  {
    var kept := Newest(items, YahooKey, MaxPerProvider);
    YahooKept(items, kept);
    MapSubMultiset(kept, items, YahooEntry);
    MapKeepsTies(kept, items, YahooEntry, YahooKey, EntryKey);
    YahooEntries(kept)
  }

  lemma YahooKept(items: seq<YahooItem>, kept: seq<YahooItem>)
    requires forall x, i :: x in multiset(items) - multiset(kept) && 0 <= i < |kept| ==> YahooKey(x) <= YahooKey(kept[i])
    ensures forall x, i :: x in items && YahooEntry(x) !in YahooEntries(kept) && 0 <= i < |kept| ==>
      YahooKey(x) <= EntryKey(YahooEntries(kept)[i])
  {
    var r := YahooEntries(kept);
    forall x, i | x in items && YahooEntry(x) !in r && 0 <= i < |r|
      ensures YahooKey(x) <= EntryKey(r[i])
    {
      forall y | y in kept ensures YahooEntry(y) in r {
        var j :| 0 <= j < |kept| && kept[j] == y;
        assert r[j] == YahooEntry(y);
      }
      assert x !in kept;
      assert x in multiset(items) - multiset(kept);
    }
  }

  // Google News RSS.

  datatype RssItem = RssItem(title: Option<string>, link: Option<string>, pubDate: Option<string>, source: Option<string>)

  /** Present RSS elements are copied and missing ones get fixed stand-ins. */
  function RssEntry(item: RssItem): (e: NewsEntry)
    ensures item.title.Some? ==> e.title == item.title.value
    ensures item.link.Some? ==> e.link == item.link.value
    ensures item.pubDate.Some? ==> e.date == Text(item.pubDate.value)
    ensures item.source.Some? ==> e.source == item.source.value
    ensures item.title.None? ==> e.title == "无标题"
    ensures item.link.None? ==> e.link == "#"
    ensures item.pubDate.None? ==> e.date == Text(UnknownTime)
    ensures item.source.None? ==> e.source == "未知来源"
  {
    NewsEntry(item.title.GetOr("无标题"), item.link.GetOr("#"), Text(item.pubDate.GetOr(UnknownTime)), item.source.GetOr("未知来源"))
  }

  /** The Google list: the first ten feed items, in feed order. */
  function RssNews(items: seq<RssItem>): (r: seq<NewsEntry>)
    ensures |r| == AtMost(|items|, MaxPerProvider)
    ensures forall i :: 0 <= i < |r| ==> r[i] == RssEntry(items[i])
  {
    var n := AtMost(|items|, MaxPerProvider);
    seq(n, i requires 0 <= i < n => RssEntry(items[i]))
  }

  // The fallback chain.

  /** What one provider's block did: the entries it appended to the shared
      list, and whether it reached its "return if the list is non-empty" check. */
  datatype Attempt = Attempt(appended: seq<NewsEntry>, checked: bool)

  /** The Finnhub block. `reply` is None when the request raises or answers
      with a status other than 200. Its time formatting has its own handler,
      so the block never fails once it has started appending. */
  function FinnhubAttempt(reply: Option<seq<FinnhubItem>>): (a: Attempt)
    ensures |a.appended| <= MaxPerProvider
    ensures Clean(a)
    ensures a.checked <==> reply.Some?
    ensures reply.Some? ==> a.appended == FinnhubNews(reply.value)
  {
    match reply
    case None => Attempt([], false)
    case Some(items) => Attempt(FinnhubNews(items), true)
  }

  /** The entry's date can be shown: it is a text, or a timestamp that the
      platform's `datetime.fromtimestamp` accepts. */
  predicate Formats(e: NewsEntry, formattable: int -> bool) {
    e.date.Text? || formattable(e.date.seconds)
  }

  /** The number of leading entries whose dates can be shown. */
  function FormattedRun(es: seq<NewsEntry>, formattable: int -> bool): (n: nat)
    ensures n <= |es|
    ensures forall i :: 0 <= i < n ==> Formats(es[i], formattable)
    ensures n < |es| ==> !Formats(es[n], formattable)
  {
    if |es| == 0 || !Formats(es[0], formattable) then 0
    else 1 + FormattedRun(es[1..], formattable)
  }

  /** The yfinance block. `news` is None when fetching the news raises, and
      an empty list skips the block. The publish time is formatted with no
      handler of its own, so the first timestamp that `formattable` rejects
      raises after the entries before it have been appended, and the block
      never reaches its check. */
  function YahooAttempt(news: Option<seq<YahooItem>>, formattable: int -> bool): (a: Attempt)
    ensures |a.appended| <= MaxPerProvider
    ensures news.None? || |news.value| == 0 ==> a == Attempt([], false)
    ensures news.Some? && |news.value| > 0 ==> IsPrefix(a.appended, YahooNews(news.value))
    ensures news.Some? && |news.value| > 0 ==>
      (a.checked <==> forall e :: e in YahooNews(news.value) ==> Formats(e, formattable))
    ensures news.Some? && |news.value| > 0 && !a.checked ==>
      |a.appended| < |YahooNews(news.value)| && !Formats(YahooNews(news.value)[|a.appended|], formattable)
  {
    if news.None? || |news.value| == 0 then Attempt([], false)
    else
      var entries := YahooNews(news.value);
      var n := FormattedRun(entries, formattable);
      assert n < |entries| ==> entries[n] in entries;
      Attempt(entries[..n], n == |entries|)
  }

  /** The Google block. `reply` is None when the request raises, the feed
      does not parse, or the status is not 200; every element it reads has
      a stand-in, so it never fails once it has started appending. */
  function RssAttempt(reply: Option<seq<RssItem>>): (a: Attempt)
    ensures |a.appended| <= MaxPerProvider
    ensures Clean(a)
    ensures a.checked <==> reply.Some?
    ensures reply.Some? ==> a.appended == RssNews(reply.value)
  {
    match reply
    case None => Attempt([], false)
    case Some(items) => Attempt(RssNews(items), true)
  }

  /** `get_news`: the entries accumulate across providers, and the first
      block whose check sees a non-empty list returns it; if none does, the
      result is empty. */
  function GetNews(finnhub: Attempt, yahoo: Attempt, google: Attempt): (r: seq<NewsEntry>)
    ensures r == [] || r == finnhub.appended || r == finnhub.appended + yahoo.appended
         || r == finnhub.appended + yahoo.appended + google.appended
    ensures !finnhub.checked && !yahoo.checked && !google.checked ==> r == []
  {
    var afterFinnhub := finnhub.appended;
    if finnhub.checked && |afterFinnhub| > 0 then afterFinnhub
    else
      var afterYahoo := afterFinnhub + yahoo.appended;
      if yahoo.checked && |afterYahoo| > 0 then afterYahoo
      else
        var afterGoogle := afterYahoo + google.appended;
        if google.checked && |afterGoogle| > 0 then afterGoogle
        else []
  }

  /** A block that appends only when it then reaches its check. */
  predicate Clean(a: Attempt) {
    a.checked || a.appended == []
  }

  /** The first non-empty list, or the empty list. */
  function FirstNonEmpty(lists: seq<seq<NewsEntry>>): (r: seq<NewsEntry>)
    ensures r == [] || r in lists
  {
    if |lists| == 0 then []
    else if |lists[0]| > 0 then lists[0]
    else FirstNonEmpty(lists[1..])
  }

  /** When no block fails after appending, the fallback chain returns the
      first provider list that is non-empty. */
  lemma FallbackIsFirstNonEmpty(finnhub: Attempt, yahoo: Attempt, google: Attempt)
    requires Clean(finnhub) && Clean(yahoo) && Clean(google)
    ensures GetNews(finnhub, yahoo, google) == FirstNonEmpty([finnhub.appended, yahoo.appended, google.appended])
  {
    var lists := [finnhub.appended, yahoo.appended, google.appended];
    if |finnhub.appended| == 0 {
      assert finnhub.appended + yahoo.appended == yahoo.appended;
      assert lists[1..] == [yahoo.appended, google.appended];
      assert FirstNonEmpty(lists) == FirstNonEmpty(lists[1..]);
      if |yahoo.appended| == 0 {
        assert yahoo.appended + google.appended == google.appended;
        assert lists[1..][1..] == [google.appended];
        assert FirstNonEmpty(lists[1..]) == FirstNonEmpty([google.appended]);
        if |google.appended| == 0 {
          assert [google.appended][1..] == [];
          assert FirstNonEmpty([google.appended]) == FirstNonEmpty([]);
        }
      }
    }
  }

  /** When every yfinance date that is kept can be formatted, no block
      fails after appending, so `get_news` returns the first provider list
      that is non-empty, of at most ten entries. */
  lemma NewsFromFirstProvider(f: Option<seq<FinnhubItem>>, y: Option<seq<YahooItem>>, g: Option<seq<RssItem>>,
                              formattable: int -> bool)
    requires Clean(YahooAttempt(y, formattable))
    ensures GetNews(FinnhubAttempt(f), YahooAttempt(y, formattable), RssAttempt(g))
         == FirstNonEmpty([FinnhubAttempt(f).appended, YahooAttempt(y, formattable).appended, RssAttempt(g).appended])
    ensures |GetNews(FinnhubAttempt(f), YahooAttempt(y, formattable), RssAttempt(g))| <= MaxPerProvider
  {
    FallbackIsFirstNonEmpty(FinnhubAttempt(f), YahooAttempt(y, formattable), RssAttempt(g));
  }

  /** When the yfinance block fails part-way, its entries stay in the shared
      list: with nothing from Finnhub and a Google feed that answers, the
      result is the partial yfinance list followed by the Google entries. */
  lemma PartialYahooMixes(f: Option<seq<FinnhubItem>>, y: Option<seq<YahooItem>>, items: seq<RssItem>,
                          formattable: int -> bool)
    requires FinnhubAttempt(f).appended == []
    requires !Clean(YahooAttempt(y, formattable))
    ensures GetNews(FinnhubAttempt(f), YahooAttempt(y, formattable), RssAttempt(Some(items)))
         == YahooAttempt(y, formattable).appended + RssNews(items)
    ensures |GetNews(FinnhubAttempt(f), YahooAttempt(y, formattable), RssAttempt(Some(items)))| > 0
  {
    MixedAfterFailure(FinnhubAttempt(f), YahooAttempt(y, formattable), RssAttempt(Some(items)));
  }

  /** A block that fails after appending leaves its entries for the next
      block's check. */
  lemma MixedAfterFailure(finnhub: Attempt, yahoo: Attempt, google: Attempt)
    requires finnhub.appended == [] && !Clean(yahoo) && google.checked
    ensures GetNews(finnhub, yahoo, google) == yahoo.appended + google.appended
  {
    assert finnhub.appended + yahoo.appended == yahoo.appended;
  }
}
