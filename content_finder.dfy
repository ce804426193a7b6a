/** Content aggregation: three fetchers that map backend records to item dicts and
    swallow their own errors, and `find_content`, which resolves the topic, merges what
    the fetchers returned and picks one item at random. */
module ContentFinder {
  import opened PyText
  import Config

  /** Any exception raised by a backend call. */
  datatype Failure = Raised

  /** The `source` entry of a NewsAPI article: absent, JSON null, or an object. */
  datatype SourceField = NoSource | NullSource | SourceObject(fields: Record)

  datatype NewsArticle = NewsArticle(fields: Record, source: SourceField)

  /** The NewsAPI response; `None` when it has no `articles` key. */
  datatype NewsResponse = NewsResponse(articles: Option<seq<NewsArticle>>)

  /** What `feedparser.parse` returns: the channel dict and its entries. */
  datatype Feed = Feed(channel: Record, entries: seq<Record>)

  /** The three backends, as functions of what they are called with: the query and the
      requested result count, or the feed URL. */
  datatype Backends = Backends(
    news: (string, int) -> Result<NewsResponse, Failure>,
    ddg: (string, int) -> Result<seq<Record>, Failure>,
    feed: string -> Result<Feed, Failure>)

  /** A `ContentFinder`: whether its NewsAPI client was created. */
  datatype Finder = Finder(hasNewsApi: bool)

  /** `ContentFinder()`: a client is kept only for a truthy key whose constructor did not raise. */
  function NewFinder(newsApiKey: Option<string>, clientCreated: bool): (f: Finder)
    ensures f.hasNewsApi <==> Config.IsSet(newsApiKey) && clientCreated
  {
    Finder(Config.IsSet(newsApiKey) && clientCreated)
  }

  const NewsApiResults: int := 3
  const DuckDuckGoResults: int := 5
  const RssPerFeed: int := 2
  const DefaultTopic: string := "dreams and sleep science"

  // ---------------------------------------------------------------- NewsAPI

  /** One article as an item dict; looking up `name` on a null `source` raises. */
  function NewsItem(a: NewsArticle): (r: Result<Record, Failure>)
    ensures r.Err? <==> a.source.NullSource?
    ensures r.Ok? ==> r.value.Keys == {"title", "description", "content", "url", "source", "published"}
    ensures r.Ok? ==> (r.value["title"] == Get(a.fields, "title", PStr(""))
                       && r.value["description"] == Get(a.fields, "description", PStr(""))
                       && r.value["content"] == Get(a.fields, "content", PStr(""))
                       && r.value["url"] == Get(a.fields, "url", PStr("")))
    ensures r.Ok? && a.source.NoSource? ==> r.value["source"] == PStr("NewsAPI")
    ensures r.Ok? && a.source.SourceObject? ==> r.value["source"] == Get(a.source.fields, "name", PStr("NewsAPI"))
    ensures r.Ok? ==> r.value["published"] == Get(a.fields, "publishedAt", PStr(""))
  {
    var name := match a.source
      case NoSource => Ok(PStr("NewsAPI"))
      case NullSource => Err(Raised)
      case SourceObject(f) => Ok(Get(f, "name", PStr("NewsAPI")));
    match name
    case Err(e) => Err(e)
    case Ok(n) =>
      Ok(map["title" := Get(a.fields, "title", PStr("")),
             "description" := Get(a.fields, "description", PStr("")),
             "content" := Get(a.fields, "content", PStr("")),
             "url" := Get(a.fields, "url", PStr("")),
             "source" := n,
             "published" := Get(a.fields, "publishedAt", PStr(""))])
  }

  /** The articles mapped in order; the first article that raises aborts the whole batch. */
  function NewsItems(batch: seq<NewsArticle>): (r: Result<seq<Record>, Failure>)
    ensures r.Ok? ==> |r.value| == |batch|
  {
    if batch == [] then Ok([])
    else match NewsItems(batch[..|batch| - 1])
      case Err(e) => Err(e)
      case Ok(prefix) =>
        match NewsItem(batch[|batch| - 1])
        case Err(e) => Err(e)
        case Ok(item) => Ok(prefix + [item])
  }

  /** A batch maps exactly when no article in it has a null `source`, and item `k` is article `k`'s. */
  lemma {:induction false} NewsItemsSpec(batch: seq<NewsArticle>)
    ensures NewsItems(batch).Ok? <==> forall k :: 0 <= k < |batch| ==> !batch[k].source.NullSource?
    ensures NewsItems(batch).Ok? ==> forall k :: 0 <= k < |batch| ==> NewsItem(batch[k]) == Ok(NewsItems(batch).value[k])
  {
    if batch != [] {
      var init := batch[..|batch| - 1];
      NewsItemsSpec(init);
      assert forall k :: 0 <= k < |init| ==> init[k] == batch[k];
    }
  }

  function ArticlesOf(resp: NewsResponse): seq<NewsArticle> {
    if resp.articles.Some? then resp.articles.value else []
  }

  /** What `search_news_api` returns. */
  function NewsApiSearch(f: Finder, resp: Result<NewsResponse, Failure>, maxResults: int): seq<Record> {
    if !f.hasNewsApi || resp.Err? then []
    else match NewsItems(SliceTo(ArticlesOf(resp.value), maxResults))
      case Ok(items) => items
      case Err(_) => []
  }

  lemma {:induction false} NewsItemsErrExtends(batch: seq<NewsArticle>, i: nat)
    requires i <= |batch| && NewsItems(batch[..i]).Err?
    ensures NewsItems(batch).Err?
  {
    NewsItemsSpec(batch[..i]);
    NewsItemsSpec(batch);
    var k :| 0 <= k < i && batch[..i][k].source.NullSource?;
    assert batch[k] == batch[..i][k];
  }

  /** `search_news_api(query, max_results)`, given what the client returned for the query. */
  method SearchNewsApi(f: Finder, resp: Result<NewsResponse, Failure>, maxResults: int) returns (articles: seq<Record>)
    ensures articles == NewsApiSearch(f, resp, maxResults)
  {
    if !f.hasNewsApi {
      return [];
    }
    if resp.Err? {
      return [];
    }
    var batch := SliceTo(ArticlesOf(resp.value), maxResults);
    articles := [];
    var i := 0;
    while i < |batch|
      invariant 0 <= i <= |batch|
      invariant NewsItems(batch[..i]) == Ok(articles)
    {
      assert batch[..i + 1][..i] == batch[..i];
      match NewsItem(batch[i]) {
        case Err(_) =>
          NewsItemsErrExtends(batch, i + 1);
          return [];
        case Ok(item) =>
          articles := articles + [item];
      }
      i := i + 1;
    }
    assert batch[..i] == batch;
  }

  /** No client or a failed call yields nothing; otherwise at most `max_results` items,
      each one an article mapped with its field defaults. */
  lemma NewsApiSearchSpec(f: Finder, resp: Result<NewsResponse, Failure>, maxResults: int)
    ensures !f.hasNewsApi || resp.Err? ==> NewsApiSearch(f, resp, maxResults) == []
    ensures 0 <= maxResults ==> |NewsApiSearch(f, resp, maxResults)| <= maxResults
    ensures forall k :: 0 <= k < |NewsApiSearch(f, resp, maxResults)| ==>
              "content" in NewsApiSearch(f, resp, maxResults)[k]
              && NewsItem(ArticlesOf(resp.value)[k]) == Ok(NewsApiSearch(f, resp, maxResults)[k])
  {
    if f.hasNewsApi && resp.Ok? {
      var batch := SliceTo(ArticlesOf(resp.value), maxResults);
      NewsItemsSpec(batch);
      if NewsItems(batch).Ok? {
        forall k | 0 <= k < |batch| ensures batch[k] == ArticlesOf(resp.value)[k] { }
      }
    }
  }

  // ---------------------------------------------------------------- DuckDuckGo

  /** One web result as an item dict: `body` becomes the description, `href` the url. */
  function DdgItem(r: Record): (item: Record)
    ensures item.Keys == {"title", "description", "url", "source"}
    ensures item["title"] == Get(r, "title", PStr("")) && item["description"] == Get(r, "body", PStr(""))
    ensures item["url"] == Get(r, "href", PStr("")) && item["source"] == PStr("DuckDuckGo")
  {
    map["title" := Get(r, "title", PStr("")),
        "description" := Get(r, "body", PStr("")),
        "url" := Get(r, "href", PStr("")),
        "source" := PStr("DuckDuckGo")]
  }

  function DdgItems(results: seq<Record>): (items: seq<Record>)
    ensures |items| == |results|
  {
    if results == [] then [] else DdgItems(results[..|results| - 1]) + [DdgItem(results[|results| - 1])]
  }

  lemma {:induction false} DdgItemsAt(results: seq<Record>)
    ensures forall k :: 0 <= k < |results| ==> DdgItems(results)[k] == DdgItem(results[k])
  {
    if results != [] {
      var init := results[..|results| - 1];
      DdgItemsAt(init);
      assert forall k :: 0 <= k < |init| ==> init[k] == results[k];
    }
  }

  /** What `search_duckduckgo` returns. */
  function DuckDuckGoSearch(results: Result<seq<Record>, Failure>): seq<Record> {
    if results.Err? then [] else DdgItems(results.value)
  }

  /** `search_duckduckgo(query, max_results)`, given what the search returned for the query. */
  method SearchDuckDuckGo(results: Result<seq<Record>, Failure>) returns (items: seq<Record>)
    ensures items == DuckDuckGoSearch(results)
  {
    if results.Err? {
      return [];
    }
    var rs := results.value;
    items := [];
    var i := 0;
    while i < |rs|
      invariant 0 <= i <= |rs|
      invariant items == DdgItems(rs[..i])
    {
      assert rs[..i + 1][..i] == rs[..i];
      items := items + [DdgItem(rs[i])];
      i := i + 1;
    }
    assert rs[..i] == rs;
  }

  /** A failed search yields nothing; otherwise every result gives one item, in order,
      labelled `DuckDuckGo` and without a `content` key. */
  lemma DuckDuckGoSearchSpec(results: Result<seq<Record>, Failure>)
    ensures results.Err? ==> DuckDuckGoSearch(results) == []
    ensures results.Ok? ==> |DuckDuckGoSearch(results)| == |results.value|
    ensures forall k :: 0 <= k < |DuckDuckGoSearch(results)| ==>
              DuckDuckGoSearch(results)[k] == DdgItem(results.value[k])
              && DuckDuckGoSearch(results)[k]["source"] == PStr("DuckDuckGo")
              && "content" !in DuckDuckGoSearch(results)[k]
  {
    if results.Ok? {
      DdgItemsAt(results.value);
    }
  }

  // ---------------------------------------------------------------- RSS

  /** One feed entry as an item dict; the source label is the channel title. */
  function RssItem(channel: Record, e: Record): (item: Record)
    ensures item.Keys == {"title", "description", "url", "source", "published"}
    ensures item["description"] == Get(e, "summary", PStr("")) && item["url"] == Get(e, "link", PStr(""))
    ensures item["source"] == Get(channel, "title", PStr("RSS Feed"))
    ensures item["title"] == Get(e, "title", PStr("")) && item["published"] == Get(e, "published", PStr(""))
  {
    map["title" := Get(e, "title", PStr("")),
        "description" := Get(e, "summary", PStr("")),
        "url" := Get(e, "link", PStr("")),
        "source" := Get(channel, "title", PStr("RSS Feed")),
        "published" := Get(e, "published", PStr(""))]
  }

  function RssEntryItems(channel: Record, es: seq<Record>): (items: seq<Record>)
    ensures |items| == |es|
    ensures forall k :: 0 <= k < |items| ==> "content" !in items[k]
  {
    if es == [] then [] else RssEntryItems(channel, es[..|es| - 1]) + [RssItem(channel, es[|es| - 1])]
  }

  /** Entry `k` of the feed gives item `k`. */
  lemma {:induction false} RssEntryItemsAt(channel: Record, es: seq<Record>)
    ensures forall k :: 0 <= k < |es| ==> RssEntryItems(channel, es)[k] == RssItem(channel, es[k])
  {
    if es != [] {
      var init := es[..|es| - 1];
      RssEntryItemsAt(channel, init);
      assert forall k :: 0 <= k < |init| ==> init[k] == es[k];
    }
  }

  /** The items one feed contributes: its first `max_per_feed` entries, or none if parsing raised. */
  function FeedItems(parsed: Result<Feed, Failure>, maxPerFeed: int): seq<Record> {
    if parsed.Err? then [] else RssEntryItems(parsed.value.channel, SliceTo(parsed.value.entries, maxPerFeed))
  }

  function FeedContribution(parse: string -> Result<Feed, Failure>, maxPerFeed: int): string -> seq<Record> {
    url => FeedItems(parse(url), maxPerFeed)
  }

  /** What `parse_rss_feeds` returns for the given feed URLs, in order. */
  function RssSearch(urls: seq<string>, parse: string -> Result<Feed, Failure>, maxPerFeed: int): seq<Record> {
    ConcatMap(urls, FeedContribution(parse, maxPerFeed))
  }

  /** The inner loop of `parse_rss_feeds`: map one feed's first `max_per_feed` entries. */
  method FeedEntries(channel: Record, es: seq<Record>) returns (items: seq<Record>)
    ensures items == RssEntryItems(channel, es)
  {
    items := [];
    var j := 0;
    while j < |es|
      invariant 0 <= j <= |es|
      invariant items == RssEntryItems(channel, es[..j])
    {
      assert es[..j + 1][..j] == es[..j];
      items := items + [RssItem(channel, es[j])];
      j := j + 1;
    }
    assert es[..j] == es;
  }

  /** `parse_rss_feeds(max_per_feed)` over the configured feed list, parsing each URL once. */
  method ParseRssFeeds(urls: seq<string>, parse: string -> Result<Feed, Failure>, maxPerFeed: int)
    returns (all: seq<Record>)
    ensures all == RssSearch(urls, parse, maxPerFeed)
  {
    all := [];
    var i := 0;
    while i < |urls|
      invariant 0 <= i <= |urls|
      invariant all == RssSearch(urls[..i], parse, maxPerFeed)
    {
      var parsed := parse(urls[i]);
      var items: seq<Record> := [];
      if parsed.Ok? {
        items := FeedEntries(parsed.value.channel, SliceTo(parsed.value.entries, maxPerFeed));
      }
      assert items == FeedItems(parsed, maxPerFeed);
      RssSearchStep(urls, i, parse, maxPerFeed);
      all := all + items;
      i := i + 1;
    }
    assert urls[..i] == urls;
  }

  /** One more feed URL adds that feed's items at the end. */
  lemma RssSearchStep(urls: seq<string>, i: int, parse: string -> Result<Feed, Failure>, maxPerFeed: int)
    requires 0 <= i < |urls|
    ensures RssSearch(urls[..i + 1], parse, maxPerFeed) == RssSearch(urls[..i], parse, maxPerFeed) + FeedItems(parse(urls[i]), maxPerFeed)
  {
    var f := FeedContribution(parse, maxPerFeed);
    assert urls[..i + 1][..i] == urls[..i] && urls[..i + 1][i] == urls[i];
    assert f(urls[i]) == FeedItems(parse(urls[i]), maxPerFeed);
  }

  /** The feeds' items are concatenated in feed order, so a failing feed drops out
      without disturbing the others. */
  lemma RssSearchAppend(a: seq<string>, b: seq<string>, parse: string -> Result<Feed, Failure>, maxPerFeed: int)
    ensures RssSearch(a + b, parse, maxPerFeed) == RssSearch(a, parse, maxPerFeed) + RssSearch(b, parse, maxPerFeed)
  {
    ConcatMapAppend(a, b, FeedContribution(parse, maxPerFeed));
  }

  lemma RssSearchOfFailingFeed(url: string, parse: string -> Result<Feed, Failure>, maxPerFeed: int)
    requires parse(url).Err?
    ensures RssSearch([url], parse, maxPerFeed) == []
  {
    var f := FeedContribution(parse, maxPerFeed);
    assert [url][..0] == [];
    assert f(url) == [];
    assert ConcatMap([url], f) == ConcatMap([], f) + f(url);
  }

  /** At most `max_per_feed` items come from each feed. */
  lemma RssSearchBound(urls: seq<string>, parse: string -> Result<Feed, Failure>, maxPerFeed: int)
    requires 0 <= maxPerFeed
    ensures |RssSearch(urls, parse, maxPerFeed)| <= maxPerFeed * |urls|
  {
    ConcatMapBound(urls, FeedContribution(parse, maxPerFeed), maxPerFeed);
  }

  // ---------------------------------------------------------------- find_content

  /** `all_content`: the lists among the gathered results, extended in order; raised results are skipped. */
  function Merged(results: seq<Result<seq<Record>, Failure>>): seq<Record> {
    if results == [] then []
    else Merged(results[..|results| - 1]) + (if results[|results| - 1].Ok? then results[|results| - 1].value else [])
  }

  /** An item is merged exactly when it is in one of the results that did not raise. */
  lemma {:induction false} MergedMembers(results: seq<Result<seq<Record>, Failure>>, x: Record)
    ensures x in Merged(results) <==> exists i :: 0 <= i < |results| && results[i].Ok? && x in results[i].value
  {
    if results != [] {
      var init := results[..|results| - 1];
      MergedMembers(init, x);
      if exists i :: 0 <= i < |results| && results[i].Ok? && x in results[i].value {
        var i :| 0 <= i < |results| && results[i].Ok? && x in results[i].value;
        if i < |init| { assert init[i] == results[i]; }
      }
      if exists i :: 0 <= i < |init| && init[i].Ok? && x in init[i].value {
        var i :| 0 <= i < |init| && init[i].Ok? && x in init[i].value;
        assert results[i] == init[i];
      }
    }
  }

  /** The merged list is the concatenation of the three outcomes, minus the ones that raised. */
  lemma MergedOfThree(news: Result<seq<Record>, Failure>, ddg: Result<seq<Record>, Failure>, rss: Result<seq<Record>, Failure>)
    ensures Merged([news, ddg, rss]) ==
      (if news.Ok? then news.value else []) + (if ddg.Ok? then ddg.value else []) + (if rss.Ok? then rss.value else [])
  {
    assert [news, ddg, rss][..2] == [news, ddg];
    assert [news, ddg][..1] == [news];
    assert [news][..0] == [];
    assert Merged([news]) == Merged([]) + (if news.Ok? then news.value else []);
    assert Merged([news, ddg]) == Merged([news]) + (if ddg.Ok? then ddg.value else []);
  }

  /** `all_content = []; for result in results: if isinstance(result, list): all_content.extend(result)`. */
  method MergeResults(results: seq<Result<seq<Record>, Failure>>) returns (all: seq<Record>)
    ensures all == Merged(results)
  {
    all := [];
    var i := 0;
    while i < |results|
      invariant 0 <= i <= |results|
      invariant all == Merged(results[..i])
    {
      assert results[..i + 1][..i] == results[..i];
      if results[i].Ok? {
        all := all + results[i].value;
      }
      i := i + 1;
    }
    assert results[..i] == results;
  }

  /** The outcome of `find_content`: `None`, an output dict, or an exception. */
  datatype FindResult = NotFound | Found(content: Record) | FindFailed

  /** The output dict for a selected item. The selected item's title is sliced for logging,
      so a `None` title raises `TypeError`; a missing key raises `KeyError`. The default of
      `selected.get('content', selected['description'])` is evaluated eagerly. */
  function Select(topic: string, sel: Record): (r: FindResult)
    ensures r.Found? <==> (forall k :: k in ["title", "description", "url", "source"] ==> k in sel) && sel["title"].PStr?
    ensures r.Found? ==> (r.content.Keys == {"topic", "title", "description", "content", "url", "source"}
                          && r.content["topic"] == PStr(topic)
                          && r.content["title"] == sel["title"] && r.content["description"] == sel["description"]
                          && r.content["url"] == sel["url"] && r.content["source"] == sel["source"])
    ensures r.Found? ==> r.content["content"] == if "content" in sel then sel["content"] else sel["description"]
    ensures !r.Found? ==> r == FindFailed
  {
    if "title" !in sel || sel["title"].PNone? then FindFailed
    else if "source" !in sel || "description" !in sel || "url" !in sel then FindFailed
    else Found(map["topic" := PStr(topic),
                   "title" := sel["title"],
                   "description" := sel["description"],
                   "content" := Get(sel, "content", sel["description"]),
                   "url" := sel["url"],
                   "source" := sel["source"]])
  }

  /** A legitimate outcome of topic resolution. `random.choice` may return any list member;
      a falsy member would still fall through to the default. */
  predicate IsResolution(topic: Option<string>, topics: seq<string>, t: string) {
    if topic.Some? && topic.value != "" then t == topic.value
    else if topics != [] then (t in topics && t != "") || ("" in topics && t == DefaultTopic)
    else t == DefaultTopic
  }

  /** The topic lines of `find_content`. */
  method ResolveTopic(topic: Option<string>, topics: seq<string>) returns (t: string)
    ensures IsResolution(topic, topics, t)
    ensures t != ""
  {
    var current := if topic.Some? then topic.value else "";
    if current == "" && topics != [] {
      var j :| 0 <= j < |topics|;
      current := topics[j];
    }
    if current == "" {
      current := DefaultTopic;
    }
    t := current;
  }

  /** With the configured topics (never empty strings), an unset topic always becomes a
      configured one, and the default is used only when there are none. */
  lemma ResolutionWithConfiguredTopics(topic: Option<string>, topics: seq<string>, t: string)
    requires forall k :: 0 <= k < |topics| ==> topics[k] != ""
    requires IsResolution(topic, topics, t)
    ensures (topic.None? || topic.value == "") && topics != [] ==> t in topics
    ensures (topic.None? || topic.value == "") && topics == [] ==> t == DefaultTopic
  {
  }

  /** Every item the three fetchers return for a topic, in the order news, web, feeds;
      `feeds` is `config.RSS_FEEDS`. */
  function Gathered(f: Finder, b: Backends, feeds: seq<string>, t: string): seq<Record> {
    NewsApiSearch(f, b.news(t, NewsApiResults), NewsApiResults) + DuckDuckGoSearch(b.ddg(t, DuckDuckGoResults)) + RssSearch(feeds, b.feed, RssPerFeed)
  }

  /** What `find_content` may return once the topic is `t`: nothing when no fetcher found
      anything, otherwise the output record of one gathered item. */
  predicate SearchOutcome(f: Finder, b: Backends, feeds: seq<string>, t: string, r: FindResult) {
    && (Gathered(f, b, feeds, t) == [] ==> r == NotFound)
    && (Gathered(f, b, feeds, t) != [] ==> exists k :: 0 <= k < |Gathered(f, b, feeds, t)| && r == Select(t, Gathered(f, b, feeds, t)[k]))
  }

  /** The part of `find_content` after the topic is known. */
  method SearchTopic(f: Finder, b: Backends, feeds: seq<string>, t: string) returns (r: FindResult)
    ensures Gathered(f, b, feeds, t) == [] ==> r == NotFound
    ensures Gathered(f, b, feeds, t) != [] ==> exists k :: 0 <= k < |Gathered(f, b, feeds, t)| && r == Select(t, Gathered(f, b, feeds, t)[k])
  {
    var news := SearchNewsApi(f, b.news(t, NewsApiResults), NewsApiResults);
    var web := SearchDuckDuckGo(b.ddg(t, DuckDuckGoResults));
    var rss := ParseRssFeeds(feeds, b.feed, RssPerFeed);
    var all := MergeResults([Ok(news), Ok(web), Ok(rss)]);
    MergedOfThree(Ok(news), Ok(web), Ok(rss));
    if all == [] {
      return NotFound;
    }
    var k :| 0 <= k < |all|;
    r := Select(t, all[k]);
  }

  /** `find_content(topic)`, together with the topic it searched for (the one it prints). */
  method FindContent(f: Finder, b: Backends, feeds: seq<string>, topic: Option<string>, topics: seq<string>)
    returns (t: string, r: FindResult)
    ensures IsResolution(topic, topics, t) && t != ""
    ensures SearchOutcome(f, b, feeds, t, r)
  {
    t := ResolveTopic(topic, topics);
    r := SearchTopic(f, b, feeds, t);
  }

  /** When only one gathered list is non-empty, the selection comes from that list. */
  lemma SelectionFromOnlySource(news: seq<Record>, ddg: seq<Record>, rss: seq<Record>, x: Record)
    requires news == [] && ddg == []
    requires x in Merged([Ok(news), Ok(ddg), Ok(rss)])
    ensures x in rss
  {
    MergedOfThree(Ok(news), Ok(ddg), Ok(rss));
  }

  /** Only NewsAPI items carry `content`, so for web and feed items the output content is the description. */
  lemma ContentFallsBackToDescription(t: string, sel: Record)
    requires Select(t, sel).Found? && "content" !in sel
    ensures Select(t, sel).content["content"] == sel["description"]
  {
  }
}
