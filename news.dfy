/** The legal-news pipeline: a time-stamped cache, the first five Google News
    entries, the first five articles scraped from each configured site with
    base-URL link composition, per-article summaries with fallback strings,
    and the cache-or-fetch entry point. Feed parsing, HTTP and HTML parsing
    and the summarising model are oracles; the clock is a parameter. */
module News {
  import opened Wrappers
  import opened Text
  import Slicing

  const MaxPerSource: nat := 5
  const NoSummary := "No summary available."
  const SummaryError := "Error in AI summarization."
  const SummarizePrefix := "Summarize this legal news article:\n"

  datatype Article = Article(title: string, content: string, link: string)
  datatype NewsItem = NewsItem(title: string, summary: string, link: string)

  /** The JSON cache file: when it was written and the news it holds. */
  datatype CacheFile = CacheFile(timestamp: int, news: seq<NewsItem>)

  /** A feed entry; an attribute the entry lacks is `None`. */
  datatype FeedEntry = FeedEntry(title: Option<string>, summary: Option<string>, link: Option<string>)
  datatype FeedOutcome = Feed(entries: seq<FeedEntry>) | FeedFailed

  /** A scraped article element: the text of its title element, the `href`
      of its link element, and the text of its summary element; `None` when
      the element (or the `href`) is missing. A summary element that is found
      is `Some` of its text, even when that text is empty. */
  datatype ScrapedItem = ScrapedItem(title: Option<string>, link: Option<string>, summary: Option<string>)
  /** A site's page: its article elements in document order, or a failed request. */
  datatype PageOutcome = Page(items: seq<ScrapedItem>) | PageFailed

  /** The summarising model: text, a response without text, or an exception. */
  datatype SummaryOutcome = SummaryText(text: string) | NoText | SummaryFailed

  datatype SourceConfig = SourceConfig(name: string, url: string, baseUrl: string)

  const ScrapingSources: seq<SourceConfig> := [
    SourceConfig("LiveLaw", "https://www.livelaw.in/", ""),
    SourceConfig("Bar & Bench", "https://www.barandbench.com/", "https://www.barandbench.com"),
    SourceConfig("The Hindu", "https://www.thehindu.com/news/national/", "")
  ]

  // ------------------------------------------------------------------ cache

  /** `load_cache`: the cached news when the file exists and is younger than
      the expiry (strictly), otherwise `None`. */
  function LoadCache(file: Option<CacheFile>, now: int, expiry: int): (r: Option<seq<NewsItem>>)
    ensures r.Some? <==> file.Some? && now - file.value.timestamp < expiry
    ensures r.Some? ==> r.value == file.value.news
  {
    if file.Some? && now - file.value.timestamp < expiry then Some(file.value.news) else None
  }

  /** A cache written at `t` is served from `t` up to but excluding
      `t + expiry`, and is stale from then on. */
  lemma CacheWindow(t: int, news: seq<NewsItem>, expiry: int, now: int)
    ensures t <= now < t + expiry ==> LoadCache(Some(CacheFile(t, news)), now, expiry) == Some(news)
    ensures now >= t + expiry ==> LoadCache(Some(CacheFile(t, news)), now, expiry) == None
  {
  }

  // ------------------------------------------------------------ Google News

  predicate Complete(e: FeedEntry) {
    e.title.Some? && e.summary.Some? && e.link.Some?
  }

  function ArticleOf(e: FeedEntry): Article
    requires Complete(e)
  {
    Article(e.title.value, e.summary.value, e.link.value)
  }

  /** What `fetch_google_news` returns: the first five entries, the summary
      becoming the content, or [] if reading any of them raised. */
  function GoogleArticles(feed: FeedOutcome): (r: seq<Article>)
    ensures |r| <= MaxPerSource
    ensures r != [] ==> feed.Feed? && |r| == Slicing.Min(MaxPerSource, |feed.entries|)
    ensures r != [] ==>
      && feed.Feed? && |r| <= |feed.entries|
      && forall k :: 0 <= k < |r| ==> Complete(feed.entries[k]) && r[k] == ArticleOf(feed.entries[k])
    ensures r == [] <==>
      || feed.FeedFailed? || feed.entries == []
      || exists k :: 0 <= k < Slicing.Min(MaxPerSource, |feed.entries|) && !Complete(feed.entries[k])
  {
    match feed
    case FeedFailed => []
    case Feed(entries) =>
      var first := entries[..Slicing.Min(MaxPerSource, |entries|)];
      if forall e :: e in first ==> Complete(e) then
        seq(|first|, k requires 0 <= k < |first| => ArticleOf(first[k]))
      else []
  }

  /** `fetch_google_news`. */
  method FetchGoogleNews(feed: FeedOutcome) returns (articles: seq<Article>)
    ensures articles == GoogleArticles(feed)
  {
    if feed.FeedFailed? {
      return [];
    }
    var first := feed.entries[..Slicing.Min(MaxPerSource, |feed.entries|)];
    articles := [];
    for i := 0 to |first|
      invariant forall k :: 0 <= k < i ==> Complete(first[k])
      invariant articles == seq(i, k requires 0 <= k < i => ArticleOf(first[k]))
    {
      var e := first[i];
      if !Complete(e) {
        // reading the missing attribute raises; the handler returns []
        assert e in first;
        return [];
      }
      articles := articles + [ArticleOf(e)];
    }
    assert forall e :: e in first ==> Complete(e) by {
      forall e | e in first ensures Complete(e) {
        var k :| 0 <= k < |first| && first[k] == e;
      }
    }
  }

  // ------------------------------------------------------------- scraping

  /** `base_url + link` when the source has a base URL, else the link itself. */
  function FullLink(baseUrl: string, link: string): string {
    if baseUrl != "" then baseUrl + link else link
  }

  predicate Scrapable(item: ScrapedItem) {
    item.title.Some? && item.link.Some?
  }

  function ArticleFrom(source: SourceConfig, item: ScrapedItem): (r: Article)
    requires Scrapable(item)
    ensures r.title == [] || (!IsSpace(r.title[0], Python) && !IsSpace(r.title[|r.title| - 1], Python))
    ensures item.summary.None? ==> r.content == NoSummary
  {
    TrimSpec(item.title.value, Python);
    Article(Trim(item.title.value, Python),
            if item.summary.Some? then Trim(item.summary.value, Python) else NoSummary,
            FullLink(source.baseUrl, item.link.value))
  }

  /** The articles built from elements that all have a title and a link. */
  function ArticlesFrom(source: SourceConfig, items: seq<ScrapedItem>, n: nat): (r: seq<Article>)
    requires n <= |items|
    requires forall k :: 0 <= k < n ==> Scrapable(items[k])
    ensures |r| == n
  {
    if n == 0 then []
    else ArticlesFrom(source, items, n - 1) + [ArticleFrom(source, items[n - 1])]
  }

  /** The `k`-th article is built from the `k`-th element. */
  lemma {:induction false} ArticlesFromAt(source: SourceConfig, items: seq<ScrapedItem>, n: nat, k: nat)
    requires n <= |items|
    requires forall j :: 0 <= j < n ==> Scrapable(items[j])
    requires k < n
    ensures ArticlesFrom(source, items, n)[k] == ArticleFrom(source, items[k])
  {
    if k < n - 1 {
      ArticlesFromAt(source, items, n - 1, k);
    }
  }

  /** What `scrape_source` returns: the first five article elements, or []
      when the request failed or any of them lacked a title or a link. */
  function ScrapedArticles(source: SourceConfig, page: PageOutcome): (r: seq<Article>)
    ensures |r| <= MaxPerSource
    ensures page.PageFailed? ==> r == []
    ensures page.Page? ==>
      (r == [] <==>
        || page.items == []
        || exists k :: 0 <= k < Slicing.Min(MaxPerSource, |page.items|) && !Scrapable(page.items[k]))
    ensures r != [] ==> page.Page? && |r| == Slicing.Min(MaxPerSource, |page.items|)
  {
    match page
    case PageFailed => []
    case Page(items) =>
      var n := Slicing.Min(MaxPerSource, |items|);
      if forall k :: 0 <= k < n ==> Scrapable(items[k]) then ArticlesFrom(source, items, n)
      else []
  }

  /** Every scraped link is the site's base URL followed by the element's
      href, or the href itself for a site without a base URL; the title and
      a found summary are stripped, and an element without a summary gets
      the fallback text. */
  lemma ScrapedFields(source: SourceConfig, items: seq<ScrapedItem>, k: nat)
    requires k < |ScrapedArticles(source, Page(items))|
    ensures k < |items| && Scrapable(items[k])
    ensures var a := ScrapedArticles(source, Page(items))[k];
      && (source.baseUrl != "" ==> a.link == source.baseUrl + items[k].link.value)
      && (source.baseUrl == "" ==> a.link == items[k].link.value)
      && (items[k].summary.None? ==> a.content == NoSummary)
      && (items[k].summary.Some? ==> a.content == Trim(items[k].summary.value, Python))
      && a.title == Trim(items[k].title.value, Python)
  {
    ArticlesFromAt(source, items, Slicing.Min(MaxPerSource, |items|), k);
  }

  /** The loop of `scrape_source` over the first `n` elements: the articles,
      or [] as soon as an element lacks a title or a link. */
  method CollectArticles(source: SourceConfig, items: seq<ScrapedItem>, n: nat) returns (articles: seq<Article>)
    requires n <= |items|
    ensures (forall k :: 0 <= k < n ==> Scrapable(items[k])) ==> articles == ArticlesFrom(source, items, n)
    ensures !(forall k :: 0 <= k < n ==> Scrapable(items[k])) ==> articles == []
  {
    articles := [];
    for i := 0 to n
      invariant forall k :: 0 <= k < i ==> Scrapable(items[k])
      invariant articles == ArticlesFrom(source, items, i)
    {
      var item := items[i];
      if !Scrapable(item) {
        // the missing title or link raises; the handler returns []
        return [];
      }
      assert forall k :: 0 <= k < i + 1 ==> Scrapable(items[k]);
      articles := articles + [ArticleFrom(source, item)];
    }
  }

  /** `scrape_source`. */
  method ScrapeSource(source: SourceConfig, page: PageOutcome) returns (articles: seq<Article>)
    ensures articles == ScrapedArticles(source, page)
  {
    if page.PageFailed? {
      return [];
    }
    articles := CollectArticles(source, page.items, Slicing.Min(MaxPerSource, |page.items|));
  }

  /** The per-site results of `scrape_all_sources`, in site order. */
  function PerSite(pages: string -> PageOutcome): (r: seq<seq<Article>>)
    ensures |r| == |ScrapingSources|
    ensures forall j :: 0 <= j < |r| ==> |r[j]| <= MaxPerSource
  {
    var r := seq(|ScrapingSources|, j requires 0 <= j < |ScrapingSources| =>
      ScrapedArticles(ScrapingSources[j], pages(ScrapingSources[j].url)));
    assert forall j :: 0 <= j < |r| ==> r[j] == ScrapedArticles(ScrapingSources[j], pages(ScrapingSources[j].url));
    r
  }

  /** What `scrape_all_sources` returns: the per-site lists concatenated in
      the order of the configured sites. */
  function AllScraped(pages: string -> PageOutcome): (r: seq<Article>)
    ensures |r| <= |ScrapingSources| * MaxPerSource
  {
    Slicing.FlattenBound(PerSite(pages), MaxPerSource);
    Slicing.Flatten(PerSite(pages))
  }

  /** The three sites' articles, in order, and so at most 15 of them. */
  lemma AllScrapedShape(pages: string -> PageOutcome)
    ensures AllScraped(pages) ==
      ScrapedArticles(ScrapingSources[0], pages(ScrapingSources[0].url)) +
      ScrapedArticles(ScrapingSources[1], pages(ScrapingSources[1].url)) +
      ScrapedArticles(ScrapingSources[2], pages(ScrapingSources[2].url))
    ensures |AllScraped(pages)| <= 3 * MaxPerSource
  {
    var a := ScrapedArticles(ScrapingSources[0], pages(ScrapingSources[0].url));
    var b := ScrapedArticles(ScrapingSources[1], pages(ScrapingSources[1].url));
    var c := ScrapedArticles(ScrapingSources[2], pages(ScrapingSources[2].url));
    assert PerSite(pages) == [a, b, c];
    Slicing.FlattenThree(a, b, c);
  }

  /** `scrape_all_sources`, the thread pool taken as an ordered map. */
  method ScrapeAllSources(pages: string -> PageOutcome) returns (articles: seq<Article>)
    ensures articles == AllScraped(pages)
  {
    articles := [];
    for i := 0 to |ScrapingSources|
      invariant articles == Slicing.Flatten(PerSite(pages)[..i])
    {
      var source := ScrapingSources[i];
      var result := ScrapeSource(source, pages(source.url));
      assert PerSite(pages)[..i + 1] == PerSite(pages)[..i] + [result];
      Slicing.FlattenAppend(PerSite(pages)[..i], [result]);
      assert Slicing.Flatten([result]) == result;
      articles := articles + result;
    }
    assert PerSite(pages)[..|ScrapingSources|] == PerSite(pages);
  }

  // ---------------------------------------------------------- summarising

  /** The summary of one article: the model's text, or a fallback string. */
  function SummaryOf(article: Article, summarize: string -> SummaryOutcome): (r: NewsItem)
    ensures r.title == article.title && r.link == article.link
    ensures summarize(SummarizePrefix + article.content).SummaryText? ==>
      r.summary == summarize(SummarizePrefix + article.content).text
    ensures summarize(SummarizePrefix + article.content).NoText? ==> r.summary == NoSummary
    ensures summarize(SummarizePrefix + article.content).SummaryFailed? ==> r.summary == SummaryError
  {
    match summarize(SummarizePrefix + article.content)
    case SummaryText(text) => NewsItem(article.title, text, article.link)
    case NoText => NewsItem(article.title, NoSummary, article.link)
    case SummaryFailed => NewsItem(article.title, SummaryError, article.link)
  }

  /** What `summarize_news` returns: one item per article, in order, with the
      article's title and link. */
  function Summaries(articles: seq<Article>, summarize: string -> SummaryOutcome): (r: seq<NewsItem>)
    ensures |r| == |articles|
    ensures forall k :: 0 <= k < |r| ==> r[k].title == articles[k].title && r[k].link == articles[k].link
    ensures forall k :: 0 <= k < |r| ==> r[k] == SummaryOf(articles[k], summarize)
  {
    seq(|articles|, k requires 0 <= k < |articles| => SummaryOf(articles[k], summarize))
  }

  /** Summarising a concatenation summarises each part in place: the Google
      articles' summaries come first. */
  lemma SummariesAppend(a: seq<Article>, b: seq<Article>, summarize: string -> SummaryOutcome)
    ensures Summaries(a + b, summarize) == Summaries(a, summarize) + Summaries(b, summarize)
  {
  }

  /** `summarize_news`. */
  method SummarizeNews(articles: seq<Article>, summarize: string -> SummaryOutcome)
    returns (summaries: seq<NewsItem>)
    ensures summaries == Summaries(articles, summarize)
  {
    summaries := [];
    for i := 0 to |articles|
      invariant summaries == Summaries(articles[..i], summarize)
    {
      var article := articles[i];
      var item;
      match summarize(SummarizePrefix + article.content) {
        case SummaryText(text) => item := NewsItem(article.title, text, article.link);
        case NoText => item := NewsItem(article.title, NoSummary, article.link);
        case SummaryFailed => item := NewsItem(article.title, SummaryError, article.link);
      }
      assert articles[..i + 1] == articles[..i] + [article];
      summaries := summaries + [item];
    }
    assert articles[..|articles|] == articles;
  }

  // ----------------------------------------------------------- entry point

  /** The news service's persistent state: the cache file, if any. */
  class NewsService {
    var cacheFile: Option<CacheFile>

    constructor (file: Option<CacheFile>)
      ensures cacheFile == file
    {
      cacheFile := file;
    }

    /** `get_indian_legal_news`: a fresh, non-empty cached list is returned
        as it is and nothing is fetched or saved; otherwise the Google
        articles followed by the scraped ones are summarised, and that list
        is both saved (stamped `savedAt`) and returned. */
    method GetIndianLegalNews(now: int, expiry: int, feed: FeedOutcome, pages: string -> PageOutcome,
                              summarize: string -> SummaryOutcome, savedAt: int)
      returns (news: seq<NewsItem>)
      modifies this
      ensures var cached := LoadCache(old(cacheFile), now, expiry);
        if cached.Some? && cached.value != [] then
          news == cached.value && cacheFile == old(cacheFile)
        else
          && news == Summaries(GoogleArticles(feed) + AllScraped(pages), summarize)
          && cacheFile == Some(CacheFile(savedAt, news))
    {
      var cached := LoadCache(cacheFile, now, expiry);
      if cached.Some? && cached.value != [] {
        return cached.value;
      }
      var google := FetchGoogleNews(feed);
      var scraped := ScrapeAllSources(pages);
      news := SummarizeNews(google + scraped, summarize);
      cacheFile := Some(CacheFile(savedAt, news));
    }
  }
}
