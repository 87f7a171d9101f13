/** The classification and filtering rules of the `news-scraper` edge
    function. The fetched pages are abstracted to what the scrapers read from
    them: the trimmed texts of the calendar rows and article links, None where
    an element or attribute is missing, and None for a whole source whose
    fetch or parse failed (which the scraper turns into no items). */
module NewsScraper {
  import opened Common

  datatype Impact = High | Medium | Low

  /** A row of the `news_events` table as the scrapers build it; the
      publication time is the clock and is left out. */
  datatype NewsEvent = NewsEvent(
    title: string,
    content: string,
    source: string,
    impact: Impact,
    url: string,
    category: string,
    symbols: seq<string>)

  // ---------------------------------------------------------------------
  // determineImpactFromTitle

  const HighKeywords: seq<string> :=
    ["fed", "interest rate", "inflation", "unemployment", "gdp", "nonfarm", "cpi", "ppi"]
  const MediumKeywords: seq<string> :=
    ["retail sales", "consumer confidence", "manufacturing", "housing"]

  /** `determineImpactFromTitle`: HIGH when a high-impact keyword occurs in the
      lower-cased title, otherwise MEDIUM when a medium-impact one does,
      otherwise LOW. */
  function ImpactFromTitle(title: string): (r: Impact)
    ensures r == High <==> ContainsAny(Lower(title), HighKeywords)
    ensures r == Medium <==> !ContainsAny(Lower(title), HighKeywords) && ContainsAny(Lower(title), MediumKeywords)
    ensures r == Low <==> !ContainsAny(Lower(title), HighKeywords) && !ContainsAny(Lower(title), MediumKeywords)
  {
    var lower := Lower(title);
    if ContainsAny(lower, HighKeywords) then High
    else if ContainsAny(lower, MediumKeywords) then Medium
    else Low
  }

  /** The impact in terms of single keywords: HIGH exactly when some
      high-impact keyword is a substring of the lower-cased title, so a
      medium keyword never outranks a high one. */
  lemma ImpactKeywords(title: string)
    ensures ImpactFromTitle(title) == High <==>
      exists k :: 0 <= k < |HighKeywords| && Contains(Lower(title), HighKeywords[k])
    ensures ImpactFromTitle(title) == Medium <==>
      (forall k :: 0 <= k < |HighKeywords| ==> !Contains(Lower(title), HighKeywords[k]))
      && exists k :: 0 <= k < |MediumKeywords| && Contains(Lower(title), MediumKeywords[k])
  {
    ContainsAnyIff(Lower(title), HighKeywords);
    ContainsAnyIff(Lower(title), MediumKeywords);
  }

  /** Titles that differ only in the case of ASCII letters get the same
      impact. */
  lemma ImpactIgnoresCase(a: string, b: string)
    requires SameIgnoringCase(a, b)
    ensures ImpactFromTitle(a) == ImpactFromTitle(b)
  {
    SameIgnoringCaseLower(a, b);
  }

  /** A title with both a high and a medium keyword is HIGH. */
  lemma ImpactHighWins(title: string, i: nat, j: nat)
    requires OccursAt(Lower(title), "fed", i) && OccursAt(Lower(title), "housing", j)
    ensures ImpactFromTitle(title) == High
  {
    ContainsIff(Lower(title), "fed");
    assert Contains(Lower(title), HighKeywords[0]);
    ImpactKeywords(title);
  }

  // ---------------------------------------------------------------------
  // Shared filter-and-build step

  /** The items built, in order, from the elements the source's rule keeps. */
  function Collect<A>(xs: seq<A>, keep: A -> bool, make: A -> NewsEvent): (r: seq<NewsEvent>)
    ensures |r| <= |xs|
    ensures forall e :: e in r ==> exists x :: x in xs && keep(x) && e == make(x)
    ensures forall x :: x in xs && keep(x) ==> make(x) in r
  {
    if |xs| == 0 then []
    else
      var rest := Collect(xs[1..], keep, make);
      assert xs == [xs[0]] + xs[1..];
      if keep(xs[0]) then [make(xs[0])] + rest else rest
  }

  /** Every element is kept, so every element gives an item. */
  lemma {:induction false} CollectAll<A>(xs: seq<A>, keep: A -> bool, make: A -> NewsEvent)
    requires forall i :: 0 <= i < |xs| ==> keep(xs[i])
    ensures |Collect(xs, keep, make)| == |xs|
  {
    if |xs| > 0 {
      CollectAll(xs[1..], keep, make);
    }
  }

  /** The first `n` elements, or all of them: `slice(0, n)`. */
  function Take<A>(xs: seq<A>, n: nat): (r: seq<A>)
    ensures |xs| <= n ==> r == xs
    ensures |xs| > n ==> |r| == n
    ensures r == xs[..|r|]
  {
    if |xs| <= n then xs else xs[..n]
  }

  /** The text of an element, or the empty (falsy) string when it is
      missing. */
  function TextOr(t: Option<string>): string
  {
    if t.Some? then t.value else ""
  }

  // ---------------------------------------------------------------------
  // scrapeForexFactory

  /** A `.calendar__row`: the trimmed texts of its event and currency cells
      and the number of impact icons, each None when the element is missing. */
  datatype CalendarRow = CalendarRow(event: Option<string>, currency: Option<string>, icons: Option<nat>)

  const ForexFactoryUrl: string := "https://www.forexfactory.com/calendar"
  const ForexFactoryLimit: nat := 20

  /** Three or more icons is HIGH, two MEDIUM, fewer or no icon element LOW. */
  function IconImpact(icons: Option<nat>): (r: Impact)
    ensures r == High <==> icons.Some? && icons.value >= 3
    ensures r == Medium <==> icons == Some(2)
    ensures r == Low <==> icons.None? || icons.value < 2
  {
    if icons.Some? && icons.value >= 3 then High
    else if icons.Some? && icons.value >= 2 then Medium
    else Low
  }

  /** A row is kept when it has both cells, a non-empty title, and either the
      currency USD or a title mentioning gold. */
  predicate KeepRow(row: CalendarRow)
  {
    && row.event.Some? && row.currency.Some?
    && |row.event.value| > 0
    && (row.currency.value == "USD" || Contains(Lower(row.event.value), "gold"))
  }

  function CalendarEvent(row: CalendarRow): (e: NewsEvent)
    ensures e.source == "ForexFactory" && e.category == "ECONOMIC_CALENDAR" && e.url == ForexFactoryUrl
    ensures e.impact == IconImpact(row.icons)
    ensures e.title == "[" + TextOr(row.currency) + "] " + TextOr(row.event)
    ensures e.content == "Forex Factory Calendar Event - " + TextOr(row.event)
    ensures TextOr(row.currency) == "USD" ==> e.symbols == ["XAUUSD", "EURUSD", "GBPUSD"]
    ensures TextOr(row.currency) != "USD" ==> e.symbols == ["XAUUSD"]
  {
    var title := TextOr(row.event);
    var currency := TextOr(row.currency);
    NewsEvent("[" + currency + "] " + title,
              "Forex Factory Calendar Event - " + title,
              "ForexFactory",
              IconImpact(row.icons),
              ForexFactoryUrl,
              "ECONOMIC_CALENDAR",
              if currency == "USD" then ["XAUUSD", "EURUSD", "GBPUSD"] else ["XAUUSD"])
  }

  /** `scrapeForexFactory`: the kept rows' events, at most 20 of them. */
  function ScrapeForexFactory(rows: Option<seq<CalendarRow>>): (r: seq<NewsEvent>)
    ensures rows.None? ==> r == []
    ensures |r| <= ForexFactoryLimit
    ensures rows.Some? ==> r == Take(Collect(rows.value, KeepRow, CalendarEvent), ForexFactoryLimit)
    ensures forall e :: e in r ==> e.source == "ForexFactory"
  {
    if rows.None? then []
    else
      var items := Collect(rows.value, KeepRow, CalendarEvent);
      var r := Take(items, ForexFactoryLimit);
      assert forall e :: e in r ==> e in items by {
        forall e | e in r
          ensures e in items
        {
          var i :| 0 <= i < |r| && r[i] == e;
          assert items[i] == e;
        }
      }
      r
  }

  /** A USD row is kept whatever its title mentions, and a gold row whatever
      its currency, as long as the title is not empty. */
  lemma KeepRowExamples(title: string, currency: string, icons: Option<nat>)
    requires |title| > 0
    ensures KeepRow(CalendarRow(Some(title), Some("USD"), icons))
    ensures Contains(Lower(title), "gold") ==> KeepRow(CalendarRow(Some(title), Some(currency), icons))
    ensures !KeepRow(CalendarRow(Some(""), Some("USD"), icons))
    ensures !KeepRow(CalendarRow(None, Some("USD"), icons))
  {
  }

  // ---------------------------------------------------------------------
  // scrapeInvesting and scrapeDailyFX

  /** An article: the trimmed text of its title link and its `href`. */
  datatype Article = Article(title: Option<string>, link: Option<string>)

  const MaxTitle: nat := 200
  const InvestingUrl: string := "https://www.investing.com/news/forex-news"
  const InvestingExamined: nat := 15
  const InvestingKeywords: seq<string> := ["gold", "usd", "fed", "inflation"]
  const DailyFxUrl: string := "https://www.dailyfx.com/news"
  const DailyFxExamined: nat := 10
  const DailyFxKeywords: seq<string> := ["gold", "xau", "precious"]

  /** `title.substring(0, 200)`. */
  function Truncate(title: string): (r: string)
    ensures |r| <= MaxTitle && |r| <= |title|
    ensures r == title[..|r|]
    ensures |title| <= MaxTitle ==> r == title
  {
    if |title| <= MaxTitle then title else title[..MaxTitle]
  }

  /** The article link made absolute on `host`, or the page URL when the
      article has no (or an empty) `href`. */
  function ArticleUrl(host: string, link: Option<string>, page: string): string
  {
    if link.Some? && |link.value| > 0 then host + link.value else page
  }

  /** An article title that is present, not empty, and mentions one of the
      source's keywords in lower case. */
  predicate Relevant(a: Article, keywords: seq<string>)
  {
    a.title.Some? && |a.title.value| > 0 && ContainsAny(Lower(a.title.value), keywords)
  }

  predicate InvestingRelevant(a: Article)
  {
    Relevant(a, InvestingKeywords)
  }

  predicate DailyFxRelevant(a: Article)
  {
    Relevant(a, DailyFxKeywords)
  }

  /** The impact is classified on the whole title, before truncation. */
  function InvestingEvent(a: Article): (e: NewsEvent)
    ensures e.source == "Investing.com" && e.category == "MARKET_NEWS" && e.symbols == ["XAUUSD"]
    ensures e.title == Truncate(TextOr(a.title))
    ensures e.content == "Investing.com News: " + TextOr(a.title)
    ensures e.impact == ImpactFromTitle(TextOr(a.title))
  {
    var title := TextOr(a.title);
    NewsEvent(Truncate(title), "Investing.com News: " + title, "Investing.com",
              ImpactFromTitle(title), ArticleUrl("https://www.investing.com", a.link, InvestingUrl),
              "MARKET_NEWS", ["XAUUSD"])
  }

  function DailyFxEvent(a: Article): (e: NewsEvent)
    ensures e.source == "DailyFX" && e.category == "TECHNICAL_ANALYSIS" && e.symbols == ["XAUUSD"]
    ensures e.title == Truncate(TextOr(a.title))
    ensures e.content == "DailyFX Analysis: " + TextOr(a.title)
    ensures e.impact == Medium
  {
    var title := TextOr(a.title);
    NewsEvent(Truncate(title), "DailyFX Analysis: " + title, "DailyFX", Medium,
              ArticleUrl("https://www.dailyfx.com", a.link, DailyFxUrl),
              "TECHNICAL_ANALYSIS", ["XAUUSD"])
  }

  /** `scrapeInvesting`: the relevant ones among the first 15 articles. */
  function ScrapeInvesting(articles: Option<seq<Article>>): (r: seq<NewsEvent>)
    ensures articles.None? ==> r == []
    ensures |r| <= InvestingExamined
    ensures articles.Some? ==> r == Collect(Take(articles.value, InvestingExamined), InvestingRelevant, InvestingEvent)
    ensures forall e :: e in r ==> e.source == "Investing.com" && |e.title| <= MaxTitle
  {
    if articles.None? then []
    else Collect(Take(articles.value, InvestingExamined), InvestingRelevant, InvestingEvent)
  }

  /** `scrapeDailyFX`: the relevant ones among the first 10 articles, all of
      MEDIUM impact. */
  function ScrapeDailyFx(articles: Option<seq<Article>>): (r: seq<NewsEvent>)
    ensures articles.None? ==> r == []
    ensures |r| <= DailyFxExamined
    ensures articles.Some? ==> r == Collect(Take(articles.value, DailyFxExamined), DailyFxRelevant, DailyFxEvent)
    ensures forall e :: e in r ==> e.source == "DailyFX" && e.impact == Medium && |e.title| <= MaxTitle
  {
    if articles.None? then []
    else Collect(Take(articles.value, DailyFxExamined), DailyFxRelevant, DailyFxEvent)
  }

  /** An article past the fifteenth is never looked at: appending articles
      after fifteen leaves the Investing items unchanged. */
  lemma InvestingIgnoresLater(articles: seq<Article>, later: seq<Article>)
    requires |articles| >= InvestingExamined
    ensures ScrapeInvesting(Some(articles + later)) == ScrapeInvesting(Some(articles))
  {
    assert (articles + later)[..InvestingExamined] == articles[..InvestingExamined];
  }

  // ---------------------------------------------------------------------
  // The handler's summary

  /** `filter(n => n.impact === 'HIGH').length`. */
  function HighImpactCount(items: seq<NewsEvent>): (n: nat)
    ensures n <= |items|
    ensures n == 0 <==> forall i :: 0 <= i < |items| ==> items[i].impact != High
  {
    if |items| == 0 then 0
    else (if items[0].impact == High then 1 else 0) + HighImpactCount(items[1..])
  }

  lemma {:induction false} HighImpactAppend(a: seq<NewsEvent>, b: seq<NewsEvent>)
    ensures HighImpactCount(a + b) == HighImpactCount(a) + HighImpactCount(b)
  {
    if |a| == 0 {
      assert a + b == b;
    } else {
      assert (a + b)[1..] == a[1..] + b;
      HighImpactAppend(a[1..], b);
    }
  }

  /** What the handler reports after scraping the three sources in order. */
  datatype ScrapeReport = ScrapeReport(
    items: seq<NewsEvent>,
    sourcesScraped: nat,
    totalArticles: nat,
    highImpactEvents: nat,
    patch: string)

  function Scrape(ff: Option<seq<CalendarRow>>, investing: Option<seq<Article>>,
                  dailyFx: Option<seq<Article>>): (r: ScrapeReport)
    ensures r.items == ScrapeForexFactory(ff) + ScrapeInvesting(investing) + ScrapeDailyFx(dailyFx)
    ensures r.sourcesScraped == 3
    ensures r.totalArticles == |r.items| <= ForexFactoryLimit + InvestingExamined + DailyFxExamined
    ensures r.highImpactEvents == HighImpactCount(r.items) <= r.totalArticles
    ensures r.patch == "News scraping completed: " + NatToString(r.totalArticles) + " articles"
  {
    var items := ScrapeForexFactory(ff) + ScrapeInvesting(investing) + ScrapeDailyFx(dailyFx);
    ScrapeReport(items, 3, |items|, HighImpactCount(items),
                 "News scraping completed: " + NatToString(|items|) + " articles")
  }

  /** DailyFX items are always MEDIUM, so the high-impact events all come from
      the calendar and Investing.com. */
  lemma HighImpactSources(ff: Option<seq<CalendarRow>>, investing: Option<seq<Article>>,
                          dailyFx: Option<seq<Article>>)
    ensures Scrape(ff, investing, dailyFx).highImpactEvents
      == HighImpactCount(ScrapeForexFactory(ff)) + HighImpactCount(ScrapeInvesting(investing))
  {
    var a := ScrapeForexFactory(ff);
    var b := ScrapeInvesting(investing);
    var c := ScrapeDailyFx(dailyFx);
    HighImpactAppend(a + b, c);
    HighImpactAppend(a, b);
    assert forall i :: 0 <= i < |c| ==> c[i].impact != High by {
      forall i | 0 <= i < |c|
        ensures c[i].impact != High
      {
        assert c[i] in c;
      }
    }
  }

  /** A failed source contributes nothing: with every fetch failing the
      report is of zero articles. */
  lemma AllSourcesFailed()
    ensures Scrape(None, None, None).items == []
    ensures Scrape(None, None, None).highImpactEvents == 0
  {
  }
}
