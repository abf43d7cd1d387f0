/** The dashboard controller (pages/Dashboard.tsx): the weather card's
    coordinate choice, the news load, the category filter and the split of
    the filtered news into a featured article and a grid. */
module Dashboard {

  import opened Types
  import WeatherService
  import NewsService

  /** The category tabs: "All" and one per news category shown. */
  datatype Tab = AllTab | SchemeTab | MarketTab | TechTab

  function TabCategory(tab: Tab): Category
    requires tab != AllTab
  {
    match tab
    case SchemeTab => Scheme
    case MarketTab => Market
    case TechTab => Tech
  }

  /** How many articles of `news` have category `c`. */
  function CountOf(news: seq<NewsArticle>, c: Category): nat
  {
    if news == [] then 0 else (if news[0].category == c then 1 else 0) + CountOf(news[1..], c)
  }

  /** `a` is `b` with some elements left out, order kept. */
  predicate IsSubsequence(a: seq<NewsArticle>, b: seq<NewsArticle>)
    decreases |b|
  {
    if a == [] then true
    else if b == [] then false
    else (a[0] == b[0] && IsSubsequence(a[1..], b[1..])) || IsSubsequence(a, b[1..])
  }

  /** `news.filter(article => article.category === c)`. */
  function OfCategory(news: seq<NewsArticle>, c: Category): (r: seq<NewsArticle>)
    ensures IsSubsequence(r, news)
    ensures forall i | 0 <= i < |r| :: r[i].category == c
    ensures |r| == CountOf(news, c)
  {
    if news == [] then []
    else
      var rest := OfCategory(news[1..], c);
      if news[0].category == c then
        var r := [news[0]] + rest;
        assert r[1..] == rest;
        r
      else rest
  }

  /** A subsequence of articles all of category `c` is no longer than the
      number of such articles. */
  lemma {:induction false} SubsequenceCount(r: seq<NewsArticle>, news: seq<NewsArticle>, c: Category)
    requires IsSubsequence(r, news)
    requires forall i | 0 <= i < |r| :: r[i].category == c
    ensures |r| <= CountOf(news, c)
    decreases |news|
  {
    if r != [] {
      if r[0] == news[0] && IsSubsequence(r[1..], news[1..]) {
        SubsequenceCount(r[1..], news[1..], c);
      } else {
        SubsequenceCount(r, news[1..], c);
      }
    }
  }

  /** The filter is pinned down by its contract: the articles of `c`, all of
      them, in their original order, are unique. */
  lemma {:induction false} OfCategoryUnique(r: seq<NewsArticle>, news: seq<NewsArticle>, c: Category)
    requires IsSubsequence(r, news)
    requires forall i | 0 <= i < |r| :: r[i].category == c
    requires |r| == CountOf(news, c)
    ensures r == OfCategory(news, c)
    decreases |news|
  {
    if news != [] {
      var x := news[0];
      if x.category == c {
        if r != [] && r[0] == x && IsSubsequence(r[1..], news[1..]) {
          OfCategoryUnique(r[1..], news[1..], c);
          assert r == [x] + r[1..];
        } else {
          SubsequenceCount(r, news[1..], c);
          assert false;
        }
      } else {
        assert r == [] || IsSubsequence(r, news[1..]);
        OfCategoryUnique(r, news[1..], c);
      }
    }
  }

  /** The filter effect: the whole list under "All", else the articles of
      the tab's category. */
  function FilterNews(tab: Tab, news: seq<NewsArticle>): (r: seq<NewsArticle>)
    ensures tab == AllTab ==> r == news
    ensures tab != AllTab ==> r == OfCategory(news, TabCategory(tab))
  {
    if tab == AllTab then news else OfCategory(news, TabCategory(tab))
  }

  /** The featured card: the first filtered article, under "All" only. */
  function Featured(tab: Tab, filtered: seq<NewsArticle>): (r: Option<NewsArticle>)
    ensures r.Some? <==> tab == AllTab && filtered != []
    ensures r.Some? ==> r.value == filtered[0]
  {
    if tab == AllTab && filtered != [] then Some(filtered[0]) else None
  }

  /** The grid: `filtered.slice(tab == All ? 1 : 0)`. */
  function Grid(tab: Tab, filtered: seq<NewsArticle>): (r: seq<NewsArticle>)
    ensures tab != AllTab ==> r == filtered
    ensures tab == AllTab ==> |r| == if filtered == [] then 0 else |filtered| - 1
  {
    var start := if tab == AllTab then 1 else 0;
    if |filtered| < start then [] else filtered[start..]
  }

  /** Featured card first, then the grid, shows every filtered article
      exactly once, in order. */
  lemma ShownExactlyOnce(tab: Tab, filtered: seq<NewsArticle>)
    ensures var f := Featured(tab, filtered);
            (if f.Some? then [f.value] else []) + Grid(tab, filtered) == filtered
  {
    if tab == AllTab && filtered != [] {
      assert [filtered[0]] + filtered[1..] == filtered;
    }
  }

  /** The news part of the screen state. */
  datatype NewsView = NewsView(news: seq<NewsArticle>, filtered: seq<NewsArticle>, tab: Tab)

  /** What the screen shows agrees with the active tab. */
  predicate Consistent(v: NewsView)
  {
    v.filtered == FilterNews(v.tab, v.news)
  }

  /** `loadNews` as written: both lists are replaced by the fetched one, and
      the filter effect re-runs only if `news` changed; fetching the list
      already shown leaves the unfiltered list on screen. */
  function NewsLoadedAsWritten(v: NewsView, code: string): (r: NewsView)
    ensures r.news == NewsService.FetchAgriNews(code) && r.tab == v.tab
    ensures r.news != v.news ==> Consistent(r)
    ensures r.news == v.news ==> r.filtered == r.news
  {
    var articles := NewsService.FetchAgriNews(code);
    if articles != v.news then NewsView(articles, FilterNews(v.tab, articles), v.tab)
    else NewsView(articles, articles, v.tab)
  }

  /** Reloading the same language with the Market tab active leaves all three
      articles on screen under that tab. */
  lemma ReloadShowsUnfilteredNews()
    ensures var v := NewsView(NewsService.MOCK_NEWS_EN,
                              FilterNews(MarketTab, NewsService.MOCK_NEWS_EN), MarketTab);
            var r := NewsLoadedAsWritten(v, "en");
            Consistent(v) && !Consistent(r) && |r.filtered| == 3
  {
    var en := NewsService.MOCK_NEWS_EN;
    assert en[3..] == [];
    assert CountOf(en[2..], Market) == 0;
    assert CountOf(en, Market) == 1;
  }

  /** `loadNews` as intended: the fetched list, filtered by the active tab. */
  function NewsLoaded(v: NewsView, code: string): (r: NewsView)
    ensures Consistent(r)
    ensures r.news == NewsService.FetchAgriNews(code) && r.tab == v.tab
    ensures r.tab == AllTab ==> r.filtered == r.news
  {
    var articles := NewsService.FetchAgriNews(code);
    NewsView(articles, FilterNews(v.tab, articles), v.tab)
  }

  /** Where the two differ, the version as written is inconsistent, and
      otherwise they agree. */
  lemma AsWrittenDiffersOnlyWhenStale(v: NewsView, code: string)
    requires Consistent(v)
    ensures NewsLoadedAsWritten(v, code) != NewsLoaded(v, code) ==>
              NewsService.FetchAgriNews(code) == v.news && v.tab != AllTab
              && !Consistent(NewsLoadedAsWritten(v, code))
  {
  }

  /** The coordinates `loadWeather` passes: the fix, when location is on and
      one was obtained, else undefined. */
  function WeatherQuery(locationEnabled: bool, fix: Option<Coords>): (r: (Option<real>, Option<real>))
    ensures r.0.Some? <==> locationEnabled && fix.Some?
    ensures r.0.Some? <==> r.1.Some?
    ensures r.0.Some? ==> r.0.value == fix.value.lat && r.1.value == fix.value.lon
  {
    if locationEnabled && fix.Some? then (Some(fix.value.lat), Some(fix.value.lon)) else (None, None)
  }

  /** With location off, or without a fix, the dashboard shows demo weather
      whatever the weather API would have said. */
  lemma NoFixMeansDemo(locationEnabled: bool, fix: Option<Coords>,
                       response: Outcome<WeatherService.HttpResponse>)
    requires !locationEnabled || fix.None?
    ensures var q := WeatherQuery(locationEnabled, fix);
            WeatherService.FetchWeather(q.0, q.1, response) == WeatherService.DEMO_WEATHER
  {
  }

  /** The dashboard's state. */
  class DashboardScreen {
    var weather: Option<WeatherData>
    var news: seq<NewsArticle>
    var filteredNews: seq<NewsArticle>
    var activeCategory: Tab
    var loadingWeather: bool
    var loadingNews: bool

    function View(): NewsView
      reads this
    {
      NewsView(news, filteredNews, activeCategory)
    }

    predicate Valid()
      reads this
    {
      Consistent(View())
    }

    constructor ()
      ensures weather.None? && news == [] && filteredNews == [] && activeCategory == AllTab
      ensures !loadingWeather && !loadingNews
      ensures Valid()
    {
      weather := None;
      news := [];
      filteredNews := [];
      activeCategory := AllTab;
      loadingWeather := false;
      loadingNews := false;
    }

    /** `loadWeather`: `fix` is what the position prompt resolved with (it is
        asked only when location is on), `response` the weather call. Returns
        the coordinates passed to the weather service. */
    method LoadWeather(locationEnabled: bool, fix: Option<Coords>,
                       response: Outcome<WeatherService.HttpResponse>)
      returns (lat: Option<real>, lon: Option<real>)
      modifies this
      ensures (lat, lon) == WeatherQuery(locationEnabled, fix)
      ensures weather == Some(WeatherService.FetchWeather(lat, lon, response)) && !loadingWeather
      ensures View() == old(View()) && loadingNews == old(loadingNews)
    {
      loadingWeather := true;
      lat, lon := None, None;
      if locationEnabled {
        var loc := WeatherService.GetCurrentLocation(true, fix);
        if loc.Some? {
          lat, lon := Some(loc.value.lat), Some(loc.value.lon);
        }
      }
      var data := WeatherService.FetchWeather(lat, lon, response);
      weather := Some(data);
      loadingWeather := false;
    }

    /** `loadNews` as written. The filter effect depends on `news`, so it
        re-runs only when the fetched list differs from the one shown (the
        lists are module constants, so reference identity and value equality
        agree here); otherwise the unfiltered list replaces the filtered one. */
    method LoadNews(code: string)
      modifies this
      ensures View() == NewsLoadedAsWritten(old(View()), code) && !loadingNews
      ensures NewsService.FetchAgriNews(code) != old(news) || activeCategory == AllTab ==> Valid()
      ensures weather == old(weather) && loadingWeather == old(loadingWeather)
    {
      loadingNews := true;
      var articles := NewsService.FetchAgriNews(code);
      var changed := articles != news;
      news := articles;
      filteredNews := articles;
      if changed {
        filteredNews := FilterNews(activeCategory, news);
      }
      loadingNews := false;
    }

    /** A tab click followed by the filter effect. */
    method SelectCategory(tab: Tab)
      modifies this
      ensures activeCategory == tab && news == old(news) && filteredNews == FilterNews(tab, news)
      ensures Valid()
      ensures weather == old(weather) && loadingWeather == old(loadingWeather) && loadingNews == old(loadingNews)
    {
      activeCategory := tab;
      filteredNews := FilterNews(tab, news);
    }
  }
}
