/** The news service (services/newsService.ts): two canned lists, one per
    language, selected by the language code. */
module NewsService {

  import opened Types

  const IMAGE_SCHEME := "https://images.unsplash.com/photo-1595113316349-9fa4ee24f884?auto=format&fit=crop&q=80&w=400"
  const IMAGE_MARKET := "https://images.unsplash.com/photo-1550989460-0adf9ea622e2?auto=format&fit=crop&q=80&w=400"
  const IMAGE_TECH := "https://images.unsplash.com/photo-1508614589041-895b88991e3e?auto=format&fit=crop&q=80&w=400"

  const EN_SCHEME: NewsArticle :=
    NewsArticle("1", "PM-Kisan 17th Installment Released: Check Your Status",
      "The government has released the latest installment of PM-Kisan Samman Nidhi. Over 9 crore farmers to benefit.",
      IMAGE_SCHEME, "AgriNews India", "2 hours ago", "https://pmkisan.gov.in/", Scheme)

  const EN_MARKET: NewsArticle :=
    NewsArticle("2", "Soybean Prices Surge in MP Mandis as Demand Increases",
      "Market experts predict a 15% rise in soybean prices over the next month due to export demands.",
      IMAGE_MARKET, "Market Pulse", "5 hours ago", "#", Market)

  const EN_TECH: NewsArticle :=
    NewsArticle("3", "New Drone Technology for Precision Fertilizer Spraying",
      "How Indian startups are helping farmers reduce fertilizer waste using AI-powered drones.",
      IMAGE_TECH, "Tech Farmer", "1 day ago", "#", Tech)

  const HI_SCHEME: NewsArticle :=
    NewsArticle("1", "पीएम-किसान 17वीं किस्त जारी: अपना स्टेटस चेक करें",
      "सरकार ने पीएम-किसान सम्मान निधि की ताजा किस्त जारी कर दी है। 9 करोड़ से अधिक किसानों को लाभ होगा।",
      IMAGE_SCHEME, "एग्रीन्यूज इंडिया", "2 घंटे पहले", "https://pmkisan.gov.in/", Scheme)

  const HI_MARKET: NewsArticle :=
    NewsArticle("2", "मांग बढ़ने से एमपी की मंडियों में सोयाबीन की कीमतों में उछाल",
      "बाजार विशेषज्ञों का अनुमान है कि निर्यात मांग के कारण अगले महीने सोयाबीन की कीमतों में 15% की वृद्धि होगी।",
      IMAGE_MARKET, "मार्केट पल्स", "5 घंटे पहले", "#", Market)

  const HI_TECH: NewsArticle :=
    NewsArticle("3", "सटीक उर्वरक छिड़काव के लिए नई ड्रोन तकनीक",
      "भारतीय स्टार्टअप एआई-संचालित ड्रोन का उपयोग करके किसानों को उर्वरक बर्बादी कम करने में कैसे मदद कर रहे हैं।",
      IMAGE_TECH, "टेक फार्मर", "1 दिन पहले", "#", Tech)

  const MOCK_NEWS_EN: seq<NewsArticle> := [EN_SCHEME, EN_MARKET, EN_TECH]

  const MOCK_NEWS_HI: seq<NewsArticle> := [HI_SCHEME, HI_MARKET, HI_TECH]

  /** `fetchAgriNews`: the Hindi list for the code "hi", the English list for
      any other code. */
  function FetchAgriNews(code: string): (r: seq<NewsArticle>)
    ensures code == "hi" ==> r == MOCK_NEWS_HI
    ensures code != "hi" ==> r == MOCK_NEWS_EN
  {
    if code == "hi" then MOCK_NEWS_HI else MOCK_NEWS_EN
  }

  /** Two lists are translations of each other: same length, and at each
      position the same id, category, link and picture. */
  predicate Parallel(a: seq<NewsArticle>, b: seq<NewsArticle>)
  {
    |a| == |b|
    && forall i | 0 <= i < |a| ::
         a[i].id == b[i].id && a[i].category == b[i].category
         && a[i].url == b[i].url && a[i].imageUrl == b[i].imageUrl
  }

  /** Distinct ids, and the categories Scheme, Market, Tech in that order. */
  predicate WellFormedList(a: seq<NewsArticle>)
  {
    (forall i, j | 0 <= i < j < |a| :: a[i].id != a[j].id)
    && |a| == 3 && a[0].category == Scheme && a[1].category == Market && a[2].category == Tech
  }

  /** The two lists are translations of each other. */
  lemma ListsParallel()
    ensures Parallel(MOCK_NEWS_EN, MOCK_NEWS_HI)
  {
    assert EN_SCHEME.url == HI_SCHEME.url && EN_SCHEME.imageUrl == HI_SCHEME.imageUrl;
  }

  /** Whatever the language, the list has three well-formed articles, none
      of them weather news, and it parallels the other language's list. */
  lemma NewsListsAgree(code: string)
    ensures var r := FetchAgriNews(code);
            WellFormedList(r) && Parallel(r, MOCK_NEWS_EN) && Parallel(r, MOCK_NEWS_HI)
            && forall i | 0 <= i < |r| :: r[i].category != WeatherNews
  {
    ListsParallel();
    var r := FetchAgriNews(code);
    assert r[0].id == "1" && r[1].id == "2" && r[2].id == "3";
  }
}
