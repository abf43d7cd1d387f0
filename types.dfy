/** Records and enumerations of the application (types.ts), plus the two
    wrappers the rest of the model uses for values that may be absent and for
    awaited calls that may reject. */
module Types {

  /** A value that may be absent (`undefined` / `null` in the application). */
  datatype Option<+T> = None | Some(value: T)

  /** The outcome of an awaited call: it resolved with a value, or it threw. */
  datatype Outcome<+T> = Returned(value: T) | Threw

  datatype Language = En | Hi

  /** The code under which a language is stored and looked up. */
  function Code(l: Language): string
  {
    match l
    case En => "en"
    case Hi => "hi"
  }

  /** Every consumer of the language tests `lang === 'hi'`: any other code,
      including a stray stored value, behaves as English. */
  function LanguageOf(code: string): (l: Language)
    ensures l == Hi <==> code == "hi"
  {
    if code == "hi" then Hi else En
  }

  datatype Trend = Up | Down | Stable
  datatype Recommendation = Sell | Hold
  datatype Category = Scheme | Market | Tech | WeatherNews

  datatype AppRoute =
    | Home | Login | Register | Dashboard | Soil | Leaf
    | Fasaldaam | Chat | WeatherRoute | MapRoute

  datatype User = User(name: string, kisanId: string, phone: string, location: string)

  /** A device or fallback position. */
  datatype Coords = Coords(lat: real, lon: real)

  datatype WeatherData = WeatherData(
    temp: int,          // already rounded by the service
    condition: string,
    humidity: real,
    windSpeed: real,
    location: string,
    isDemo: bool)

  datatype NewsArticle = NewsArticle(
    id: string, title: string, description: string, imageUrl: string,
    source: string, publishedAt: string, url: string, category: Category)

  datatype PricePrediction = PricePrediction(
    crop: string,
    currentPrice: int,
    predictedPrice: int,
    trend: Trend,
    recommendation: Recommendation,
    nearestMandi: string,
    isDemo: bool)

  /** A leaf diagnosis. `isLeaf` is not part of the declared record but is
      read by the leaf screen; `None` stands for a payload without the field. */
  datatype DiseaseResult = DiseaseResult(
    isLeaf: Option<bool>,
    diseaseName: string,
    confidence: int,
    treatmentEn: string,
    treatmentHi: string,
    isHealthy: bool)

  /** The parts of a reverse-geocoding address the screens read. */
  datatype Address = Address(
    city: Option<string>, town: Option<string>, village: Option<string>,
    stateDistrict: Option<string>, county: Option<string>)

  /** `v || d` on an optional string: absent and empty are both falsy. */
  function OrStr(v: Option<string>, d: string): (r: string)
    ensures r == d || (v.Some? && r == v.value && r != "")
    ensures v.Some? && v.value != "" ==> r == v.value
  {
    if v.Some? && v.value != "" then v.value else d
  }

  /** `v || d` on an optional number: absent and zero are both falsy. */
  function OrInt(v: Option<int>, d: int): (r: int)
    ensures r == d || (v.Some? && r == v.value && r != 0)
    ensures v.Some? && v.value != 0 ==> r == v.value
  {
    if v.Some? && v.value != 0 then v.value else d
  }

  /** `obj.a || obj.b || ...` over optional strings: the first non-empty one. */
  function FirstPresent(vs: seq<Option<string>>): (r: Option<string>)
    ensures r.Some? ==> r.value != ""
    ensures r.Some? <==> exists i | 0 <= i < |vs| :: vs[i].Some? && vs[i].value != ""
    ensures r.Some? ==> exists i | 0 <= i < |vs| ::
              (vs[i] == r && forall j | 0 <= j < i :: vs[j].None? || vs[j].value == "")
  {
    if vs == [] then None
    else if vs[0].Some? && vs[0].value != "" then vs[0]
    else
      var rest := FirstPresent(vs[1..]);
      assert forall i | 1 <= i < |vs| :: vs[i] == vs[1..][i - 1];
      rest
  }

  /** The first present entry is the head when it is non-empty, and the
      first present entry of the tail otherwise. */
  lemma FirstPresentCons(v: Option<string>, vs: seq<Option<string>>)
    ensures FirstPresent([v] + vs) == if v.Some? && v.value != "" then v else FirstPresent(vs)
  {
    assert ([v] + vs)[1..] == vs;
  }

  /** `table[code] || "Unknown"`: the weather-code lookup of both services. */
  function LabelOr(table: map<int, string>, code: int): (r: string)
    ensures code in table && table[code] != "" ==> r == table[code]
    ensures !(code in table && table[code] != "") ==> r == "Unknown"
  {
    if code in table && table[code] != "" then table[code] else "Unknown"
  }
}
