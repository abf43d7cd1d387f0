/** The AI service (services/geminiService.ts): canned fallbacks, the
    weather-code table, fence stripping of model output, field defaulting of
    a price prediction and the chat round trip with one weather tool call.
    Every call to the AI backend, the geocoder and the weather API is an
    input: the value it resolved with, or `Threw`. */
module GeminiService {

  import opened Types
  import opened Strings

  const DUMMY_LEAF_RESULT: DiseaseResult := DiseaseResult(
    None,
    "Leaf Blight",
    87,
    "Mancozeb 2g/L spray. Ensure proper drainage to reduce moisture.",
    "मैंकोजेब 2 ग्राम/लीटर का छिड़काव करें। नमी कम करने के लिए उचित जल निकासी सुनिश्चित करें।",
    false)

  const DUMMY_PRICE_PREDICTION: PricePrediction :=
    PricePrediction("Wheat", 2250, 2310, Stable, Hold, "Bhopal", true)

  const WMO_CODES: map<int, string> := map[
    0 := "Clear sky", 1 := "Mainly clear", 2 := "Partly cloudy", 3 := "Overcast",
    45 := "Fog", 48 := "Depositing rime fog",
    51 := "Light drizzle", 53 := "Moderate drizzle", 55 := "Dense drizzle",
    61 := "Slight rain", 63 := "Moderate rain", 65 := "Heavy rain",
    71 := "Slight snow", 80 := "Slight showers", 95 := "Thunderstorm"]

  /** A known weather code maps to its label, any other code to "Unknown". */
  function ConditionLabel(code: int): (r: string)
    ensures code in WMO_CODES ==> r == WMO_CODES[code]
    ensures code !in WMO_CODES ==> r == "Unknown"
  {
    LabelOr(WMO_CODES, code)
  }

  /** The labels of the daily codes, position by position. */
  function ConditionLabels(codes: seq<int>): (r: seq<string>)
    ensures |r| == |codes|
    ensures forall i | 0 <= i < |codes| :: r[i] == ConditionLabel(codes[i])
  {
    if codes == [] then [] else [ConditionLabel(codes[0])] + ConditionLabels(codes[1..])
  }

  /** The model text with every "```json" and then every "```" removed. */
  function Unfenced(text: string): (r: string)
    ensures !Contains(r, Fence) && !Contains(r, "```json")
  {
    var r := RemoveAll(RemoveAll(text, "```json"), Fence);
    RemoveFencesLeavesNone(RemoveAll(text, "```json"));
    FencePrefixOfJsonFence(r);
    r
  }

  /** `cleanJson`: "{}" for an empty (or absent) text; otherwise the
      unfenced text with surrounding white space cut off, which holds no
      fence at all. */
  function CleanJson(text: string): (r: string)
    ensures text == "" ==> r == "{}"
    ensures text != "" ==> TrimmedFrom(Unfenced(text), r, |Unfenced(text)| - |TrimStart(Unfenced(text))|)
    ensures text != "" ==> !Contains(r, Fence) && !Contains(r, "```json")
    ensures text != "" && r != [] ==> !IsSpace(r[0]) && !IsSpace(r[|r| - 1])
  {
    if text == "" then "{}"
    else
      TrimKeepsNoFence(Unfenced(text));
      Trim(Unfenced(text))
  }

  /** Trimming a fence-free text keeps it fence-free. */
  lemma TrimKeepsNoFence(u: string)
    requires !Contains(u, Fence)
    ensures !Contains(Trim(u), Fence) && !Contains(Trim(u), "```json")
  {
    var r := Trim(u);
    var i := |u| - |TrimStart(u)|;
    assert TrimmedFrom(u, r, i);
    SliceKeepsNoFence(u, i, i + |r|);
    FencePrefixOfJsonFence(r);
  }

  /** "```json" starts with a fence, so a fence-free text holds neither. */
  lemma FencePrefixOfJsonFence(r: string)
    requires !Contains(r, Fence)
    ensures !Contains(r, "```json")
  {
    forall i | 0 <= i <= |r| ensures !OccursAt(r, "```json", i) {
      if OccursAt(r, "```json", i) {
        assert r[i..i + 3] == r[i..i + 7][..3];
        assert OccursAt(r, Fence, i);
      }
    }
  }

  /** `checkApiKey`: a key is configured when it is present and non-empty. */
  function CheckApiKey(apiKey: Option<string>): (r: bool)
    ensures r <==> apiKey.Some? && |apiKey.value| > 0
  {
    apiKey.Some? && apiKey.value != ""
  }

  /** `analyzeLeafImage`: the model's diagnosis, or the canned blight when no
      key is configured or the call fails or times out. */
  function AnalyzeLeafImage(apiKey: Option<string>, reply: Outcome<DiseaseResult>): (r: DiseaseResult)
    ensures !CheckApiKey(apiKey) || reply.Threw? ==> r == DUMMY_LEAF_RESULT
    ensures CheckApiKey(apiKey) && reply.Returned? ==> r == reply.value
  {
    if !CheckApiKey(apiKey) then DUMMY_LEAF_RESULT
    else match reply
      case Returned(d) => d
      case Threw => DUMMY_LEAF_RESULT
  }

  /** The canned diagnosis is an unhealthy leaf blight at 87 percent, and it
      carries no leaf flag. */
  lemma DummyLeafIsBlight()
    ensures DUMMY_LEAF_RESULT.confidence == 87 && !DUMMY_LEAF_RESULT.isHealthy
    ensures DUMMY_LEAF_RESULT.isLeaf.None?
  {
  }

  /** The fields the price model may return; `None` for a field that is
      absent. */
  datatype PricePayload = PricePayload(
    currentPrice: Option<int>,
    predictedPrice: Option<int>,
    trend: Option<Trend>,
    recommendation: Option<Recommendation>,
    nearestMandi: Option<string>)

  /** `predictCropPrice`. Without a key: the demo template, crop and market
      defaulted when empty. On a live reply: every falsy field takes its
      default. When the call or the parse throws: the demo template with the
      inputs copied verbatim. */
  function PredictCropPrice(apiKey: Option<string>, crop: string, district: string,
                            reply: Outcome<PricePayload>): (r: PricePrediction)
    ensures r.isDemo <==> !CheckApiKey(apiKey) || reply.Threw?
    ensures r.isDemo ==> r.currentPrice == 2250 && r.predictedPrice == 2310
                         && r.trend == Stable && r.recommendation == Hold
    ensures !CheckApiKey(apiKey) ==> r.crop == OrStr(Some(crop), "Wheat")
                                      && r.nearestMandi == OrStr(Some(district), "Local Mandi")
    ensures CheckApiKey(apiKey) ==> r.crop == crop
    ensures CheckApiKey(apiKey) && reply.Threw? ==> r.nearestMandi == district
    ensures CheckApiKey(apiKey) && reply.Returned? ==>
              var p := reply.value;
              && r.currentPrice == OrInt(p.currentPrice, 2000)
              && r.predictedPrice == OrInt(p.predictedPrice, 2100)
              && r.trend == (if p.trend.Some? then p.trend.value else Stable)
              && r.recommendation == (if p.recommendation.Some? then p.recommendation.value else Hold)
              && r.nearestMandi == OrStr(p.nearestMandi, district)
  {
    if !CheckApiKey(apiKey) then
      DUMMY_PRICE_PREDICTION.(crop := OrStr(Some(crop), "Wheat"),
                              nearestMandi := OrStr(Some(district), "Local Mandi"),
                              isDemo := true)
    else match reply
      case Threw =>
        DUMMY_PRICE_PREDICTION.(crop := crop, nearestMandi := district, isDemo := true)
      case Returned(p) =>
        PricePrediction(
          crop,
          OrInt(p.currentPrice, 2000),
          OrInt(p.predictedPrice, 2100),
          if p.trend.Some? then p.trend.value else Stable,
          if p.recommendation.Some? then p.recommendation.value else Hold,
          OrStr(p.nearestMandi, district),
          false)
  }

  /** Whatever the path, a non-empty crop is reported as asked, prices are
      never zero, and a non-empty district never yields an empty market. */
  lemma PredictionNeverFalsy(apiKey: Option<string>, crop: string, district: string,
                             reply: Outcome<PricePayload>)
    requires crop != ""
    ensures var r := PredictCropPrice(apiKey, crop, district, reply);
            r.crop == crop && r.currentPrice != 0 && r.predictedPrice != 0
            && (district != "" ==> r.nearestMandi != "")
  {
  }

  // ---- Chat ----

  datatype Role = UserRole | ModelRole

  /** A message of the transcript as the screen hands it over. */
  datatype HistoryEntry = HistoryEntry(role: Role, content: string)

  /** A turn of the chat history given to the backend. */
  datatype Turn = Turn(role: Role, text: string)

  datatype WebSource = WebSource(title: Option<string>, uri: string)
  datatype GroundingChunk = GroundingChunk(web: Option<WebSource>)
  datatype Grounding = Grounding(chunks: Option<seq<GroundingChunk>>)

  /** A function call the backend asks for; `location` is `args.location`. */
  datatype FunctionCall = FunctionCall(name: string, location: Option<string>, id: string)

  /** A backend reply: its text ("" when absent), the function calls it asks
      for ([] when absent) and the grounding of its first candidate. */
  datatype BackendReply = BackendReply(text: string, functionCalls: seq<FunctionCall>,
                                       grounding: Option<Grounding>)

  /** What the chat screen receives. */
  datatype ChatReply = ChatReply(text: string, grounding: Option<Grounding>)

  /** The first geocoding match. */
  datatype Place = Place(latitude: real, longitude: real, name: string, admin1: Option<string>)

  /** The current and daily readings of the weather API. */
  datatype LiveWeather = LiveWeather(
    tempC: real, humidity: real, windKmh: real, code: int,
    dates: seq<string>, maxTemp: seq<real>, minTemp: seq<real>, rainMm: seq<real>,
    dailyCodes: seq<int>)

  /** The payload sent back for the weather tool. */
  datatype ToolResult =
    | ServiceUnavailable
    | LocationNotFound
    | WeatherReport(
        location: string, tempC: real, humidity: real, windKmh: real, condition: string,
        dates: seq<string>, maxTemp: seq<real>, minTemp: seq<real>, rainMm: seq<real>,
        conditions: seq<string>)

  /** The outgoing steps of one chat response, in order. */
  datatype BackendStep =
    | CreateChat(turns: seq<Turn>, lat: real, lon: real)
    | SendText(message: string)
    | Geocode(query: string)
    | FetchLiveWeather(lat: real, lon: real)
    | SendFunctionResponse(name: string, result: ToolResult, id: string)

  const WEATHER_TOOL: string := "get_current_weather"
  const BHOPAL: Coords := Coords(23.2599, 77.4126)

  const DEMO_CHAT_HI := "यह एक डेमो प्रतिक्रिया है। एआई सेवाएँ वर्तमान में अनुपलब्ध हैं।"
  const DEMO_CHAT_EN := "This is a demo response. AI services are currently unavailable."
  const APOLOGY_HI := "क्षमा करें, मैं अभी जवाब नहीं दे सकता।"
  const APOLOGY_EN := "Sorry, I am unable to answer right now."

  function DemoChatText(lang: Language): string
  {
    if lang == Hi then DEMO_CHAT_HI else DEMO_CHAT_EN
  }

  function ApologyText(lang: Language): string
  {
    if lang == Hi then APOLOGY_HI else APOLOGY_EN
  }

  /** The history handed to the backend: same roles, an empty content sent as
      a single space. */
  function ChatTurns(history: seq<HistoryEntry>): (r: seq<Turn>)
    ensures |r| == |history|
    ensures forall i | 0 <= i < |history| ::
              r[i].role == history[i].role
              && r[i].text == (if history[i].content == "" then " " else history[i].content)
  {
    if history == [] then []
    else [Turn(history[0].role, OrStr(Some(history[0].content), " "))] + ChatTurns(history[1..])
  }

  /** The backend asked for the weather tool: its first call, and only its
      first, is named `get_current_weather`. */
  predicate AsksForWeather(reply: BackendReply)
  {
    |reply.functionCalls| > 0 && reply.functionCalls[0].name == WEATHER_TOOL
  }

  /** The report built from a geocoding match and a weather reading. */
  function Report(place: Place, w: LiveWeather): (t: ToolResult)
    ensures t.WeatherReport? && t.location == place.name + ", " + OrStr(place.admin1, "")
    ensures t.condition == ConditionLabel(w.code) && t.conditions == ConditionLabels(w.dailyCodes)
    ensures t.tempC == w.tempC && t.humidity == w.humidity && t.windKmh == w.windKmh
    ensures t.dates == w.dates && t.maxTemp == w.maxTemp && t.minTemp == w.minTemp && t.rainMm == w.rainMm
  {
    WeatherReport(
      place.name + ", " + OrStr(place.admin1, ""),
      w.tempC, w.humidity, w.windKmh, ConditionLabel(w.code),
      w.dates, w.maxTemp, w.minTemp, w.rainMm, ConditionLabels(w.dailyCodes))
  }

  /** The tool payload a lookup ends with: nothing found, a failure at either
      lookup, or the report. */
  function ToolPayload(geocode: Outcome<seq<Place>>, weather: Outcome<LiveWeather>): (t: ToolResult)
    ensures t == LocationNotFound <==> geocode == Returned([])
    ensures t == ServiceUnavailable <==> geocode.Threw? || (geocode.Returned? && geocode.value != [] && weather.Threw?)
    ensures t.WeatherReport? <==> geocode.Returned? && geocode.value != [] && weather.Returned?
    ensures t.WeatherReport? ==> t == Report(geocode.value[0], weather.value)
  {
    match geocode
    case Threw => ServiceUnavailable
    case Returned(places) =>
      if places == [] then LocationNotFound
      else match weather
        case Threw => ServiceUnavailable
        case Returned(w) => Report(places[0], w)
  }

  /** `getChatResponse`. `first` and `second` are the backend's replies to
      the user's message and to the function response; `geocode` and
      `weather` are the two lookups of the weather tool. Returns the reply
      and the outgoing steps taken, in order. */
  method GetChatResponse(apiKey: Option<string>, history: seq<HistoryEntry>, message: string,
                         userLocation: string, coords: Option<Coords>, lang: Language,
                         first: Outcome<BackendReply>, geocode: Outcome<seq<Place>>,
                         weather: Outcome<LiveWeather>, second: Outcome<BackendReply>)
    returns (reply: ChatReply, steps: seq<BackendStep>)
    // Without a key: the demo text, and nothing is sent.
    ensures !CheckApiKey(apiKey) ==> reply == ChatReply(DemoChatText(lang), None) && steps == []
    // With a key: the chat opens on the history at the given or default
    // position, and the message goes first.
    ensures CheckApiKey(apiKey) ==>
              var at := if coords.Some? then coords.value else BHOPAL;
              |steps| >= 2 && steps[0] == CreateChat(ChatTurns(history), at.lat, at.lon)
              && steps[1] == SendText(message)
    ensures CheckApiKey(apiKey) && first.Threw? ==>
              reply == ChatReply(ApologyText(lang), None) && |steps| == 2
    ensures CheckApiKey(apiKey) && first.Returned? && !AsksForWeather(first.value) ==>
              reply == ChatReply(first.value.text, first.value.grounding) && |steps| == 2
    // The tool round trip: look up the requested place (or the user's),
    // then answer under the same name and call id, last of all.
    ensures CheckApiKey(apiKey) && first.Returned? && AsksForWeather(first.value) ==>
              var call := first.value.functionCalls[0];
              && |steps| == (if geocode.Returned? && geocode.value != [] then 5 else 4)
              && steps[2] == Geocode(OrStr(call.location, userLocation))
              && (|steps| == 5 ==> steps[3] == FetchLiveWeather(geocode.value[0].latitude, geocode.value[0].longitude))
              && steps[|steps| - 1] == SendFunctionResponse(WEATHER_TOOL, ToolPayload(geocode, weather), call.id)
              && reply == (match second
                           case Threw => ChatReply(ApologyText(lang), None)
                           case Returned(b) => ChatReply(b.text, b.grounding))
  {
    if !CheckApiKey(apiKey) {
      reply := ChatReply(DemoChatText(lang), None);
      steps := [];
      return;
    }
    var at := if coords.Some? then coords.value else BHOPAL;
    steps := [CreateChat(ChatTurns(history), at.lat, at.lon), SendText(message)];
    if first.Threw? {
      reply := ChatReply(ApologyText(lang), None);
      return;
    }
    var result := first.value;
    var calls := result.functionCalls;
    if |calls| > 0 {
      var call := calls[0];
      if call.name == WEATHER_TOOL {
        var locQuery := OrStr(call.location, userLocation);
        var weatherData := ServiceUnavailable;
        steps := steps + [Geocode(locQuery)];
        if geocode.Returned? {
          if |geocode.value| > 0 {
            var place := geocode.value[0];
            steps := steps + [FetchLiveWeather(place.latitude, place.longitude)];
            if weather.Returned? {
              weatherData := Report(place, weather.value);
            }
          } else {
            weatherData := LocationNotFound;
          }
        }
        steps := steps + [SendFunctionResponse(WEATHER_TOOL, weatherData, call.id)];
        if second.Threw? {
          reply := ChatReply(ApologyText(lang), None);
          return;
        }
        result := second.value;
      }
    }
    reply := ChatReply(result.text, result.grounding);
  }
}
