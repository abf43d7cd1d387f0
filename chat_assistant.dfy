/** The chat screen (pages/ChatAssistant.tsx): the transcript and its append
    discipline, the assistant's start-up weather, the outlook advice and the
    source links under a reply. */
module ChatAssistant {

  import opened Types
  import opened Strings
  import GeminiService
  import WeatherService

  /** A transcript entry; the ids derived from the clock are not modelled. */
  datatype Message = Message(role: GeminiService.Role, content: string,
                             grounding: Option<GeminiService.Grounding>)

  const WELCOME_HI := "नमस्ते! मैं माटीपुत्र सहायक हूँ। आप मुझसे मौसम, आस-पास की दुकानों, या फसल के बारे में पूछ सकते हैं।"
  const WELCOME_EN := "Namaste! I am Maatiputra Sahayak. Ask me about weather, nearby shops, crop prices, or soil health."

  function WelcomeText(lang: Language): string
  {
    if lang == Hi then WELCOME_HI else WELCOME_EN
  }

  const CONNECTION_ERROR := "Connection Error."
  const DEFAULT_LOCATION := "Indore, Madhya Pradesh"

  /** The transcript as handed to the backend: roles and contents. */
  function History(messages: seq<Message>): (r: seq<GeminiService.HistoryEntry>)
    ensures |r| == |messages|
    ensures forall i | 0 <= i < |messages| ::
              r[i] == GeminiService.HistoryEntry(messages[i].role, messages[i].content)
  {
    if messages == [] then []
    else [GeminiService.HistoryEntry(messages[0].role, messages[0].content)] + History(messages[1..])
  }

  /** What a send hands to the backend: the transcript before the new user
      message, and the message text. */
  datatype ChatRequest = ChatRequest(history: seq<GeminiService.HistoryEntry>, message: string)

  /** The model message a reply becomes; an empty text shows "...". */
  function ReplyMessage(reply: Outcome<GeminiService.ChatReply>): (m: Message)
    ensures m.role == GeminiService.ModelRole && m.content != ""
    ensures reply.Threw? ==> m == Message(GeminiService.ModelRole, CONNECTION_ERROR, None)
    ensures reply.Returned? ==>
              m.grounding == reply.value.grounding
              && m.content == (if reply.value.text == "" then "..." else reply.value.text)
  {
    match reply
    case Threw => Message(GeminiService.ModelRole, CONNECTION_ERROR, None)
    case Returned(r) => Message(GeminiService.ModelRole, OrStr(Some(r.text), "..."), r.grounding)
  }

  // ---- Outlook ----

  /** The three kinds of advice, in the order they are tried. */
  datatype Advice = RainAdvice | HeatAdvice | FineAdvice

  /** Rain in the condition, case-insensitively, wins; else heat above 35
      degrees; else fine. */
  function OutlookKind(w: WeatherData): (a: Advice)
    ensures a == RainAdvice <==> Contains(Lower(w.condition), "rain")
    ensures a == HeatAdvice <==> !Contains(Lower(w.condition), "rain") && w.temp > 35
  {
    if Contains(Lower(w.condition), "rain") then RainAdvice
    else if w.temp > 35 then HeatAdvice
    else FineAdvice
  }

  function AdviceText(lang: Language, a: Advice): string
  {
    match (lang, a)
    case (Hi, RainAdvice) => "आज छिड़काव न करें, बारिश की संभावना है।"
    case (Hi, HeatAdvice) => "तेज गर्मी: सिंचाई का ध्यान रखें।"
    case (Hi, FineAdvice) => "खेती के कामों के लिए आज का दिन अच्छा है।"
    case (En, RainAdvice) => "Avoid spraying today, rain expected."
    case (En, HeatAdvice) => "High heat: Ensure proper irrigation."
    case (En, FineAdvice) => "Great day for regular farm activities."
  }

  /** `getWeatherOutlook`: the same decision in both languages. */
  function Outlook(lang: Language, w: WeatherData): (r: string)
    ensures Contains(Lower(w.condition), "rain") ==> r == AdviceText(lang, RainAdvice)
    ensures !Contains(Lower(w.condition), "rain") && w.temp > 35 ==> r == AdviceText(lang, HeatAdvice)
    ensures !Contains(Lower(w.condition), "rain") && w.temp <= 35 ==> r == AdviceText(lang, FineAdvice)
  {
    AdviceText(lang, OutlookKind(w))
  }

  /** A lower-case "rain" in the condition survives lower-casing. */
  lemma RainAt(s: string, i: int)
    requires 0 <= i && i + 4 <= |s| && s[i..i + 4] == "rain"
    ensures Contains(Lower(s), "rain")
  {
    var l := Lower(s);
    forall k | 0 <= k < 4 ensures l[i..i + 4][k] == "rain"[k] {
      assert s[i..i + 4][k] == s[i + k];
    }
    assert l[i..i + 4] == "rain";
    assert OccursAt(l, "rain", i);
  }

  /** Every rain code of the weather table earns the rain advice, whatever
      the temperature. */
  lemma RainCodesAdviseAgainstSpraying(w: WeatherData, code: int)
    requires code in {61, 63, 65}
    requires w.condition == WeatherService.ConditionLabel(code)
    ensures OutlookKind(w) == RainAdvice
  {
    var c := w.condition;
    if code == 61 {
      assert c == "Slight rain";
      assert c[7..11] == "rain";
      RainAt(c, 7);
    } else if code == 63 {
      assert c == "Moderate rain";
      assert c[9..13] == "rain";
      RainAt(c, 9);
    } else {
      assert c == "Heavy rain";
      assert c[6..10] == "rain";
      RainAt(c, 6);
    }
  }

  /** Without an "r" followed by an "a", in either case, there is no rain. */
  lemma NoRainWithoutRA(s: string)
    requires forall i | 0 <= i < |s| - 1 :: LowerChar(s[i]) != 'r' || LowerChar(s[i + 1]) != 'a'
    ensures !Contains(Lower(s), "rain")
  {
    forall i | 0 <= i <= |s| ensures !OccursAt(Lower(s), "rain", i) {
      if i + 4 <= |s| {
        NoRainAt(s, i);
      }
    }
  }

  /** The lower-cased text at `i` is not "rain" unless its first two
      characters are an "r" and an "a". */
  lemma NoRainAt(s: string, i: int)
    requires 0 <= i && i + 4 <= |s|
    requires LowerChar(s[i]) != 'r' || LowerChar(s[i + 1]) != 'a'
    ensures !OccursAt(Lower(s), "rain", i)
  {
    RainStartsWithRA(Lower(s), i);
  }

  /** "rain" at `i` starts with an "r" and an "a". */
  lemma RainStartsWithRA(l: string, i: int)
    requires 0 <= i && i + 4 <= |l|
    ensures OccursAt(l, "rain", i) ==> l[i] == 'r' && l[i + 1] == 'a'
  {
    var w := l[i..i + 4];
    assert w[0] == l[i] && w[1] == l[i + 1];
  }

  /** The demo weather (28 degrees, clear sky) earns the fine-day advice. */
  lemma DemoWeatherIsFine()
    ensures OutlookKind(WeatherService.DEMO_WEATHER) == FineAdvice
  {
    var c := WeatherService.DEMO_WEATHER.condition;
    assert c == "Clear Sky";
    forall i | 0 <= i < |c| - 1 ensures LowerChar(c[i]) != 'r' || LowerChar(c[i + 1]) != 'a' {
      assert i == 4 ==> c[i + 1] == ' ';
    }
    NoRainWithoutRA(c);
  }

  // ---- Grounding links ----

  datatype Link = Link(title: string, uri: string)

  /** The number of chunks that have a web source. */
  function WebCount(chunks: seq<GeminiService.GroundingChunk>): nat
  {
    if chunks == [] then 0
    else (if chunks[0].web.Some? then 1 else 0) + WebCount(chunks[1..])
  }

  /** The web sources of the chunks, in order (the `filter` on `chunk.web`). */
  function WebSources(chunks: seq<GeminiService.GroundingChunk>): (w: seq<GeminiService.WebSource>)
    ensures |w| == WebCount(chunks)
  {
    if chunks == [] then []
    else if chunks[0].web.Some? then [chunks[0].web.value] + WebSources(chunks[1..])
    else WebSources(chunks[1..])
  }

  lemma WebCountPrefix(chunks: seq<GeminiService.GroundingChunk>, i: nat)
    requires 1 <= i <= |chunks|
    ensures WebCount(chunks[..i]) == (if chunks[0].web.Some? then 1 else 0) + WebCount(chunks[1..][..i - 1])
  {
    assert chunks[..i][1..] == chunks[1..][..i - 1];
  }

  /** Each chunk with a web source contributes its source at the position
      given by the number of web chunks before it: together with the length,
      `WebSources` keeps exactly those sources, in order. */
  lemma {:induction false} WebSourcesInOrder(chunks: seq<GeminiService.GroundingChunk>, i: nat)
    requires i < |chunks| && chunks[i].web.Some?
    ensures WebCount(chunks[..i]) < |WebSources(chunks)|
    ensures WebSources(chunks)[WebCount(chunks[..i])] == chunks[i].web.value
    decreases i
  {
    if i == 0 {
      assert chunks[..0] == [];
    } else {
      WebCountPrefix(chunks, i);
      WebSourcesInOrder(chunks[1..], i - 1);
    }
  }

  /** One link per chunk that has a web source, in order, titled "View Map"
      when it has no title. */
  function WebLinks(chunks: seq<GeminiService.GroundingChunk>): (r: seq<Link>)
    ensures |r| == |WebSources(chunks)|
    ensures forall k | 0 <= k < |r| ::
              r[k] == Link(OrStr(WebSources(chunks)[k].title, "View Map"), WebSources(chunks)[k].uri)
    ensures r == [] <==> forall i | 0 <= i < |chunks| :: chunks[i].web.None?
    ensures forall i | 0 <= i < |r| :: r[i].title != ""
  {
    if chunks == [] then []
    else
      var rest := WebLinks(chunks[1..]);
      assert forall i | 1 <= i < |chunks| :: chunks[i] == chunks[1..][i - 1];
      match chunks[0].web
      case None => rest
      case Some(w) => [Link(OrStr(w.title, "View Map"), w.uri)] + rest
  }

  /** `renderGroundingSources`: nothing without metadata, without chunks, or
      when no chunk has a web source; otherwise the links. */
  function GroundingLinks(metadata: Option<GeminiService.Grounding>): (r: Option<seq<Link>>)
    ensures r.Some? ==> r.value != []
    ensures r.Some? <==> metadata.Some? && metadata.value.chunks.Some?
                         && exists i | 0 <= i < |metadata.value.chunks.value| :: metadata.value.chunks.value[i].web.Some?
    ensures r.Some? ==> r.value == WebLinks(metadata.value.chunks.value)
  {
    if metadata.None? || metadata.value.chunks.None? then None
    else
      var links := WebLinks(metadata.value.chunks.value);
      if links == [] then None else Some(links)
  }

  // ---- The screen ----

  /** `!input.trim()`: the input is empty or white space only. */
  predicate Blank(input: string)
  {
    AllSpace(input)
  }

  /** The guard is the one the source writes: the trimmed input is empty. */
  lemma BlankIsEmptyTrim(input: string)
    ensures Blank(input) <==> Trim(input) == ""
  {
    TrimEmptyIffAllSpace(input);
  }

  class ChatScreen {
    var input: string
    var coords: Option<Coords>
    var weather: Option<WeatherData>
    var messages: seq<Message>
    var loading: bool

    /** The first render, in the language active at that moment. */
    constructor (lang: Language)
      ensures messages == [Message(GeminiService.ModelRole, WelcomeText(lang), None)]
      ensures input == "" && coords.None? && weather.None? && !loading
    {
      input := "";
      coords := None;
      weather := None;
      messages := [Message(GeminiService.ModelRole, WelcomeText(lang), None)];
      loading := false;
    }

    /** `initAssistant`: `fix` is the position prompt's result, `response`
        the weather call; without a fix the weather is the demo data. */
    method InitAssistant(fix: Option<Coords>, response: Outcome<WeatherService.HttpResponse>)
      modifies this
      ensures coords == (if fix.Some? then fix else old(coords))
      ensures fix.Some? ==> weather == Some(WeatherService.FetchWeather(Some(fix.value.lat), Some(fix.value.lon), response))
      ensures fix.None? ==> weather == Some(WeatherService.DEMO_WEATHER)
      ensures messages == old(messages) && input == old(input) && loading == old(loading)
    {
      var loc := WeatherService.GetCurrentLocation(true, fix);
      if loc.Some? {
        coords := loc;
        var wData := WeatherService.FetchWeather(Some(loc.value.lat), Some(loc.value.lon), response);
        weather := Some(wData);
      } else {
        var wData := WeatherService.FetchWeather(None, None, response);
        weather := Some(wData);
      }
    }

    /** Typing into the input box. */
    method SetInput(text: string)
      modifies this
      ensures input == text
      ensures messages == old(messages) && loading == old(loading) && coords == old(coords) && weather == old(weather)
    {
      input := text;
    }

    /** The synchronous half of `handleSend`: a blank input changes nothing;
        otherwise the user message is appended, the input cleared, loading
        set, and the request (history before the new message) returned. */
    method BeginSend() returns (request: Option<ChatRequest>)
      modifies this
      ensures coords == old(coords) && weather == old(weather)
      ensures Blank(old(input)) ==>
                request.None? && messages == old(messages) && input == old(input) && loading == old(loading)
      ensures !Blank(old(input)) ==>
                && request == Some(ChatRequest(History(old(messages)), old(input)))
                && messages == old(messages) + [Message(GeminiService.UserRole, old(input), None)]
                && input == "" && loading
    {
      if Blank(input) {
        return None;
      }
      var userMsg := Message(GeminiService.UserRole, input, None);
      request := Some(ChatRequest(History(messages), input));
      messages := messages + [userMsg];
      input := "";
      loading := true;
    }

    /** The asynchronous half: exactly one model message is appended, and
        loading ends. */
    method CompleteSend(reply: Outcome<GeminiService.ChatReply>)
      modifies this
      ensures messages == old(messages) + [ReplyMessage(reply)] && !loading
      ensures input == old(input) && coords == old(coords) && weather == old(weather)
    {
      messages := messages + [ReplyMessage(reply)];
      loading := false;
    }

    /** `handleSend` end to end, the backend's answers as inputs. Returns the
        reply and the backend steps taken (none for a blank input). */
    method HandleSend(apiKey: Option<string>, userLocation: Option<string>, lang: Language,
                      first: Outcome<GeminiService.BackendReply>, geocode: Outcome<seq<GeminiService.Place>>,
                      live: Outcome<GeminiService.LiveWeather>, second: Outcome<GeminiService.BackendReply>)
      returns (reply: Option<GeminiService.ChatReply>, steps: seq<GeminiService.BackendStep>)
      modifies this
      ensures coords == old(coords) && weather == old(weather)
      ensures Blank(old(input)) ==>
                reply.None? && steps == [] && messages == old(messages) && input == old(input)
                && loading == old(loading)
      ensures !Blank(old(input)) ==>
                && reply.Some?
                && messages == old(messages) + [Message(GeminiService.UserRole, old(input), None),
                                                ReplyMessage(Returned(reply.value))]
                && input == "" && !loading
      ensures !Blank(old(input)) && GeminiService.CheckApiKey(apiKey) ==>
                var at := if old(coords).Some? then old(coords).value else GeminiService.BHOPAL;
                |steps| >= 2
                && steps[0] == GeminiService.CreateChat(GeminiService.ChatTurns(History(old(messages))), at.lat, at.lon)
                && steps[1] == GeminiService.SendText(old(input))
      // Without a key: the demo reply, and nothing is sent.
      ensures !Blank(old(input)) && !GeminiService.CheckApiKey(apiKey) ==>
                reply == Some(GeminiService.ChatReply(GeminiService.DemoChatText(lang), None)) && steps == []
      ensures !Blank(old(input)) && GeminiService.CheckApiKey(apiKey) && first.Threw? ==>
                reply == Some(GeminiService.ChatReply(GeminiService.ApologyText(lang), None)) && |steps| == 2
      ensures !Blank(old(input)) && GeminiService.CheckApiKey(apiKey) && first.Returned?
              && !GeminiService.AsksForWeather(first.value) ==>
                reply == Some(GeminiService.ChatReply(first.value.text, first.value.grounding)) && |steps| == 2
      // The weather tool looks up the requested place, else the user's
      // location, else the default one.
      ensures !Blank(old(input)) && GeminiService.CheckApiKey(apiKey) && first.Returned?
              && GeminiService.AsksForWeather(first.value) ==>
                var call := first.value.functionCalls[0];
                && |steps| >= 4
                && steps[2] == GeminiService.Geocode(OrStr(call.location, OrStr(userLocation, DEFAULT_LOCATION)))
                && steps[|steps| - 1] == GeminiService.SendFunctionResponse(GeminiService.WEATHER_TOOL,
                                           GeminiService.ToolPayload(geocode, live), call.id)
                && reply == Some(match second
                                 case Threw => GeminiService.ChatReply(GeminiService.ApologyText(lang), None)
                                 case Returned(b) => GeminiService.ChatReply(b.text, b.grounding))
    {
      var request := BeginSend();
      if request.None? {
        return None, [];
      }
      var r;
      r, steps := GeminiService.GetChatResponse(apiKey, request.value.history, request.value.message,
                                                    OrStr(userLocation, DEFAULT_LOCATION), coords, lang,
                                                    first, geocode, live, second);
      CompleteSend(Returned(r));
      reply := Some(r);
    }
  }
}
