# Maatiputra farming assistant — a Dafny model of its decision logic

Maatiputra is a single-page farming app for Indian farmers. It signs a farmer
in (always in a simulated way), shows weather, news and market screens, and
asks a hosted AI model to diagnose leaf photos, predict crop prices and chat.
It also draws a satellite map of the farm. Most of the app is rendering and
calls to hosted services. This project models the deterministic layer
between them:

- how service replies are normalised and defaulted;
- which canned fallback each failure path returns;
- the settings store and its write-through to browser storage;
- the screen controllers, as small state machines.

Every call to the outside world becomes an input of the model: the AI model,
the weather and geocoding APIs, the browser's position prompt (`Option`), and
the presence of a map library or key (a boolean). An awaited call that can
resolve or fail is written `Outcome<T>` (`Returned(v)` or `Threw`).

Modules follow the source files:

| module | source file | form |
|---|---|---|
| `Types` | types.ts | datatypes, plus JavaScript's `a \|\| b` on optional values |
| `Strings` | JavaScript string built-ins used by the core | functions and lemmas: trim, replace-all, split, lower-case, decimal digits |
| `GeminiService` | services/geminiService.ts | functions; the chat round trip as a method that records its outgoing backend steps |
| `WeatherService` | services/weatherService.ts | functions |
| `NewsService` | services/newsService.ts | constants and a selection function |
| `AppContext` | contexts/AppContext.tsx | a class over the two settings and the key-value store, with its transitions as functions on a `Store` value |
| `Dashboard` | pages/Dashboard.tsx | pure filter and split functions; a screen class |
| `Fasaldaam` | pages/Fasaldaam.tsx | a loop method for the month window; a screen class |
| `ChatAssistant` | pages/ChatAssistant.tsx | transcript class with the append discipline; pure outlook and link functions |
| `FarmMap` | pages/FarmMap.tsx | a state machine over the screen and the page (`MapState`) with a preserved invariant `Valid`; a class doing the same steps on its fields |
| `App` | App.tsx | session derivation and route dispatch functions; a shell class |
| `LeafCheck` | pages/LeafCheck.tsx | payload and panel functions; a screen class |
| `WeatherForecast` | pages/WeatherForecast.tsx | a screen class |

Each event handler is one atomic step on the state it sees when it runs.

## Model

| member | source | states |
|---|---|---|
| `Types.LanguageOf` | contexts/AppContext.tsx:40-45 | a stored language code behaves as Hindi exactly when it is "hi", and as English otherwise |
| `Types.OrStr` | services/geminiService.ts:178 | `v \|\| d` on an optional string: the value when present and non-empty, else the default |
| `Types.OrInt` | services/geminiService.ts:174-175 | `v \|\| d` on an optional number: the value when present and non-zero, else the default |
| `Types.FirstPresent` | pages/Fasaldaam.tsx:69-74 | a chain `a \|\| b \|\| …` yields the first non-empty entry; it yields nothing exactly when every entry is absent or empty |
| `Types.LabelOr` | services/geminiService.ts:279-280 | `table[code] \|\| "Unknown"`: the table label when it is present and non-empty, "Unknown" otherwise |
| `Strings.Trim` | services/geminiService.ts:46 | `trim()`: the result is a contiguous slice of the input; only white space is cut from either end; the result neither starts nor ends with white space |
| `Strings.TrimEmptyIffAllSpace` | pages/ChatAssistant.tsx:61 | the trimmed text is empty exactly when the text is all white space |
| `Strings.RemoveFencesLeavesNone` | services/geminiService.ts:46 | after every "```" is removed, none is left, including fences formed across removed ones |
| `Strings.BeforeFirst` | App.tsx:37 | `split(c)[0]`: the longest prefix holding no `c`, followed by a `c` when it is shorter than the text |
| `Strings.BeforeFirstJoin` | App.tsx:37 | text before the first `c`, for `h + c + t` with no `c` in `h`, is exactly `h` |
| `Strings.SecondField` | pages/LeafCheck.tsx:29 | `split(c)[1]`: absent exactly when there is no `c`; otherwise the text after the first `c` up to the next one |
| `Strings.Lower` | pages/ChatAssistant.tsx:96-100 | ASCII lower-casing as `toLowerCase()` does it on the weather labels: same length, each of A–Z lowered and every other character kept |
| `Strings.DecimalRoundTrip` | App.tsx:34-38 | the decimal digits of a number read back as that number |
| `GeminiService.ConditionLabel` | services/geminiService.ts:34-40 | a code in the weather table maps to its label, any other code to "Unknown" |
| `GeminiService.ConditionLabels` | services/geminiService.ts:280 | the daily conditions are the labels of the daily codes, position by position |
| `GeminiService.Unfenced` | services/geminiService.ts:46 | after every "```json" and then every "```" is removed, the text holds neither |
| `GeminiService.CleanJson` | services/geminiService.ts:44-47 | "{}" for an empty text; otherwise every "```json" and then every "```" is removed and the rest is trimmed, so the result holds no fence and no white space at either end |
| `GeminiService.TrimKeepsNoFence` | services/geminiService.ts:46 | trimming a fence-free text leaves it free of "```" and "```json" |
| `GeminiService.CheckApiKey` | services/geminiService.ts:49-51 | a key counts exactly when it is present and non-empty |
| `GeminiService.AnalyzeLeafImage` | services/geminiService.ts:95-143 | without a key, or when the call throws or times out, the result is exactly the canned diagnosis; otherwise it is the model's diagnosis |
| `GeminiService.DummyLeafIsBlight` | services/geminiService.ts:9-15 | the canned diagnosis is unhealthy, at 87 percent, and carries no leaf flag |
| `GeminiService.PredictCropPrice` | services/geminiService.ts:146-184 | demo exactly when there is no key or the call throws. No key: 2250/2310/stable/hold, with crop and market defaulted to "Wheat" and "Local Mandi". Throw: the same template with crop and district copied verbatim. Live: the crop as asked, and each falsy field set to 2000, 2100, stable, hold or the district |
| `GeminiService.PredictionNeverFalsy` | services/geminiService.ts:146-184 | on every path, a non-empty crop is reported as asked and no price is zero; a non-empty district never yields an empty market |
| `GeminiService.ChatTurns` | services/geminiService.ts:236-239 | the backend history keeps every role in order; an empty content is sent as a single space |
| `GeminiService.Report` | services/geminiService.ts:282-297 | the report's location is the match's name, a comma and its region (empty when absent); the current and daily readings are copied unchanged; the current code and every daily code are labelled through the weather table |
| `GeminiService.ToolPayload` | services/geminiService.ts:270-301 | "Location not found" exactly when geocoding returns no match; "Service Unavailable" exactly when either lookup throws; otherwise the report built from the first match and the weather reading |
| `GeminiService.GetChatResponse` | services/geminiService.ts:187-328 | without a key: the demo text in the chosen language, no grounding, nothing sent. With a key: the chat opens on the converted history at the given position (Bhopal when none), then the message is sent. A throw yields the apology text. A reply that does not ask for the weather tool as its first call is returned as is. Otherwise the place is geocoded (the requested one, or the user's), the weather fetched for the first match, and the function response sent last under the tool's name and the call's id; the reply to that is returned |
| `WeatherService.ConditionLabel` | services/weatherService.ts:13-19 | the weather service labels every code exactly as the AI service does |
| `WeatherService.Round` | services/weatherService.ts:42 | `Math.round`: the nearest integer, halves rounded up |
| `WeatherService.FetchWeather` | services/weatherService.ts:21-54 | demo weather exactly when a coordinate is absent or zero, the call throws, the status is not ok or the body is unreadable; otherwise the rounded temperature, the labelled code, humidity and wind at "Current Location" |
| `WeatherService.At` | services/weatherService.ts:64-68 | `a[i]` is defined exactly below the length, and then it is the element |
| `WeatherService.ForecastDays` | services/weatherService.ts:62-69 | one day per entry of `time`, day i reading index i of every other array |
| `WeatherService.ForecastSeries` | services/weatherService.ts:62-69 | specification partner (no source counterpart): the inverse of the zip, turning days back into parallel arrays of equal length |
| `WeatherService.ForecastDaysComplete` | services/weatherService.ts:62-69 | for parallel arrays every day is complete, and unzipping the days gives back the series |
| `WeatherService.FetchForecast` | services/weatherService.ts:56-76 | the zipped days of the `daily` block; none when the block is absent or the call throws |
| `WeatherService.GetCurrentLocation` | services/weatherService.ts:78-99 | a position exactly when geolocation is supported and the prompt gave a fix, and then that fix; it never fails |
| `NewsService.FetchAgriNews` | services/newsService.ts:69-73 | the Hindi list for "hi", the English list for any other code |
| `NewsService.ListsParallel` | services/newsService.ts:3-68 | the two lists have the same length, and at each position the same id, category, link and picture |
| `NewsService.NewsListsAgree` | services/newsService.ts:3-73 | whatever the language: three articles, distinct ids, categories Scheme, Market and Tech in that order, no weather news, parallel to both lists |
| `AppContext.Translate` | contexts/AppContext.tsx:12-64 | the translation for a known key under "en" or "hi"; the key itself exactly when the key is unknown or the code is neither |
| `AppContext.TranslationsComplete` | contexts/AppContext.tsx:12-35 | every table entry has a non-empty English and Hindi text, different from its key |
| `AppContext.BoolText` | contexts/AppContext.tsx:59 | `String(b)` reads back as `b` when compared with "true" |
| `AppContext.Initialized` | contexts/AppContext.tsx:43-49 | the store is untouched; a stored non-empty language replaces the current one, else it is kept; a stored location value sets the flag to whether it is "true", else the flag is kept |
| `AppContext.InitializeFromStorage` | contexts/AppContext.tsx:40-49 | from the first render: an empty store keeps English and location on; a stored non-empty language is taken as is; a stored location value gives the flag exactly when it is "true" |
| `AppContext.InitializeIdempotent` | contexts/AppContext.tsx:43-49 | running the mount effect twice is the same as once |
| `AppContext.LanguageSet` | contexts/AppContext.tsx:51-54 | the language becomes the new code and is the stored one; the flag is kept; the store gains only the language key, and every other stored value is kept |
| `AppContext.LocationToggled` | contexts/AppContext.tsx:56-60 | the flag is negated and stored as its text; the language is kept; the store gains only the location key, and every other stored value is kept |
| `AppContext.SetLanguageWritesThrough` | contexts/AppContext.tsx:51-54 | after `setLanguage`, the language is the new one and is the stored one; the flag and its stored value are untouched |
| `AppContext.ToggleWritesThrough` | contexts/AppContext.tsx:56-60 | after a toggle, the flag is negated and the store holds it; the language is untouched |
| `AppContext.ToggleTwice` | contexts/AppContext.tsx:56-60 | two toggles restore the settings; the store holds the flag again, and is unchanged when it held it before |
| `AppContext.ReloadRestores` | contexts/AppContext.tsx:40-60 | a fresh provider initialised from a store that agrees with some settings takes exactly those settings |
| `AppContext.AppProvider.constructor` | contexts/AppContext.tsx:40-41 | the first render holds English, location on and the browser's store |
| `AppContext.AppProvider.Initialize` | contexts/AppContext.tsx:43-49 | the mount effect's new state is the initialisation function of the old |
| `AppContext.AppProvider.SetLanguage` | contexts/AppContext.tsx:51-54 | the new state is `LanguageSet` of the old, whose write-through is proved above |
| `AppContext.AppProvider.ToggleLocation` | contexts/AppContext.tsx:56-60 | the new state is `LocationToggled` of the old, whose write-through is proved above |
| `Dashboard.OfCategory` | pages/Dashboard.tsx:37 | the filter is a subsequence of the news, holds only the category, and has as many entries as the news has of it |
| `Dashboard.OfCategoryUnique` | pages/Dashboard.tsx:37 | any order-keeping selection of all articles of a category is the filter's result: the contract above pins the filter down |
| `Dashboard.SubsequenceCount` | pages/Dashboard.tsx:37 | a subsequence holding only one category is no longer than that category's count |
| `Dashboard.FilterNews` | pages/Dashboard.tsx:33-39 | under "All" the whole list; under a tab, the articles of its category |
| `Dashboard.Featured` | pages/Dashboard.tsx:267-291 | a featured card exactly under "All" with a non-empty list, and then it is the first article |
| `Dashboard.Grid` | pages/Dashboard.tsx:303 | under a tab the whole filtered list; under "All" all but one |
| `Dashboard.ShownExactlyOnce` | pages/Dashboard.tsx:267-303 | featured card then grid shows every filtered article exactly once, in order |
| `Dashboard.NewsLoadedAsWritten` | pages/Dashboard.tsx:33-64 | the load as written: the news is the fetched list and the tab is kept; a changed list leaves the view consistent; the same list again leaves the unfiltered list on screen |
| `Dashboard.ReloadShowsUnfilteredNews` | pages/Dashboard.tsx:33-64 | reloading the English list under the Market tab leaves all three articles shown under that tab |
| `Dashboard.NewsLoaded` | pages/Dashboard.tsx:58-64 | the load as intended: the fetched list, filtered by the active tab, so the view is consistent |
| `Dashboard.AsWrittenDiffersOnlyWhenStale` | pages/Dashboard.tsx:33-64 | the two loads differ only when the same list is fetched under a tab other than "All", and then the load as written is inconsistent |
| `Dashboard.WeatherQuery` | pages/Dashboard.tsx:43-51 | coordinates exactly when location is on and a fix was obtained, and then the fix's |
| `Dashboard.NoFixMeansDemo` | pages/Dashboard.tsx:41-56 | with location off or no fix, the weather card shows the demo weather whatever the API would say |
| `Dashboard.DashboardScreen.constructor` | pages/Dashboard.tsx:20-25 | no weather, no news, the "All" tab, nothing loading; the view is consistent |
| `Dashboard.DashboardScreen.LoadWeather` | pages/Dashboard.tsx:41-56 | the coordinates passed are `WeatherQuery`'s; the weather is the service's answer for them; the news view is untouched |
| `Dashboard.DashboardScreen.LoadNews` | pages/Dashboard.tsx:33-64 | the view becomes `NewsLoadedAsWritten` of the old one, and loading ends; the view is consistent whenever a different list was fetched or the tab is "All"; the weather is untouched |
| `Dashboard.DashboardScreen.SelectCategory` | pages/Dashboard.tsx:33-39 | the tab is set and the filtered list is the filter of the unchanged news |
| `Fasaldaam.PastMonthIndex` | pages/Fasaldaam.tsx:39-40 | the wrapped index lies in 0..11 and is `(current - i - 1) mod 12` |
| `Fasaldaam.GenerateHistory` | pages/Fasaldaam.tsx:33-52 | six months; entry k is month `(current - 6 + k) mod 12`, so the list ends with the previous month, oldest first, with no month twice |
| `Fasaldaam.WindowIndicesDistinct` | pages/Fasaldaam.tsx:38-42 | two positions of the six-month window name different months |
| `Fasaldaam.DetectedDistrict` | pages/Fasaldaam.tsx:69-74 | city, else town, else village, else state district, else "Unknown Location"; never empty |
| `Fasaldaam.FasaldaamScreen.constructor` | pages/Fasaldaam.tsx:8-13 | empty crop and district, nothing loading, no prediction, no history |
| `Fasaldaam.FasaldaamScreen.HandlePredict` | pages/Fasaldaam.tsx:15-31 | without a crop or a district nothing changes; otherwise the prediction is the service's answer, the history holds the six-month window, and loading ends |
| `Fasaldaam.FasaldaamScreen.HandleDetectLocation` | pages/Fasaldaam.tsx:54-89 | no geolocation: the "not supported" alert. A refused position: the "denied" alert. A failed lookup: the "could not detect" alert. Otherwise no alert and the detected district. The spinner ends in every case with support, and the district changes only on success |
| `ChatAssistant.History` | pages/ChatAssistant.tsx:69 | the history keeps each message's role and content, in order |
| `ChatAssistant.ReplyMessage` | pages/ChatAssistant.tsx:72-81 | a model message: the reply's text ("..." when empty) with its grounding, or "Connection Error." on a throw |
| `ChatAssistant.Outlook` | pages/ChatAssistant.tsx:94-103 | in either language, the rain text when the lower-cased condition contains "rain"; else the heat text above 35 degrees; else the fine-day text |
| `ChatAssistant.OutlookKind` | pages/ChatAssistant.tsx:94-103 | rain advice exactly when the lower-cased condition contains "rain"; heat advice exactly when it does not and the temperature is above 35 |
| `ChatAssistant.RainAt` | pages/ChatAssistant.tsx:96-100 | a lower-case "rain" anywhere in the condition is found after lower-casing |
| `ChatAssistant.RainCodesAdviseAgainstSpraying` | pages/ChatAssistant.tsx:94-103 | the conditions of weather codes 61, 63 and 65 earn the rain advice whatever the temperature |
| `ChatAssistant.NoRainWithoutRA` | pages/ChatAssistant.tsx:96-100 | a condition with no "r" followed by "a", in either case, never earns the rain advice |
| `ChatAssistant.NoRainAt` | pages/ChatAssistant.tsx:96-100 | "rain" cannot occur after lower-casing at a position not starting with "r", "a" in either case |
| `ChatAssistant.DemoWeatherIsFine` | pages/ChatAssistant.tsx:94-103 | the demo weather (28 degrees, clear sky) earns the fine-day advice |
| `ChatAssistant.WebSources` | pages/ChatAssistant.tsx:107-109 | the web sources kept number the chunks that have one |
| `ChatAssistant.WebSourcesInOrder` | pages/ChatAssistant.tsx:107-109 | each chunk with a web source puts it at the position counting the web chunks before it, so the sources are exactly those of the chunks, in order |
| `ChatAssistant.WebLinks` | pages/ChatAssistant.tsx:107-127 | link k is the k-th web source's title ("View Map" when absent or empty) and address, one per source; none exactly when no chunk has one; every title is non-empty |
| `ChatAssistant.GroundingLinks` | pages/ChatAssistant.tsx:105-111 | links exactly when there is metadata with chunks and some chunk has a web source; never an empty list |
| `ChatAssistant.BlankIsEmptyTrim` | pages/ChatAssistant.tsx:61 | the send guard holds exactly when the trimmed input is empty |
| `ChatAssistant.ChatScreen.constructor` | pages/ChatAssistant.tsx:22-33 | the transcript starts with exactly one model message, the welcome text in the active language; empty input, no position, no weather, not loading |
| `ChatAssistant.ChatScreen.InitAssistant` | pages/ChatAssistant.tsx:38-52 | with a fix, the position is kept and the weather fetched for it; without one, the demo weather; the transcript is untouched |
| `ChatAssistant.ChatScreen.SetInput` | pages/ChatAssistant.tsx:22 | typing sets the input and nothing else |
| `ChatAssistant.ChatScreen.BeginSend` | pages/ChatAssistant.tsx:60-70 | a blank input changes nothing. Otherwise the user message is appended, the input cleared and loading set, and the request carries the transcript before the new message plus the text |
| `ChatAssistant.ChatScreen.CompleteSend` | pages/ChatAssistant.tsx:72-84 | exactly one model message is appended and loading ends |
| `ChatAssistant.ChatScreen.HandleSend` | pages/ChatAssistant.tsx:36-85 | a blank input changes nothing and sends nothing. Otherwise the transcript grows by two, the user message first and the model's reply second, the input is cleared and loading ends. With a key, the backend gets the earlier transcript and the text at the known or default position. Without a key the reply is the demo text and nothing is sent; a throw gives the apology; a plain reply is kept; a weather call geocodes the requested place, else the user's location, else "Indore, Madhya Pradesh", and the function response goes last |
| `FarmMap.Valid` | pages/FarmMap.tsx:11-187 | the invariant implies at most one google script, one leaflet script, one stylesheet link and one map |
| `FarmMap.InitLeaflet` | pages/FarmMap.tsx:151-179 | with a map already present nothing changes; otherwise one leaflet map is created at the target and the spinner ends |
| `FarmMap.LoadLeaflet` | pages/FarmMap.tsx:128-149 | the stylesheet ends up present, added only when absent; the script is added only when `L` is absent, and is then pending |
| `FarmMap.SwitchToLeaflet` | pages/FarmMap.tsx:85-124 | the fallback path ends with leaflet as provider |
| `FarmMap.InitGoogle` | pages/FarmMap.tsx:96-125 | without an error, one google map at the target and the spinner ends; an error switches to leaflet |
| `FarmMap.LoadGoogle` | pages/FarmMap.tsx:73-94 | with the library present, init runs at once; with the script already added, nothing happens; otherwise one script is added and pending |
| `FarmMap.Target` | pages/FarmMap.tsx:158 | the map's centre is the user location when there is one, else Bhopal |
| `FarmMap.Located` | pages/FarmMap.tsx:33-57 | a fix gives the device position and no fallback flag; no fix gives Bhopal with the flag set; nothing else but the spinner changes |
| `FarmMap.Initialize` | pages/FarmMap.tsx:32-70 | the location is the fix or Bhopal, flagged as fallback exactly without a fix. Without a key: leaflet, with its stylesheet, and no google script. With a key, leaflet takes over exactly when the library was present and the init threw; with no library and no earlier script, one google script is added and pending |
| `FarmMap.GoogleScriptLoaded` | pages/FarmMap.tsx:91 | the library is present and nothing pending; without an error the google map is drawn on the target and the spinner ends; with one, leaflet takes over with its stylesheet |
| `FarmMap.GoogleScriptFailed` | pages/FarmMap.tsx:85-89 | leaflet takes over with its stylesheet, nothing google is pending and no google script is added; with `L` present the leaflet map is drawn on the target, else the leaflet script is awaited |
| `FarmMap.LeafletScriptLoaded` | pages/FarmMap.tsx:147 | `L` is present and nothing leaflet is pending; with no map yet the leaflet map is drawn on the target, else the map is kept and no other created |
| `FarmMap.LocationChanged` | pages/FarmMap.tsx:182-187 | nothing changes without a location, with a map present, or when the active provider's library is absent; otherwise the active provider draws the map on the target, and a google init error hands over to leaflet |
| `FarmMap.MountedValid` | pages/FarmMap.tsx:11-17 | the first render satisfies the invariant, whatever the page already holds |
| `FarmMap.InitLeafletValid` | pages/FarmMap.tsx:151-179 | creating the leaflet map keeps the invariant |
| `FarmMap.SwitchToLeafletValid` | pages/FarmMap.tsx:85-149 | switching to leaflet with no map and no pending script keeps the invariant |
| `FarmMap.InitGoogleValid` | pages/FarmMap.tsx:96-125 | google init, succeeding or falling back, keeps the invariant |
| `FarmMap.LoadGoogleValid` | pages/FarmMap.tsx:73-94 | the google loader keeps the invariant |
| `FarmMap.InitializeValid` | pages/FarmMap.tsx:32-70 | the mount step keeps the invariant |
| `FarmMap.GoogleScriptLoadedValid` | pages/FarmMap.tsx:91 | the script's callback keeps the invariant |
| `FarmMap.GoogleScriptFailedValid` | pages/FarmMap.tsx:85-89 | the script's error handler keeps the invariant |
| `FarmMap.LeafletScriptLoadedValid` | pages/FarmMap.tsx:147 | the leaflet script's load handler keeps the invariant |
| `FarmMap.LocationChangedValid` | pages/FarmMap.tsx:182-187 | the re-init effect keeps the invariant |
| `FarmMap.NoKeyNeverLoadsGoogle` | pages/FarmMap.tsx:60-69 | without a key the provider is leaflet and no google script is ever added |
| `FarmMap.KeyAddsGoogleScript` | pages/FarmMap.tsx:62-93 | with a key and no library, exactly one google script is added and awaited, and no map is drawn yet |
| `FarmMap.KeyDrawsGoogleAtOnce` | pages/FarmMap.tsx:62-119 | with a key and the library present, the google map is drawn at once on the fix or the fallback, and no script is added |
| `FarmMap.ExistingMapIsKept` | pages/FarmMap.tsx:156-187 | once a map exists, the re-init effect and a second leaflet init change nothing |
| `FarmMap.GoogleScriptAddedOnce` | pages/FarmMap.tsx:79-93 | a second load of the google script is refused, and one script stays in the page |
| `FarmMap.GoogleFailureFallsBack` | pages/FarmMap.tsx:85-149 | a google script error leaves leaflet in charge with its stylesheet; the map is drawn on the target when `L` exists, else the leaflet script is awaited |
| `FarmMap.FarmMapScreen.constructor` | pages/FarmMap.tsx:11-17 | the first render is `Mounted`, which satisfies the invariant |
| `FarmMap.FarmMapScreen.InitLeafletMap` | pages/FarmMap.tsx:151-179 | the new state is `InitLeaflet` of the old |
| `FarmMap.FarmMapScreen.LoadLeafletScript` | pages/FarmMap.tsx:128-149 | the new state is `LoadLeaflet` of the old |
| `FarmMap.FarmMapScreen.InitGoogleMap` | pages/FarmMap.tsx:96-125 | the new state is `InitGoogle` of the old |
| `FarmMap.FarmMapScreen.LoadGoogleMapsScript` | pages/FarmMap.tsx:73-94 | the new state is `LoadGoogle` of the old |
| `FarmMap.FarmMapScreen.InitializeLocationAndMap` | pages/FarmMap.tsx:19-70 | the mount effect's new state is `Initialize` of the old, and the invariant holds |
| `FarmMap.FarmMapScreen.OnGoogleScriptLoad` | pages/FarmMap.tsx:91 | the callback's new state is `GoogleScriptLoaded` of the old, and the invariant holds |
| `FarmMap.FarmMapScreen.OnGoogleScriptError` | pages/FarmMap.tsx:85-89 | the error handler's new state is `GoogleScriptFailed` of the old, and the invariant holds |
| `FarmMap.FarmMapScreen.OnLeafletScriptLoad` | pages/FarmMap.tsx:147 | the load handler's new state is `LeafletScriptLoaded` of the old, and the invariant holds |
| `FarmMap.FarmMapScreen.OnLocationChange` | pages/FarmMap.tsx:182-187 | the effect's new state is `LocationChanged` of the old, and the invariant holds |
| `App.IsDemoSession` | App.tsx:33 | not a demo session exactly when demo is not forced and the email is the administrator's |
| `App.UserName` | App.tsx:37 | the stock name for an empty email; otherwise the email's prefix before its first "@" |
| `App.KisanId` | App.tsx:34-38 | a demo id is the demo prefix and four digits; otherwise the fixed id of the real account |
| `App.DemoIdReadsBack` | App.tsx:34-38 | the digits of a demo id read back as the random number it was made from |
| `App.DemoIdsDistinct` | App.tsx:34-38 | different random numbers give different demo ids |
| `App.Session` | App.tsx:36-41 | the user holds the derived name and id, and the fixed phone and location |
| `App.AdminGetsProAccount` | App.tsx:33-50 | the administrator's email without forced demo gets the name "admin", the real account's id and the plain success toast |
| `App.RenderContent` | App.tsx:71-146 | login and register render the same login screen; home only for home; the dashboard gets the user; the chat gets the user's location when there is a user |
| `App.SidebarShown` | App.tsx:158 | the sidebar shows exactly for a signed-in user on a screen that is neither home nor the login form |
| `App.LoginToast` | App.tsx:46-50 | the demo toast exactly for a demo session, the plain success toast exactly otherwise |
| `App.LoggedIn` | App.tsx:25-52 | the user is the session built from the typed email; the route is the dashboard; the spinner is off; the toast is the demo one exactly for a demo session; the form is kept |
| `App.LoggedOut` | App.tsx:54-60 | no user, the home route, an empty form and the logout toast; no sidebar |
| `App.LoginOpensDashboard` | App.tsx:25-52 | after a login the dashboard shows the new session with the sidebar, the spinner is off, and the demo toast appears exactly for a demo session |
| `App.LogoutAfterLogin` | App.tsx:54-60 | logout after a login returns to the initial shell with the form cleared, with no sidebar and the home screen; only the toast differs |
| `App.AppShell.constructor` | App.tsx:17-23 | the initial shell: no user, home, no spinner, no toast, empty form |
| `App.AppShell.SetEmail` | App.tsx:93 | typing sets the email and nothing else |
| `App.AppShell.SetPassword` | App.tsx:100 | typing sets the password and nothing else |
| `App.AppShell.HandleLogin` | App.tsx:25-52 | the new shell is `LoggedIn` of the old, whose properties are proved above |
| `App.AppShell.HandleLogout` | App.tsx:54-60 | the new shell is `LoggedOut` of the old |
| `App.AppShell.Navigate` | App.tsx:62-64 | only the route changes |
| `App.AppShell.ToastExpired` | App.tsx:66-69 | the toast's timer removes the toast and nothing else |
| `LeafCheck.SimulatedBlight` | pages/LeafCheck.tsx:33-40 | the screen's own fallback is a leaf with an unhealthy blight at 87 percent, named in the active language |
| `LeafCheck.ScanResult` | pages/LeafCheck.tsx:28-40 | the stored result is the analysis when it resolves, the simulated blight when it throws |
| `LeafCheck.ImagePayload` | pages/LeafCheck.tsx:29 | absent exactly when the data URL has no comma; otherwise a comma-free field |
| `LeafCheck.PayloadOfDataUrl` | pages/LeafCheck.tsx:29 | for a URL `header,data` with comma-free parts, the payload is exactly the data |
| `LeafCheck.ResultPanel` | pages/LeafCheck.tsx:103-161 | the spinner exactly while loading; the placeholder exactly with no result. The healthy badge exactly for a healthy result. The not-a-leaf notice exactly when the leaf flag is not true. Otherwise the name ("Unknown" when empty) and the confidence. The treatment appears exactly when unhealthy, and the healthy note exactly when healthy |
| `LeafCheck.ServiceFallbackShowsNotALeaf` | pages/LeafCheck.tsx:117 | without a key, or when the model call fails, the canned diagnosis shows the not-a-leaf notice under the disease badge |
| `LeafCheck.SimulatedBlightShowsTreatment` | pages/LeafCheck.tsx:33-147 | the simulated blight shows its name, 87 percent and its treatment |
| `LeafCheck.LeafCheckScreen.constructor` | pages/LeafCheck.tsx:8-10 | no image, no result, not loading; the placeholder shows |
| `LeafCheck.LeafCheckScreen.HandleFileChange` | pages/LeafCheck.tsx:13-23 | no file changes nothing. A chosen file always clears the result: a successful read sets the image to its data URL, and a failed read clears the image too, so the placeholder shows unless a scan is running |
| `LeafCheck.LeafCheckScreen.HandleScan` | pages/LeafCheck.tsx:25-44 | a request exactly when there is a non-empty image. Without one nothing changes. With one, it carries the data URL's payload, the result is the scan result, and loading ends |
| `WeatherForecast.PlaceName` | pages/WeatherForecast.tsx:34-39 | city, else town, else county, when one is non-empty; nothing when the lookup throws or all are empty |
| `WeatherForecast.SummaryCards` | pages/WeatherForecast.tsx:100 | the first `min(4, n)` forecast days, in order |
| `WeatherForecast.ForecastScreen.constructor` | pages/WeatherForecast.tsx:10-12 | no forecast, loading, and the "Your Location" label |
| `WeatherForecast.ForecastScreen.LoadForecast` | pages/WeatherForecast.tsx:18-55 | with location on and a fix: the fix's coordinates, and the place name or "Current Location". Otherwise: the Bhopal defaults and "Bhopal (Demo)". Always: the forecast for those coordinates, and loading ends |

## Left out

- Rendering, styling, animation, the price chart, and the static screens (home, navbar, sidebar). The fixed mandi table of the dashboard is also out.
- pages/SoilAnalysis.tsx and `analyzeSoilWithGemini`: an upload guard that forwards a fixed text to the AI service.
- The AI SDK, open-meteo, nominatim, browser geolocation and `JSON.parse`. Each is an input (`Outcome`, `Option` or a boolean), so the prompt texts, system instructions and request URLs are not modelled.
- Timers: the simulated delays, the 1.2 s login delay, the 3 s toast, the share-button reset, and the 15 s and 5 s timeouts. A timeout is one more way for a call to throw; the toast expiry is its own step (`App.AppShell.ToastExpired`).
- Randomness: the demo farmer number is a parameter in 1000..9999, and the random history prices of the price screen are not modelled (only their months).
- Dates and locale formatting: the month string passed to the price model, the message ids made from the clock, and the forecast's date labels.
- Floating point: coordinates and readings are reals; `Math.round` is exact rounding of a real. The price prediction's `currentPrice` and `predictedPrice` and the diagnosis's `confidence` are integers here, although they are JavaScript numbers: a fractional value in the AI reply is not represented. They are only passed through `|| default` and shown.
- React scheduling and stale closures. Each handler is one atomic step on the state current when it runs. Three consequences of the real scheduling are not modelled:
  - the map's first init reads the `userLocation` of the first render, which is still null, so it centres on the fallback even with a fix;
  - the `if (map) return` guard in leaflet init also reads that first render's state;
  - a late reply cannot overwrite a newer one, because each handler completes before the next starts.
- Unmounting, such as removing a leaflet map on cleanup, and the `mapRef` guards, since the map's element is always rendered.
- The marker's title and popup text.
- The `default` branch of `renderContent`: every route is an `AppRoute` value, so the match is total.
- `GeminiService.GetChatResponse`: a throw is modelled only where the code awaits a reply (the two sends and the two lookups). The synchronous steps are assumed not to throw: building the history, creating the chat, reading the reply.
- `ChatAssistant.ChatScreen.HandleSend`: it composes the service, which never throws, so the "Connection Error." path is reached only through `CompleteSend` with `Threw`.
- `LeafCheck.LeafCheckScreen.HandleScan`: the screen's simulated blight needs the analysis to throw, which `analyzeLeafImage` never does. The screen is modelled with the analysis as an input, and `ServiceFallbackShowsNotALeaf` follows the service's own fallback to the screen.
- `AppContext.Translate`: JavaScript's inherited object keys (such as `constructor`) are not in the table here. In the source, `translations[key]` finds them.
- `Fasaldaam.FasaldaamScreen.HandlePredict`: the intermediate clearing of `prediction` and `history` before the await is not stated, since the handler is atomic.
- `Dashboard.DashboardScreen.LoadNews`: it follows the load as written, so it promises a consistent view only when a different list was fetched or the tab is "All". `Dashboard.NewsLoaded` is the corrected load (see Findings).
- `Strings.Lower`: only A–Z are lowered. JavaScript's `toLowerCase` also lowers non-ASCII letters; the texts it lowers here are the English weather labels, which are ASCII.
- `FarmMap.Valid`: the invariant and its preservation describe the page as seen by this screen alone. Another screen adding scripts to the same page is out of scope.

## Findings

| source | as written | input that shows it | evidently intended | confidence | as-written member | corrected member |
|---|---|---|---|---|---|---|
| pages/Dashboard.tsx:33-64 | `loadNews` sets `filteredNews` to the unfiltered list and relies on the filter effect to refilter. The effect runs only when `news` or the tab changes, and the service returns the same constant list for the same language. | With the Market tab active, toggle the location flag: the English list is fetched again, and all three articles are shown under "Market". | Filter the fetched list by the active tab | not executed | `Dashboard.NewsLoadedAsWritten`, `Dashboard.ReloadShowsUnfilteredNews` | `Dashboard.NewsLoaded`, with `Dashboard.AsWrittenDiffersOnlyWhenStale` |
