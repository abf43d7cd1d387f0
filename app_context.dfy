/** The settings store (contexts/AppContext.tsx): the active language and the
    location flag, restored from the browser's key-value store once and
    written through to it on every change, plus the translation lookup `t`.
    The language is kept as the stored code, as the source keeps whatever
    string it read back. */
module AppContext {

  import opened Types

  /** The two renderings of a label. */
  datatype Entry = Entry(en: string, hi: string)

  const TRANSLATIONS: map<string, Entry> := map[
    "dashboard" := Entry("Dashboard", "डैशबोर्ड"),
    "soil_analysis" := Entry("Soil Analysis", "मृदा परीक्षण"),
    "leaf_health" := Entry("Leaf Health", "फसल रोग"),
    "fasaldaam" := Entry("Fasaldaam", "फसल दाम"),
    "sahayak" := Entry("Sahayak (Chat)", "सहायक (चैट)"),
    "welcome" := Entry("Namaste", "नमस्ते"),
    "weather" := Entry("Weather", "मौसम"),
    "weather_demo" := Entry("Demo Data", "डेमो डेटा"),
    "location_on" := Entry("Location: ON", "स्थान: चालू"),
    "location_off" := Entry("Location: OFF", "स्थान: बंद"),
    "using_default" := Entry("Using Default City", "डिफ़ॉल्ट शहर"),
    "check_soil" := Entry("Check Soil Health", "मृदा स्वास्थ्य जांचें"),
    "scan_crop" := Entry("Scan Crop for Disease", "फसल रोग स्कैन करें"),
    "mandi_rates" := Entry("Mandi Rates", "मंडी भाव"),
    "view_all" := Entry("View All", "सभी देखें"),
    "logout" := Entry("Logout", "लॉग आउट"),
    "analyzing" := Entry("Analyzing...", "विश्लेषण हो रहा है..."),
    "upload_text" := Entry("Upload Soil Health Card", "मृदा स्वास्थ्य कार्ड अपलोड करें"),
    "click_upload" := Entry("Click to Upload", "अपलोड करने के लिए क्लिक करें"),
    "diagnose" := Entry("Diagnose", "निदान करें"),
    "healthy" := Entry("Healthy", "स्वस्थ"),
    "disease_detected" := Entry("Disease Detected", "रोग का पता चला")]

  /** The rendering of an entry for a language code, if the code names one. */
  function Localized(e: Entry, code: string): Option<string>
  {
    if code == "en" then Some(e.en) else if code == "hi" then Some(e.hi) else None
  }

  /** `t(key)` under the language code: the translation when the key and the
      code have a non-empty one, the key itself otherwise. */
  function Translate(code: string, key: string): (r: string)
    ensures key in TRANSLATIONS && code == "en" ==> r == TRANSLATIONS[key].en
    ensures key in TRANSLATIONS && code == "hi" ==> r == TRANSLATIONS[key].hi
    ensures r == key <==> key !in TRANSLATIONS || (code != "en" && code != "hi")
  {
    if key in TRANSLATIONS then
      TranslationsComplete(key);
      OrStr(Localized(TRANSLATIONS[key], code), key)
    else key
  }

  /** Every entry has both renderings, and neither is the key itself. */
  lemma TranslationsComplete(key: string)
    requires key in TRANSLATIONS
    ensures var e := TRANSLATIONS[key];
            e.en != "" && e.hi != "" && e.en != key && e.hi != key
  {
  }

  const LANGUAGE_KEY := "app_language"
  const LOCATION_KEY := "location_enabled"

  /** `String(b)`. */
  function BoolText(b: bool): (r: string)
    ensures (r == "true") == b
  {
    if b then "true" else "false"
  }

  /** The provider's two fields. */
  datatype Settings = Settings(language: string, locationEnabled: bool)

  const INITIAL_SETTINGS := Settings("en", true)

  /** The fields and the browser store together. */
  datatype Store = Store(settings: Settings, storage: map<string, string>)

  /** The mount effect: a stored non-empty language replaces the current one;
      a stored location value, when present, sets the flag to whether it is
      "true". */
  function Initialized(st: Store): (r: Store)
    ensures r.storage == st.storage
    ensures LANGUAGE_KEY in st.storage && st.storage[LANGUAGE_KEY] != "" ==>
              r.settings.language == st.storage[LANGUAGE_KEY]
    ensures LANGUAGE_KEY !in st.storage || st.storage[LANGUAGE_KEY] == "" ==>
              r.settings.language == st.settings.language
    ensures LOCATION_KEY in st.storage ==> r.settings.locationEnabled == (st.storage[LOCATION_KEY] == "true")
    ensures LOCATION_KEY !in st.storage ==> r.settings.locationEnabled == st.settings.locationEnabled
  {
    var language :=
      if LANGUAGE_KEY in st.storage && st.storage[LANGUAGE_KEY] != "" then st.storage[LANGUAGE_KEY]
      else st.settings.language;
    var location :=
      if LOCATION_KEY in st.storage then st.storage[LOCATION_KEY] == "true"
      else st.settings.locationEnabled;
    Store(Settings(language, location), st.storage)
  }

  /** `setLanguage(lang)`. */
  function LanguageSet(st: Store, lang: Language): (r: Store)
    ensures r.settings.language == Code(lang) && LanguagePersisted(r)
    ensures r.settings.locationEnabled == st.settings.locationEnabled
    ensures r.storage.Keys == st.storage.Keys + {LANGUAGE_KEY}
    ensures forall k | k in st.storage && k != LANGUAGE_KEY :: r.storage[k] == st.storage[k]
  {
    Store(st.settings.(language := Code(lang)), st.storage[LANGUAGE_KEY := Code(lang)])
  }

  /** `toggleLocation()`. */
  function LocationToggled(st: Store): (r: Store)
    ensures r.settings.locationEnabled == !st.settings.locationEnabled && LocationPersisted(r)
    ensures r.settings.language == st.settings.language
    ensures r.storage.Keys == st.storage.Keys + {LOCATION_KEY}
    ensures forall k | k in st.storage && k != LOCATION_KEY :: r.storage[k] == st.storage[k]
  {
    var flag := !st.settings.locationEnabled;
    Store(st.settings.(locationEnabled := flag), st.storage[LOCATION_KEY := BoolText(flag)])
  }

  /** The stored language is the current one. */
  predicate LanguagePersisted(st: Store)
  {
    LANGUAGE_KEY in st.storage && st.storage[LANGUAGE_KEY] == st.settings.language
    && st.settings.language != ""
  }

  /** The stored location value reads back as the current flag. */
  predicate LocationPersisted(st: Store)
  {
    LOCATION_KEY in st.storage && st.storage[LOCATION_KEY] == BoolText(st.settings.locationEnabled)
  }

  /** A store holding no settings leaves the defaults; a stored location value
      other than "true" turns the flag off. */
  lemma InitializeFromStorage(storage: map<string, string>)
    ensures var r := Initialized(Store(INITIAL_SETTINGS, storage)).settings;
            && (LANGUAGE_KEY !in storage ==> r.language == "en")
            && (LOCATION_KEY !in storage ==> r.locationEnabled)
            && (LOCATION_KEY in storage && storage[LOCATION_KEY] != "true" ==> !r.locationEnabled)
            && (LANGUAGE_KEY in storage && storage[LANGUAGE_KEY] != "" ==> r.language == storage[LANGUAGE_KEY])
            && (LOCATION_KEY in storage ==> r.locationEnabled == (storage[LOCATION_KEY] == "true"))
  {
  }

  /** Running the mount effect a second time changes nothing. */
  lemma InitializeIdempotent(st: Store)
    ensures Initialized(Initialized(st)) == Initialized(st)
  {
  }

  /** Setting the language writes it through, and touches nothing else. */
  lemma SetLanguageWritesThrough(st: Store, lang: Language)
    ensures var r := LanguageSet(st, lang);
            LanguagePersisted(r) && r.settings.language == Code(lang)
            && r.settings.locationEnabled == st.settings.locationEnabled
            && (LocationPersisted(st) ==> LocationPersisted(r))
  {
  }

  /** After a toggle, the flag is negated and state and store agree. */
  lemma ToggleWritesThrough(st: Store)
    ensures var r := LocationToggled(st);
            LocationPersisted(r) && r.settings.locationEnabled == !st.settings.locationEnabled
            && r.settings.language == st.settings.language
            && (LanguagePersisted(st) ==> LanguagePersisted(r))
  {
  }

  /** Toggling twice restores the flag, and the store again holds it. */
  lemma ToggleTwice(st: Store)
    ensures var r := LocationToggled(LocationToggled(st));
            r.settings == st.settings && LocationPersisted(r)
            && (LocationPersisted(st) ==> r.storage == st.storage)
  {
    var r := LocationToggled(LocationToggled(st));
    if LocationPersisted(st) {
      assert r.storage == st.storage[LOCATION_KEY := BoolText(st.settings.locationEnabled)];
    }
  }

  /** A reload restores whatever was written through: a fresh provider
      initialised from a store that agrees with some settings takes those
      settings. */
  lemma ReloadRestores(st: Store)
    requires LanguagePersisted(st) && LocationPersisted(st)
    ensures Initialized(Store(INITIAL_SETTINGS, st.storage)).settings == st.settings
  {
    assert (st.storage[LOCATION_KEY] == "true") == st.settings.locationEnabled;
  }

  /** The provider component: its two state fields and the browser store it
      writes through to. */
  class AppProvider {
    var language: string
    var locationEnabled: bool
    var storage: map<string, string>

    function State(): Store
      reads this
    {
      Store(Settings(language, locationEnabled), storage)
    }

    /** First render: English, location on, the store as the browser has it. */
    constructor (browserStorage: map<string, string>)
      ensures State() == Store(INITIAL_SETTINGS, browserStorage)
    {
      language := "en";
      locationEnabled := true;
      storage := browserStorage;
    }

    /** The mount effect. */
    method Initialize()
      modifies this
      ensures State() == Initialized(old(State()))
    {
      var savedLang := if LANGUAGE_KEY in storage then Some(storage[LANGUAGE_KEY]) else None;
      if savedLang.Some? && savedLang.value != "" {
        language := savedLang.value;
      }
      var savedLoc := if LOCATION_KEY in storage then Some(storage[LOCATION_KEY]) else None;
      if savedLoc.Some? {
        locationEnabled := savedLoc.value == "true";
      }
    }

    method SetLanguage(lang: Language)
      modifies this
      ensures State() == LanguageSet(old(State()), lang)
    {
      language := Code(lang);
      storage := storage[LANGUAGE_KEY := Code(lang)];
    }

    method ToggleLocation()
      modifies this
      ensures State() == LocationToggled(old(State()))
    {
      var newState := !locationEnabled;
      locationEnabled := newState;
      storage := storage[LOCATION_KEY := BoolText(newState)];
    }

    /** `t`, under the current language. */
    function T(key: string): string
      reads this
    {
      Translate(language, key)
    }
  }
}
