/** The interface language of lib/providers/language-provider.tsx. On mount the provider picks
    the language: a choice saved in `localStorage` under `preferred-language` wins, then a
    browser language starting with `pt` gives Brazilian Portuguese, and anything else English.
    Choosing a language saves it. Until it has mounted, and outside it, components read the
    English defaults. The browser (`window`, `localStorage`, `navigator`) is a value passed in. */
module LanguageProviders {
  import opened Wrappers
  import opened JsText

  datatype Language = EnUS | PtBR

  /** The language's tag, as stored and as the translation table is keyed. */
  function Tag(l: Language): (s: string)
    ensures LanguageOfTag(s) == Some(l)
  {
    match l
    case EnUS => "en-US"
    case PtBR => "pt-BR"
  }

  /** `stored === 'en-US' || stored === 'pt-BR'`: the language a stored value names. */
  function LanguageOfTag(s: string): Option<Language> {
    if s == "en-US" then Some(EnUS) else if s == "pt-BR" then Some(PtBR) else None
  }

  /** Only the two tags name a language, each its own. */
  lemma TagsAreTheLanguages(s: string)
    ensures LanguageOfTag(s).Some? <==> s == Tag(EnUS) || s == Tag(PtBR)
    ensures LanguageOfTag(s).Some? ==> Tag(LanguageOfTag(s).value) == s
  {
  }

  const StorageKey: string := "preferred-language"

  /** What the detection reads: `localStorage` (a missing key reads as `null`),
      `navigator.language` and the old `navigator.userLanguage` (`None` for `undefined`). */
  datatype Browser = Browser(storage: map<string, string>, navLanguage: Option<string>,
                             userLanguage: Option<string>)

  /** `navigator.language || navigator.userLanguage`: `None` when both are missing or the
      first is empty and the second missing. */
  function BrowserLanguage(b: Browser): Option<string> {
    if b.navLanguage.Some? && b.navLanguage.value != "" then b.navLanguage else b.userLanguage
  }

  /** The error `browserLang.startsWith` throws when there is no browser language. */
  datatype DetectError = NoBrowserLanguage

  /** `detectLanguage`; `env` is `None` where there is no `window` (rendering on the server). */
  function Detect(env: Option<Browser>): Result<Language, DetectError> {
    match env
    case None => Success(EnUS)
    case Some(b) =>
      var stored := if StorageKey in b.storage then LanguageOfTag(b.storage[StorageKey]) else None;
      if stored.Some? then Success(stored.value)
      else match BrowserLanguage(b)
           case None => Failure(NoBrowserLanguage)
           case Some(lang) => Success(if StartsWith(lang, "pt") then PtBR else EnUS)
  }

  /** Without a window the language is English; a stored tag of a known language wins over the
      browser, and any other stored value is ignored; otherwise a browser language starting with
      `pt` (`pt`, `pt-BR`, `pt-PT`) gives Brazilian Portuguese and every other one English. */
  lemma DetectRules(b: Browser)
    ensures Detect(None) == Success(EnUS)
    ensures StorageKey in b.storage && LanguageOfTag(b.storage[StorageKey]).Some? ==>
              Detect(Some(b)) == Success(LanguageOfTag(b.storage[StorageKey]).value)
    ensures (StorageKey !in b.storage || LanguageOfTag(b.storage[StorageKey]).None?) ==>
              Detect(Some(b)) == Detect(Some(b.(storage := map[])))
    ensures (StorageKey !in b.storage || LanguageOfTag(b.storage[StorageKey]).None?) && BrowserLanguage(b).Some? ==>
              (Detect(Some(b)) == Success(PtBR) <==> StartsWith(BrowserLanguage(b).value, "pt"))
  {
  }

  /** The browser's Portuguese variants and another language. */
  lemma DetectExamples(s: map<string, string>)
    requires StorageKey !in s
    ensures Detect(Some(Browser(s, Some("pt-PT"), None))) == Success(PtBR)
    ensures Detect(Some(Browser(s, Some("en-GB"), None))) == Success(EnUS)
    ensures Detect(Some(Browser(s[StorageKey := "pt-BR"], Some("en-GB"), None))) == Success(PtBR)
    ensures Detect(Some(Browser(s[StorageKey := "fr-FR"], Some("en-GB"), None))) == Success(EnUS)
  {
    assert StartsWith("pt-PT", "pt");
    assert "en-GB"[..2][0] != "pt"[0];
  }

  /** `localStorage.setItem('preferred-language', lang)`. */
  function Persist(b: Browser, l: Language): Browser {
    b.(storage := b.storage[StorageKey := Tag(l)])
  }

  /** A saved choice is what the next detection finds, whatever the browser's own language. */
  lemma PersistRoundTrip(b: Browser, l: Language)
    ensures Detect(Some(Persist(b, l))) == Success(l)
  {
  }

  /** What `useLanguage` gives a component: the language, the translation table (named by its
      language) and whether `setLanguage` does anything. */
  datatype LanguageContext = LanguageContext(language: Language, table: Language, canSet: bool)

  /** `useLanguage`: the provider's context, or, where there is none, English with a
      `setLanguage` that does nothing. */
  function UseLanguage(context: Option<LanguageContext>): (c: LanguageContext)
    ensures context.Some? ==> c == context.value
    ensures context.None? ==> c.language == EnUS && c.table == EnUS && !c.canSet
  {
    match context
    case Some(c) => c
    case None => LanguageContext(EnUS, EnUS, false)
  }

  /** The provider. */
  class LanguageProvider {
    var language: Language
    var mounted: bool
    /** The browser the provider runs in; only its storage changes. */
    var browser: Browser

    /** The context the provider gives its children: none until it has mounted. */
    function Context(): (c: Option<LanguageContext>)
      reads this
      ensures c.Some? <==> mounted
      ensures c.Some? ==> c.value.language == language && c.value.table == language && c.value.canSet
    {
      if mounted then Some(LanguageContext(language, language, true)) else None
    }

    constructor (browser: Browser)
      ensures language == EnUS && !mounted && this.browser == browser
    {
      language, mounted := EnUS, false;
      this.browser := browser;
    }

    /** The mount effect: detect and publish the context. A detection that throws leaves the
        provider unmounted. */
    method Mount()
      modifies this
      ensures browser == old(browser)
      ensures Detect(Some(browser)).Success? ==> language == Detect(Some(browser)).value && mounted
      ensures Detect(Some(browser)).Failure? ==> language == old(language) && mounted == old(mounted)
    {
      var detected := Detect(Some(browser));
      if detected.Success? {
        language := detected.value;
        mounted := true;
      }
    }

    /** `setLanguage`: show the language and save it. */
    method SetLanguage(l: Language)
      modifies this
      ensures language == l && mounted == old(mounted) && browser == Persist(old(browser), l)
    {
      language := l;
      browser := browser.(storage := browser.storage[StorageKey := Tag(l)]);
    }
  }

  /** Until the provider has mounted its children read English, whatever is stored. */
  lemma EnglishUntilMounted(p: LanguageProvider)
    requires !p.mounted
    ensures UseLanguage(p.Context()) == LanguageContext(EnUS, EnUS, false)
  {
  }

  /** A language chosen in one visit is the one a later visit's provider mounts with. */
  method ChoiceSurvivesReload(b: Browser, l: Language) returns (later: Language)
    ensures later == l
  {
    var first := new LanguageProvider(b);
    first.Mount();
    first.SetLanguage(l);
    var second := new LanguageProvider(first.browser);
    PersistRoundTrip(b, l);
    second.Mount();
    later := second.language;
  }
}
