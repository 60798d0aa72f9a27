/** Client/src/contexts/LanguageContext.tsx: the language cell of the
    TypeScript provider and its `t`, which walks a dotted path in the current
    language and, when a key is missing, falls back to the English value of
    the whole path. */
module LanguageTsx {
  import opened Base
  import opened DottedPath

  /** The `Language` union `'en' | 'si' | 'ta'`. */
  datatype Language = En | Si | Ta

  /** The key of each language in the translation table. */
  function Code(l: Language): (code: string)
    ensures l == En <==> code == "en"
  {
    match l
    case En => "en"
    case Si => "si"
    case Ta => "ta"
  }

  /** How a call of `t` ends: the value it returns, or the `TypeError` of
      reading a property of `undefined` (the current language has no table). */
  datatype Lookup = Returned(value: Node) | TypeError

  /** `fallback || path`, where `fallback` is the English value of the whole
      path (undefined when the table has no English). */
  function Fallback(translations: map<string, Node>, keys: seq<string>, path: string): Node
  {
    var fallback := EnglishWalk(translations, keys);
    if fallback.Some? && JsTruthy(fallback.value) then fallback.value else Str(path)
  }

  /** `MOCK_TRANSLATIONS['en']?.[k1]?.[k2]…` */
  function EnglishWalk(translations: map<string, Node>, keys: seq<string>): Option<Node>
  {
    WalkFrom(if "en" in translations then Some(translations["en"]) else None, keys)
  }

  /** What `t(path)` gives with `language` current. */
  function Translate(translations: map<string, Node>, language: Language, path: string): (r: Lookup)
    ensures r.TypeError? <==> Code(language) !in translations
    ensures r.Returned? && r.value.Obj? ==>
      Walk(translations[Code(language)], Split(path)).None? && EnglishWalk(translations, Split(path)) == Some(r.value)
  {
    if Code(language) !in translations then TypeError
    else
      match Walk(translations[Code(language)], Split(path))
      case Some(Str(s)) => Returned(Str(s))
      case Some(Obj(_)) => Returned(Str(path))
      case None => Returned(Fallback(translations, Split(path), path))
  }

  /** Where a walk ends: nowhere, on a string, or on an object. */
  datatype Kind = Missing | OnStr | OnObj

  function KindOf(o: Option<Node>): Kind
  {
    match o
    case None => Missing
    case Some(Str(_)) => OnStr
    case Some(Obj(_)) => OnObj
  }

  /** Two tables with the same keys at every level and strings in the same
      places (as the three languages of `MOCK_TRANSLATIONS` are). */
  ghost predicate SameShape(a: Node, b: Node)
  {
    forall keys: seq<string> :: KindOf(Walk(a, keys)) == KindOf(Walk(b, keys))
  }

  /** The provider's state: the current language (`useState<Language>`) over
      a fixed translation table. */
  class LanguageProvider {
    var language: Language
    const translations: map<string, Node>

    /** The provider starts in English. */
    constructor (translations: map<string, Node>)
      ensures language == En && this.translations == translations
    {
      language := En;
      this.translations := translations;
    }

    /** `setLanguage(lang)` */
    method SetLanguage(lang: Language)
      modifies this
      ensures language == lang
    {
      language := lang;
    }

    /** `t(path)`: the walk in the current language; on the first missing
        key, the walk of the whole path in English. */
    method T(path: string) returns (r: Lookup)
      ensures r == Translate(translations, language, path)
    {
      var keys := Split(path);
      if Code(language) !in translations {
        // `current` is undefined and `current[keys[0]]` throws.
        return TypeError;
      }
      var current := translations[Code(language)];
      var i := 0;
      while i < |keys|
        invariant 0 <= i <= |keys|
        invariant Walk(translations[Code(language)], keys) == Walk(current, keys[i..])
      {
        var next := Child(current, keys[i]);
        assert keys[i..][0] == keys[i] && keys[i..][1..] == keys[i + 1..];
        if next.None? {
          var fallback: Option<Node> := if "en" in translations then Some(translations["en"]) else None;
          var j := 0;
          while j < |keys|
            invariant 0 <= j <= |keys|
            invariant WalkFrom(fallback, keys[j..]) == EnglishWalk(translations, keys)
          {
            assert keys[j..][0] == keys[j] && keys[j..][1..] == keys[j + 1..];
            fallback := if fallback.None? then None else Child(fallback.value, keys[j]);
            j := j + 1;
          }
          assert keys[j..] == [];
          if fallback.Some? && JsTruthy(fallback.value) {
            return Returned(fallback.value);
          }
          return Returned(Str(path));
        }
        current := next.value;
        i := i + 1;
      }
      assert keys[i..] == [];
      r := if current.Str? then Returned(current) else Returned(Str(path));
    }
  }

  /** When every language has the shape of English, `t` always returns a
      string, as its declared type `string` says. */
  lemma TranslateIsString(translations: map<string, Node>, language: Language, path: string)
    requires Code(language) in translations && "en" in translations
    requires SameShape(translations[Code(language)], translations["en"])
    ensures Translate(translations, language, path).Returned?
    ensures Translate(translations, language, path).value.Str?
  {
    var keys := Split(path);
    assert KindOf(Walk(translations[Code(language)], keys)) == KindOf(Walk(translations["en"], keys));
  }

  /** Without that shape the `any`-typed walk can hand back an object: with
      Sinhala lacking the `footer` section, `t('footer')` returns English's
      `footer` object. */
  lemma TranslateCanReturnObject()
    ensures
      var footer := Obj(map["rights" := Str("rights")]);
      Translate(map["en" := Obj(map["footer" := footer]), "si" := Obj(map[])], Si, "footer")
        == Returned(footer)
  {
    SplitPiece("footer");
  }

  /** English is consulted only for a key missing in the current language:
      while the current walk reaches a value, replacing the English table
      changes nothing. */
  lemma EnglishOnlyOnMissingKey(translations: map<string, Node>, language: Language, path: string, english: Node)
    requires Code(language) in translations && language != En
    requires Walk(translations[Code(language)], Split(path)).Some?
    ensures Translate(translations["en" := english], language, path) == Translate(translations, language, path)
  {
    assert translations["en" := english][Code(language)] == translations[Code(language)];
  }

  /** In English a missing key gives the path back: the fallback walk is the
      walk that just failed. */
  lemma EnglishMissingIsPath(translations: map<string, Node>, path: string)
    requires "en" in translations && Walk(translations["en"], Split(path)).None?
    ensures Translate(translations, En, path) == Returned(Str(path))
  {
  }

  /** `useLanguage()`: the provider's value, or the error thrown outside a
      provider. */
  function UseLanguage(context: Option<LanguageProvider>): (r: Result<LanguageProvider>)
    ensures r.Failure? <==> context.None?
    ensures context.Some? ==> r == Success(context.value)
  {
    if context.None? then Failure("useLanguage must be used within a LanguageProvider") else Success(context.value)
  }
}
