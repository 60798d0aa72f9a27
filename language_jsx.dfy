/** Client/src/contexts/LanguageContext.jsx: the JavaScript provider keeps
    the language in a cell that `changeLanguage` replaces; `useLanguage`
    builds `t`, which walks a dotted path over own properties only and answers
    the path itself whenever the walk does not end on a string. There is no
    English fallback. */
module LanguageJsx {
  import opened Base
  import opened DottedPath
  import LanguageTsx

  /** `MOCK_TRANSLATIONS[language] || {}`: any language value is accepted, and
      one without a table reads as an empty object. */
  function Root(translations: map<string, Node>, language: string): (root: Node)
    ensures language !in translations ==> root == Obj(map[])
    ensures language in translations && translations[language].Obj? ==> root == translations[language]
  {
    if language in translations && JsTruthy(translations[language]) then translations[language] else Obj(map[])
  }

  /** What `t(path)` gives with `language` current: the string at the end of
      the walk, and otherwise the path. */
  function Translate(translations: map<string, Node>, language: string, path: string): (r: string)
    ensures Walk(Root(translations, language), Split(path)).Some? &&
            Walk(Root(translations, language), Split(path)).value.Str? ==>
              r == Walk(Root(translations, language), Split(path)).value.s
    ensures r == path || Walk(Root(translations, language), Split(path)) == Some(Str(r))
  {
    match Walk(Root(translations, language), Split(path))
    case Some(Str(s)) => s
    case _ => path
  }

  /** The provider's language cell over the fixed translation table. */
  class LanguageProvider {
    var language: string
    const translations: map<string, Node>

    /** The provider starts in English. */
    constructor (translations: map<string, Node>)
      ensures language == "en" && this.translations == translations
    {
      language := "en";
      this.translations := translations;
    }

    /** `changeLanguage(lang)`, exposed as `setLanguage`. */
    method ChangeLanguage(lang: string)
      modifies this
      ensures language == lang
    {
      language := lang;
    }

    /** `t(path)`: one own property per piece of the path; the path itself on
        the first missing one. */
    method T(path: string) returns (r: string)
      ensures r == Translate(translations, language, path)
    {
      var parts := Split(path);
      var cur := Root(translations, language);
      var i := 0;
      while i < |parts|
        invariant 0 <= i <= |parts|
        invariant Walk(Root(translations, language), parts) == Walk(cur, parts[i..])
      {
        assert parts[i..][0] == parts[i] && parts[i..][1..] == parts[i + 1..];
        var next := Child(cur, parts[i]);
        if next.None? {
          return path;
        }
        cur := next.value;
        i := i + 1;
      }
      assert parts[i..] == [];
      r := if cur.Str? then cur.s else path;
    }
  }

  /** An unknown language (one `changeLanguage` accepts though the table has
      none) turns every lookup into its path. */
  lemma UnknownLanguageGivesPath(translations: map<string, Node>, language: string, path: string)
    requires language !in translations
    ensures Translate(translations, language, path) == path
  {
    EmptyObjectHasNoPaths(Split(path));
  }

  /** In English the two contexts agree on every path: the TypeScript
      fallback re-walks the English table that just failed. */
  lemma AgreesWithTsxInEnglish(translations: map<string, Node>, path: string)
    requires "en" in translations
    ensures LanguageTsx.Translate(translations, LanguageTsx.En, path) == LanguageTsx.Returned(Str(Translate(translations, "en", path)))
  {
    var keys := Split(path);
    if translations["en"].Str? {
      assert Walk(translations["en"], keys) == None;
      EmptyObjectHasNoPaths(keys);
    }
  }

  /** In any language, the two contexts agree wherever the current language
      has every key of the path; they differ only on a missing key, where
      this one answers the path and the TypeScript one English. */
  lemma AgreesWithTsxWhenFound(translations: map<string, Node>, language: LanguageTsx.Language, path: string)
    requires LanguageTsx.Code(language) in translations
    requires Walk(translations[LanguageTsx.Code(language)], Split(path)).Some?
    ensures LanguageTsx.Translate(translations, language, path)
         == LanguageTsx.Returned(Str(Translate(translations, LanguageTsx.Code(language), path)))
  {
    var keys := Split(path);
    assert translations[LanguageTsx.Code(language)].Obj?;
  }

  /** `useLanguage()` outside a provider throws. */
  function UseLanguage(context: Option<LanguageProvider>): (r: Result<LanguageProvider>)
    ensures r.Failure? <==> context.None?
    ensures context.Some? ==> r == Success(context.value)
  {
    if context.None? then Failure("useLanguage must be used within a LanguageProvider") else Success(context.value)
  }
}
