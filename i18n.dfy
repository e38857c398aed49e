/** Translations: the language in use, its key-to-text table, lookup with
    the key itself as the fallback, and the choice of language from the
    system locale when the setting is "auto".

    The two tables are data and are parameters here; the locale environment
    variables are a parameter too (an unset or unreadable variable is
    `None`). */
module I18n {
  import opened Wrappers
  import opened Text

  /** The locale variables consulted, in order */
  datatype LocaleVars = LocaleVars(lang: Option<string>, lcAll: Option<string>, lcMessages: Option<string>)

  /** The first locale variable that is set, else "en" */
  function LocaleString(vars: LocaleVars): (s: string)
    ensures vars.lang.Some? ==> s == vars.lang.value
    ensures vars.lang.None? && vars.lcAll.Some? ==> s == vars.lcAll.value
    ensures vars.lang.None? && vars.lcAll.None? && vars.lcMessages.Some? ==> s == vars.lcMessages.value
    ensures vars.lang.None? && vars.lcAll.None? && vars.lcMessages.None? ==> s == "en"
  {
    vars.lang.Or(vars.lcAll).Or(vars.lcMessages).UnwrapOr("en")
  }

  /** The language part of a locale: the text before the first '_', then
      before the first '.' ("fr_FR.UTF-8" gives "fr") */
  function LanguageCode(locale: string): (code: string)
    ensures |code| <= |locale| && code == locale[..|code|]
    ensures '_' !in code && '.' !in code
  {
    var beforeUnderscore := Split(locale, '_')[0];
    SplitFirstPiece(locale, '_');
    SplitFirstPiece(beforeUnderscore, '.');
    Split(beforeUnderscore, '.')[0]
  }

  /** The first piece of a split ends at the first separator */
  lemma FirstPieceOf(s: string, c: char, n: nat)
    requires n <= |s| && c !in s[..n] && (n == |s| || s[n] == c)
    ensures Split(s, c)[0] == s[..n]
  {
    SplitFirstPiece(s, c);
    var p := Split(s, c)[0];
    assert forall k :: 0 <= k < n ==> s[k] != c;
    assert forall k :: 0 <= k < |p| ==> p[k] == s[k] && p[k] != c;
  }

  /** A locale names French exactly when it is "fr" or starts with "fr"
      followed by a territory ('_') or an encoding ('.') */
  lemma FrenchLocale(locale: string)
    ensures LanguageCode(locale) == "fr" <==>
      (|locale| >= 2 && locale[..2] == "fr" && (|locale| == 2 || locale[2] == '_' || locale[2] == '.'))
  {
    if |locale| >= 2 && locale[..2] == "fr" && (|locale| == 2 || locale[2] == '_' || locale[2] == '.') {
      FrenchLocaleIf(locale);
    }
    if LanguageCode(locale) == "fr" {
      FrenchLocaleOnlyIf(locale);
    }
  }

  /** A French locale gives the code "fr" */
  lemma FrenchLocaleIf(locale: string)
    requires |locale| >= 2 && locale[..2] == "fr" && (|locale| == 2 || locale[2] == '_' || locale[2] == '.')
    ensures LanguageCode(locale) == "fr"
  {
    var p := Split(locale, '_')[0];
    SplitFirstPiece(locale, '_');
    assert locale[0] == 'f' && locale[1] == 'r';
    if |locale| == 2 || locale[2] == '_' {
      FirstPieceOf(locale, '_', 2);
      FirstPieceOf(p, '.', 2);
    } else {
      assert forall k :: 0 <= k < 3 ==> locale[k] != '_';
      assert |p| >= 3 && p[..3] == locale[..3];
      FirstPieceOf(p, '.', 2);
    }
  }

  /** The code "fr" comes only from a French locale */
  lemma FrenchLocaleOnlyIf(locale: string)
    requires LanguageCode(locale) == "fr"
    ensures |locale| >= 2 && locale[..2] == "fr" && (|locale| == 2 || locale[2] == '_' || locale[2] == '.')
  {
    var p := Split(locale, '_')[0];
    SplitFirstPiece(locale, '_');
    SplitFirstPiece(p, '.');
    var q := Split(p, '.')[0];
    assert q == LanguageCode(locale) == "fr";
    assert q == p[..2] && p == locale[..|p|];
    assert locale[..2] == "fr";
    if |p| > 2 {
      assert p[2] == '.' && p[2] == locale[2];
    }
  }

  /** `detect_system_language`: French for a French locale, else English */
  function DetectSystemLanguage(vars: LocaleVars): (code: string)
    ensures code == "fr" || code == "en"
  {
    match LanguageCode(LocaleString(vars))
    case "fr" => "fr"
    case _ => "en"
  }

  /** The language `set_language` settles on: the detected one for "auto",
      otherwise the argument as given */
  function ResolveLanguage(lang: string, vars: LocaleVars): (code: string)
    ensures lang != "auto" ==> code == lang
    ensures lang == "auto" ==> code == DetectSystemLanguage(vars)
  {
    if lang == "auto" then DetectSystemLanguage(vars) else lang
  }

  /** "fr_FR.UTF-8" is French and "en_US.UTF-8" is English */
  lemma DetectExamples(vars: LocaleVars, locale: string)
    requires vars.lang == Some(locale)
    ensures locale == "fr_FR.UTF-8" ==> DetectSystemLanguage(vars) == "fr"
    ensures locale == "en_US.UTF-8" ==> DetectSystemLanguage(vars) == "en"
  {
    FrenchLocale(locale);
    if locale == "fr_FR.UTF-8" {
      assert locale[..2] == "fr" && locale[2] == '_';
    } else if locale == "en_US.UTF-8" {
      assert locale[0] != 'f';
    }
  }

  /** With no locale variable set the language is English */
  lemma DetectDefault(vars: LocaleVars)
    requires vars.lang.None? && vars.lcAll.None? && vars.lcMessages.None?
    ensures DetectSystemLanguage(vars) == "en"
  {
    var locale := LocaleString(vars);
    FrenchLocale(locale);
    assert |locale| == 2 && locale[0] != 'f';
  }

  /** `I18n`: the language code in use and its table */
  class I18n {
    /** The French and English tables */
    const french: map<string, string>
    const english: map<string, string>
    var currentLang: string
    var translations: map<string, string>

    /** `I18n::new(lang)` */
    constructor New(lang: string, vars: LocaleVars, french: map<string, string>, english: map<string, string>)
      ensures this.french == french && this.english == english
      ensures currentLang == ResolveLanguage(lang, vars)
      ensures translations == (if currentLang == "fr" then french else english)
    {
      this.french := french;
      this.english := english;
      var code := ResolveLanguage(lang, vars);
      currentLang := code;
      translations := if code == "fr" then french else english;
    }

    /** `I18n::default`: the language follows the system locale */
    constructor Default(vars: LocaleVars, french: map<string, string>, english: map<string, string>)
      ensures this.french == french && this.english == english
      ensures currentLang == DetectSystemLanguage(vars)
      ensures translations == (if currentLang == "fr" then french else english)
    {
      this.french := french;
      this.english := english;
      var code := ResolveLanguage("auto", vars);
      currentLang := code;
      translations := if code == "fr" then french else english;
    }

    /** `set_language`: French when the resolved code is "fr", English for
        every other code, though the code itself is kept as given */
    method SetLanguage(lang: string, vars: LocaleVars)
      modifies this
      ensures currentLang == ResolveLanguage(lang, vars)
      ensures translations == (if currentLang == "fr" then french else english)
    {
      var code := if lang == "auto" then DetectSystemLanguage(vars) else lang;
      currentLang := code;
      translations := match code
        case "fr" => french
        case _ => english;
    }

    /** `get`: the translation, or the key itself when the table lacks it */
    function Get(key: string): (text: string)
      reads this
      ensures key in translations ==> text == translations[key]
      ensures key !in translations ==> text == key
    {
      if key in translations then translations[key] else key
    }

    /** `current_language` */
    function CurrentLanguage(): (code: string)
      reads this
      ensures code == currentLang
    {
      currentLang
    }
  }

  /** The French table is chosen exactly when French is asked for, or
      when "auto" meets a French locale; any other code reads English */
  lemma FrenchOnlyWhenAsked(lang: string, vars: LocaleVars)
    ensures ResolveLanguage(lang, vars) == "fr" <==>
      lang == "fr" || (lang == "auto" && LanguageCode(LocaleString(vars)) == "fr")
  {
  }
}
