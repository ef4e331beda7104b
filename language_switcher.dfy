/**
 * The language menu: the link for another language is the current path with
 * its locale segment swapped, and the language shown is the current locale's
 * entry, English when the locale is unknown.
 */
module LanguageSwitcher {
  import opened Common
  import opened Text

  datatype Language = Language(code: string, name: string, flag: string)

  const Languages: seq<Language> := [
    Language("en", "English", "\U{1F1FA}\U{1F1F8}"),
    Language("fr", "Fran\U{E7}ais", "\U{1F1EB}\U{1F1F7}")
  ]

  /**
   * `getLocalizedPath(newLocale)`: the first occurrence of `/<locale>` is removed (`replace` with a
   * string pattern), an empty remainder stands for `/`, and the new locale is put in front, with no
   * trailing `/` for the root.
   */
  function LocalizedPath(pathname: string, locale: string, newLocale: string): (r: string)
    ensures StartsWith(r, "/" + newLocale)
  {
    var stripped := ReplaceFirst(pathname, "/" + locale, "");
    var rest := if stripped == [] then "/" else stripped;
    var r := "/" + newLocale + (if rest == "/" then "" else rest);
    assert r[..|"/" + newLocale|] == "/" + newLocale;
    r
  }

  /** The root of a locale maps to the root of the new locale. */
  lemma LocalizedRoot(locale: string, newLocale: string)
    ensures LocalizedPath("/" + locale, locale, newLocale) == "/" + newLocale
  {
    ReplaceFirstAtStart("/" + locale, [], []);
    assert ("/" + locale) + [] == "/" + locale;
  }

  /** A page below a locale keeps everything after the locale segment. */
  lemma LocalizedPage(locale: string, rest: string, newLocale: string)
    requires |rest| >= 1 && rest[0] == '/' && rest != "/"
    ensures LocalizedPath("/" + locale + rest, locale, newLocale) == "/" + newLocale + rest
  {
    ReplaceFirstAtStart("/" + locale, rest, []);
  }

  /** Switching to another language and back leads to the page one started from. */
  lemma SwitchBack(a: string, b: string, rest: string)
    requires rest == [] || (rest[0] == '/' && rest != "/")
    ensures LocalizedPath(LocalizedPath("/" + a + rest, a, b), b, a) == "/" + a + rest
  {
    if rest == [] {
      assert "/" + a + rest == "/" + a;
      LocalizedRoot(a, b);
      LocalizedRoot(b, a);
    } else {
      LocalizedPage(a, rest, b);
      LocalizedPage(b, rest, a);
    }
  }

  /** The root with a trailing slash loses it: `/en/` becomes `/fr`. */
  lemma TrailingSlashDropped(locale: string, newLocale: string)
    ensures LocalizedPath("/" + locale + "/", locale, newLocale) == "/" + newLocale
  {
    ReplaceFirstAtStart("/" + locale, "/", []);
  }

  /** `languages.find(lang => lang.code === locale)` */
  function FindLanguage(languages: seq<Language>, locale: string): (r: Option<Language>)
    ensures r.Some? ==> r.value in languages && r.value.code == locale
    ensures r.None? <==> forall k :: 0 <= k < |languages| ==> languages[k].code != locale
    decreases |languages|
  {
    if languages == [] then None
    else if languages[0].code == locale then Some(languages[0])
    else
      var r := FindLanguage(languages[1..], locale);
      assert forall k :: 1 <= k < |languages| ==> languages[1..][k - 1] == languages[k];
      r
  }

  /** `currentLanguage`: the locale's entry, or English. */
  function CurrentLanguage(locale: string): (r: Language)
    ensures r in Languages
  {
    match FindLanguage(Languages, locale)
    case Some(l) => l
    case None => Languages[0]
  }

  /** The menu shows the entry of a supported locale and English for any other locale. */
  lemma CurrentLanguageSpec(locale: string)
    ensures locale == "en" || locale == "fr" ==> CurrentLanguage(locale).code == locale
    ensures locale != "en" && locale != "fr" ==> CurrentLanguage(locale) == Languages[0]
    ensures Languages[0].code == "en"
  {
    assert Languages[0].code == "en" && Languages[1].code == "fr";
  }
}
