/**
 * `Language`: an immutable name/code/locale triple, and the static table of
 * available languages keyed by locale code.
 */
module Language {
  import opened JavaLang

  /** `java.util.Locale`, reduced to its language, country and variant. */
  datatype Locale = Locale(language: string, country: string, variant: string) {

    /**
     * `Locale.toString()` for a locale with no script and no extensions: the
     * empty string without a language and a country, otherwise the language,
     * then `_` and the country when a country or a variant follows, then `_`
     * and the variant when there is one.
     */
    function ToString(): (s: string)
      ensures language == [] && country == [] ==> s == []
      ensures language != [] || country != [] ==>
                s == language + (if country != [] || variant != [] then "_" + country else "")
                  + (if variant != [] then "_" + variant else "")
    {
      var l := language != [];
      var r := country != [];
      var v := variant != [];
      language
        + (if r || (l && v) then "_" + country else "")
        + (if v && (l || r) then "_" + variant else "")
    }
  }

  /** The examples of the JDK's documentation of `Locale.toString()`. */
  lemma LocaleTextExamples()
    ensures Locale("en", "", "").ToString() == "en"
    ensures Locale("de", "DE", "").ToString() == "de_DE"
    ensures Locale("", "GB", "").ToString() == "_GB"
    ensures Locale("en", "US", "WIN").ToString() == "en_US_WIN"
    ensures Locale("de", "", "POSIX").ToString() == "de__POSIX"
    ensures Locale("", "", "POSIX").ToString() == ""
  {
  }

  /** A language; its fields are final and it does not override `equals`. */
  class Language {
    const name: string
    const code: string
    const locale: Locale

    /** The private constructor, used only by `init`. */
    constructor (name: string, code: string, locale: Locale)
      ensures this.name == name && this.code == code && this.locale == locale
    {
      this.name := name;
      this.code := code;
      this.locale := locale;
    }

    /** `getName()`: the name written in the language. */
    function GetName(): string { name }

    /** `getCode()` */
    function GetCode(): string { code }

    /** `getLocale()`: a copy of the locale, equal to it. */
    function GetLocale(): Locale { locale }

    /** `toString()` is the language's name. */
    function ToString(): (s: string)
      ensures s == GetName()
    {
      GetName()
    }
  }

  /** The code `init` files a language under: its locale's text. */
  function CodeOf(config: map<string, Locale>, name: string): string
    requires name in config
  {
    config[name].ToString()
  }

  /**
   * Among the first `k` entries of the iteration order, `name` is the last
   * whose locale has code `code`: it is the entry `init` leaves under `code`.
   */
  ghost predicate LastWithCode(config: map<string, Locale>, order: seq<string>, k: int, name: string, code: string) {
    exists i :: 0 <= i < k && i < |order| && order[i] == name && name in config && CodeOf(config, name) == code
      && forall j :: i < j < k && j < |order| && order[j] in config ==> CodeOf(config, order[j]) != code
  }

  /** What `init` has filed after visiting the first `k` entries of `order`. */
  ghost predicate FiledUpTo(config: map<string, Locale>, order: seq<string>, k: int, m: map<string, Language>) {
    && 0 <= k <= |order|
    && (forall j :: 0 <= j < k ==> order[j] in config)
    && m.Keys == (set j | 0 <= j < k && order[j] in config :: CodeOf(config, order[j]))
    && forall c :: c in m ==>
         && m[c].code == c && m[c].name in config && m[c].locale == config[m[c].name]
         && LastWithCode(config, order, k, m[c].name, c)
  }

  /** Filing the language of entry `k` extends what is filed to `k + 1` entries. */
  lemma FileStep(config: map<string, Locale>, order: seq<string>, k: int, m: map<string, Language>, l: Language)
    requires FiledUpTo(config, order, k, m) && k < |order| && order[k] in config
    requires l.name == order[k] && l.locale == config[order[k]] && l.code == CodeOf(config, order[k])
    ensures FiledUpTo(config, order, k + 1, m[l.code := l])
  {
  }

  /** Once every entry is visited, the codes filed are those of all the locales. */
  lemma FiledAll(config: map<string, Locale>, order: seq<string>, m: map<string, Language>)
    requires FiledUpTo(config, order, |order|, m)
    requires forall n :: n in config <==> n in order
    ensures m.Keys == set n | n in config :: CodeOf(config, n)
  {
  }

  /** The static state of `Language`: `languages` is `null` until `init` runs. */
  class LanguageRegistry {
    var languages: Option<map<string, Language>>

    /** Every stored language is filed under its own code. */
    ghost predicate Valid()
      reads this
    {
      languages.Some? ==> forall c :: c in languages.value ==> languages.value[c].code == c
    }

    constructor ()
      ensures languages == None && Valid()
    {
      languages := None;
    }

    /**
     * `init(config)`: discard the known languages, then for each entry
     * (name, locale) file a new language under the locale's text. `order` is
     * the order in which the map's entries are visited.
     */
    method Init(config: map<string, Locale>, order: seq<string>)
      requires forall n :: n in config <==> n in order
      requires forall i, j :: 0 <= i < j < |order| ==> order[i] != order[j]
      modifies this`languages
      ensures Valid() && languages.Some?
      ensures languages.value.Keys == set n | n in config :: CodeOf(config, n)
      ensures forall c :: c in languages.value ==>
                var l := languages.value[c];
                fresh(l) && l.name in config && l.locale == config[l.name]
                && LastWithCode(config, order, |order|, l.name, c)
    {
      languages := Some(map[]);
      for k := 0 to |order|
        invariant languages.Some? && FiledUpTo(config, order, k, languages.value)
        invariant forall c :: c in languages.value ==> fresh(languages.value[c])
      {
        var name := order[k];
        var locale := config[name];
        var l := new Language(name, locale.ToString(), locale);
        FileStep(config, order, k, languages.value, l);
        languages := Some(languages.value[locale.ToString() := l]);
      }
      FiledAll(config, order, languages.value);
    }

    /** `getDefault()`: the language filed under `"default"`, or `null`. */
    function GetDefault(): (r: Result<Language?>)
      reads this
      ensures r.Err? <==> languages.None?
      ensures r.Err? ==> r.error == NullPointerException
      ensures r.Ok? ==> (r.value != null <==> "default" in languages.value)
      ensures r.Ok? && r.value != null ==> r.value == languages.value["default"]
    {
      match languages
      case None => Err(NullPointerException)
      case Some(m) => Ok(if "default" in m then m["default"] else null)
    }

    /**
     * `fromCode(code)`: scans the entries for one whose key equals `code`.
     * The scan visits the keys in an arbitrary order.
     */
    method FromCode(code: Option<string>) returns (r: Result<Language?>)
      ensures languages.None? ==> r == Err(NullPointerException)
      ensures languages.Some? ==> r.Ok?
      ensures languages.Some? ==> (r.value != null <==> code.Some? && code.value in languages.value)
      ensures languages.Some? && r.value != null ==> r.value == languages.value[code.value]
    {
      if languages.None? {
        return Err(NullPointerException);
      }
      var entries := languages.value;
      var remaining := entries.Keys;
      while remaining != {}
        invariant remaining <= entries.Keys
        invariant code.Some? && code.value in entries ==> code.value in remaining
        decreases remaining
      {
        var k :| k in remaining;
        if Some(k) == code {
          return Ok(entries[k]);
        }
        remaining := remaining - {k};
      }
      return Ok(null);
    }

    /** After `init`, looking up a stored language's own code finds that language. */
    method FromCodeOfStored(l: Language) returns (r: Result<Language?>)
      requires Valid() && languages.Some? && l in languages.value.Values
      ensures r == Ok(l)
    {
      r := FromCode(Some(l.GetCode()));
    }
  }
}
