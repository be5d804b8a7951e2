/**
 * `ApplicationRegistry`: the static slot holding the running application and
 * the ordered list of available languages, the first of which becomes the
 * default language.
 */
module ApplicationRegistry {
  import opened JavaLang
  import Language

  /** An object implementing the `Application` interface; only its identity matters here. */
  class Application {
    constructor () {}
  }

  /** No language among the first `i` is `null` or has code `code`. */
  predicate NoMatchBefore(ls: seq<Language.Language?>, code: Option<string>, i: int)
    requires 0 <= i <= |ls|
  {
    forall j :: 0 <= j < i ==> ls[j] != null && Some(ls[j].code) != code
  }

  /** The static state of `ApplicationRegistry`; every field starts as `null`. */
  class ApplicationRegistry {
    var application: Application?
    var languages: Option<seq<Language.Language?>>
    var defaultLanguage: Language.Language?

    constructor ()
      ensures application == null && languages == None && defaultLanguage == null
    {
      application := null;
      languages := None;
      defaultLanguage := null;
    }

    /** `registerApplication(app)`: `null` is refused. */
    method RegisterApplication(app: Application?) returns (r: Result<()>)
      modifies this`application
      ensures app == null ==> r == Err(NullPointerException) && application == old(application)
      ensures app != null ==> r == Ok(()) && application == app
    {
      if app == null {
        return Err(NullPointerException);
      }
      application := app;
      r := Ok(());
    }

    /** `getApplication()`: fails until an application is registered. */
    function GetApplication(): (r: Result<Application>)
      reads this
      ensures r.Err? <==> application == null
      ensures r.Err? ==> r.error == IllegalStateException
      ensures r.Ok? ==> r.value == application
    {
      if application == null then Err(IllegalStateException) else Ok(application)
    }

    /**
     * `setLanguages(langs)`: stores a copy of the list and makes its first
     * element the default. The copy is stored before the emptiness check, so an
     * empty list replaces the languages but leaves the default language as it was.
     */
    method SetLanguages(langs: seq<Language.Language?>) returns (r: Result<()>)
      modifies this`languages, this`defaultLanguage
      ensures languages == Some(langs)
      ensures |langs| == 0 ==> r == Err(IllegalArgumentException) && GetDefaultLanguage() == old(GetDefaultLanguage())
      ensures |langs| > 0 ==> r == Ok(()) && GetDefaultLanguage() == langs[0]
    {
      languages := Some(langs);
      if |langs| == 0 {
        return Err(IllegalArgumentException);
      }
      defaultLanguage := langs[0];
      r := Ok(());
    }

    /** `getLanguages()`: a fresh array holding the languages in list order. */
    method GetLanguages() returns (r: Result<array<Language.Language?>>)
      ensures languages.None? ==> r == Err(NullPointerException)
      ensures languages.Some? ==> r.Ok? && fresh(r.value) && r.value[..] == languages.value
    {
      if languages.None? {
        return Err(NullPointerException);
      }
      var ls := languages.value;
      var a := new Language.Language?[|ls|];
      for i := 0 to |ls|
        invariant a[..i] == ls[..i]
      {
        a[i] := ls[i];
      }
      r := Ok(a);
    }

    /** `getDefaultLanguage()`: the language last made the default, `null` before any. */
    function GetDefaultLanguage(): (l: Language.Language?)
      reads this
      ensures l == defaultLanguage
    {
      defaultLanguage
    }

    /**
     * `getLanguageFromCode(code)`: the first language in list order whose code
     * equals `code`, `null` if there is none; a `null` element met before a
     * match throws.
     */
    method GetLanguageFromCode(code: Option<string>) returns (r: Result<Language.Language?>)
      ensures languages.None? ==> r == Err(NullPointerException)
      ensures languages.Some? && r.Ok? && r.value != null ==>
                exists i :: 0 <= i < |languages.value| && languages.value[i] == r.value
                  && Some(r.value.code) == code && NoMatchBefore(languages.value, code, i)
      ensures languages.Some? ==> (r == Ok(null) <==> NoMatchBefore(languages.value, code, |languages.value|))
      ensures languages.Some? ==> (r.Err? <==>
                exists i :: 0 <= i < |languages.value| && languages.value[i] == null
                  && NoMatchBefore(languages.value, code, i))
      ensures r.Err? ==> r.error == NullPointerException
    {
      if languages.None? {
        return Err(NullPointerException);
      }
      var ls := languages.value;
      for i := 0 to |ls|
        invariant NoMatchBefore(ls, code, i)
      {
        var l := ls[i];
        if l == null {
          return Err(NullPointerException);
        }
        if Some(l.GetCode()) == code {
          return Ok(l);
        }
      }
      r := Ok(null);
    }
  }
}
