/**
 * `WritableConfig`: a configuration mapping tags to values, checked at write
 * time against each tag's value class, with a language and a static registry
 * of known tags.
 */
module WritableConfig {
  import opened JavaLang
  import opened AbstractTag
  import Language
  import ApplicationRegistry
  import opened DefaultConfigTags

  /** The run-time check of `setValue`: `null`, or an instance of exactly the tag's value class. */
  predicate Accepts(key: Tag, value: Option<Value>) {
    value.None? || value.value.Class() == key.GetValueClass()
  }

  /** The static map `DEFAULT_VALUES` of registered tags. */
  class DefaultValues {
    var entries: map<Tag, Value>

    /** `registerKey` is the only writer, and it always stores the map itself. */
    ghost predicate Valid()
      reads this
    {
      forall k :: k in entries ==> entries[k] == StaticMapRef(WritableConfigDefaults)
    }

    constructor ()
      ensures entries == map[] && Valid()
    {
      entries := map[];
    }

    /**
     * `registerKey(key, defaultValue)`: as written, it stores the registry map
     * itself under `key`; `defaultValue` is not used.
     */
    method RegisterKey(key: Tag, defaultValue: Option<Value>)
      requires Valid()
      modifies this`entries
      ensures Valid()
      ensures entries == old(entries)[key := StaticMapRef(WritableConfigDefaults)]
      ensures key in GetRegisteredKeys()
      ensures GetDefaultValue(Some(key)) == Some(StaticMapRef(WritableConfigDefaults))
    {
      entries := entries[key := StaticMapRef(WritableConfigDefaults)];
    }

    /** `getRegisteredKeys()`: a new set holding the registered tags. */
    function GetRegisteredKeys(): (keys: set<Tag>)
      reads this
      ensures keys == entries.Keys
    {
      entries.Keys
    }

    /**
     * `getKeyFromName(name, typeName)`: some registered tag whose value class is
     * named `typeName`, in the registry's unspecified iteration order; `name` plays
     * no part.
     */
    method GetKeyFromName(name: Option<string>, typeName: Option<string>) returns (r: Option<Tag>)
      ensures r.Some? ==> r.value in entries && Some(r.value.GetValueClass().name) == typeName
      ensures r.None? <==> forall k :: k in entries ==> Some(k.GetValueClass().name) != typeName
    {
      if exists k :: k in entries && Some(k.GetValueClass().name) == typeName {
        var k :| k in entries && Some(k.GetValueClass().name) == typeName;
        r := Some(k);
      } else {
        r := None;
      }
    }

    /** `getDefaultValue(key)`: `null` for a `null` or unregistered tag. */
    function GetDefaultValue(key: Option<Tag>): (r: Option<Value>)
      reads this
      ensures key.None? || key.value !in entries ==> r.None?
      ensures key.Some? && key.value in entries ==> r == Some(entries[key.value])
    {
      match key
      case Some(k) => if k in entries then Some(entries[k]) else None
      case None => None
    }
  }

  /**
   * The entries of a new config: every registered tag with its registered
   * value, then `CHECK_UPDATES` set to `true`.
   */
  function InitialEntries(defaults: map<Tag, Value>): (m: map<Tag, Option<Value>>)
    ensures m.Keys == defaults.Keys + {CHECK_UPDATES}
    ensures m[CHECK_UPDATES] == Some(JBoolean(true))
    ensures forall k :: k in defaults && k != CHECK_UPDATES ==> m[k] == Some(defaults[k])
  {
    (map k | k in defaults :: Some(defaults[k]))[CHECK_UPDATES := Some(JBoolean(true))]
  }

  class WritableConfig {
    var language: Language.Language
    var entries: map<Tag, Option<Value>>

    /** The fields of a config, as the constructor and `clone` set them. */
    constructor (language: Language.Language, entries: map<Tag, Option<Value>>)
      ensures this.language == language && this.entries == entries
    {
      this.language := language;
      this.entries := entries;
    }

    /**
     * `new WritableConfig()`: the registry's default language (which must not
     * be `null`), a copy of the registered entries, and `CHECK_UPDATES` set to `true`.
     */
    static method New(defaults: DefaultValues, registry: ApplicationRegistry.ApplicationRegistry)
      returns (r: Result<WritableConfig>)
      ensures registry.GetDefaultLanguage() == null ==> r == Err(NullPointerException)
      ensures registry.GetDefaultLanguage() != null ==>
                && r.Ok? && fresh(r.value)
                && r.value.language == registry.GetDefaultLanguage()
                && r.value.entries == InitialEntries(defaults.entries)
    {
      var lang := registry.GetDefaultLanguage();
      if lang == null {
        return Err(NullPointerException);
      }
      var config := new WritableConfig(lang, map k | k in defaults.entries :: Some(defaults.entries[k]));
      var put := config.SetValue(CHECK_UPDATES, Some(JBoolean(true)));
      r := Ok(config);
    }

    /** `getLanguage()`: never `null`, since the constructor and `setLanguage` refuse it. */
    function GetLanguage(): (l: Language.Language)
      reads this
      ensures l == language
    {
      language
    }

    /** `setLanguage(language)`: `null` is refused. */
    method SetLanguage(language: Language.Language?) returns (r: Result<()>)
      modifies this`language
      ensures language == null ==> r == Err(NullPointerException) && GetLanguage() == old(GetLanguage())
      ensures language != null ==> r == Ok(()) && GetLanguage() == language
    {
      if language == null {
        return Err(NullPointerException);
      }
      this.language := language;
      r := Ok(());
    }

    /** `getValue(key)`: `null` for a `null` tag, a tag with no entry, or a tag set to `null`. */
    function GetValue(key: Option<Tag>): (r: Option<Value>)
      reads this
      ensures key.None? || key.value !in entries ==> r.None?
      ensures key.Some? && key.value in entries ==> r == entries[key.value]
    {
      match key
      case Some(k) => if k in entries then entries[k] else None
      case None => None
    }

    /**
     * `setValue(key, value)`: a non-null value whose class is not exactly the
     * tag's value class is refused with a `ClassCastException`.
     */
    method SetValue(key: Tag, value: Option<Value>) returns (r: Result<()>)
      modifies this`entries
      ensures !Accepts(key, value) ==> r == Err(ClassCastException) && entries == old(entries)
      ensures Accepts(key, value) ==> r == Ok(()) && entries == old(entries)[key := value]
      ensures r.Ok? ==> GetValue(Some(key)) == value
      ensures forall k :: k != key ==> GetValue(Some(k)) == old(GetValue(Some(k)))
    {
      if value.Some? && key.GetValueClass() != value.value.Class() {
        return Err(ClassCastException);
      }
      entries := entries[key := value];
      r := Ok(());
    }

    /** `clone()`: a new config with the same language and a new map with the same entries. */
    method Clone() returns (c: WritableConfig)
      ensures fresh(c) && c.language == language && c.entries == entries
    {
      c := new WritableConfig(language, entries);
    }
  }

  /**
   * A clone and its original do not share their map: after cloning, an update
   * of the copy and an update of the original each change only their own entries.
   * Dafny maps are values, so this would hold just as well for a `clone` that
   * shared its map with the original: it is a consequence of modelling the
   * entries as a value, not evidence about the copy the source makes.
   */
  method CloneIsIndependent(original: WritableConfig, k1: Tag, v1: Option<Value>, k2: Tag, v2: Option<Value>)
    returns (copy: WritableConfig)
    modifies original`entries
    ensures fresh(copy) && copy.language == original.language
    ensures copy.entries == if Accepts(k1, v1) then old(original.entries)[k1 := v1] else old(original.entries)
    ensures original.entries == if Accepts(k2, v2) then old(original.entries)[k2 := v2] else old(original.entries)
  {
    copy := original.Clone();
    var r1 := copy.SetValue(k1, v1);
    var r2 := original.SetValue(k2, v2);
  }

  /**
   * A new config holds every registered tag; `CHECK_UPDATES` is `true` and
   * every other tag holds the registry map, not the default it was registered with.
   */
  lemma NewConfigEntries(defaults: DefaultValues, k: Tag)
    requires defaults.Valid() && k in defaults.entries
    ensures k in InitialEntries(defaults.entries)
    ensures InitialEntries(defaults.entries)[k] ==
              if k == CHECK_UPDATES then Some(JBoolean(true)) else Some(StaticMapRef(WritableConfigDefaults))
  {
  }
}
