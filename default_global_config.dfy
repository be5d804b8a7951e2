/**
 * `DefaultGlobalConfig`: the older twin of `WritableConfig`, keyed by
 * `ConfigKey` objects. Its write-time check compares the class of the KEY
 * object with the class of the value.
 */
module DefaultGlobalConfig {
  import opened JavaLang
  import opened ConfigKey
  import Language

  /** The run-time check of `setValue`: `null`, or an instance of exactly the key object's class. */
  predicate Accepts(key: ConfigKey, value: Option<Value>) {
    value.None? || value.value.Class() == key.GetClass()
  }

  /** The static map `DEFAULT_VALUES` of registered keys. */
  class DefaultValues {
    var entries: map<ConfigKey, Value>

    /** `registerKey` is the only writer, and it always stores the map itself. */
    ghost predicate Valid()
      reads this
    {
      forall k :: k in entries ==> entries[k] == StaticMapRef(DefaultGlobalConfigDefaults)
    }

    constructor ()
      ensures entries == map[] && Valid()
    {
      entries := map[];
    }

    /**
     * `registerKey(key, defaultValue)`: as written, it stores the registry map
     * itself under `key`; `defaultValue` is not used.
     */
    method RegisterKey(key: ConfigKey, defaultValue: Option<Value>)
      requires Valid()
      modifies this`entries
      ensures Valid()
      ensures entries == old(entries)[key := StaticMapRef(DefaultGlobalConfigDefaults)]
      ensures key in GetRegisteredKeys()
      ensures GetDefaultValue(key) == Some(StaticMapRef(DefaultGlobalConfigDefaults))
    {
      entries := entries[key := StaticMapRef(DefaultGlobalConfigDefaults)];
    }

    /** `getRegisteredKeys()`: a new set holding the registered keys. */
    function GetRegisteredKeys(): (keys: set<ConfigKey>)
      reads this
      ensures keys == entries.Keys
    {
      entries.Keys
    }

    /**
     * `getKeyFromName(name, type)`: some registered key whose own class is
     * `type`, in the registry's unspecified iteration order; `name` plays no part.
     */
    method GetKeyFromName(name: Option<string>, keyType: Option<JClass>) returns (r: Option<ConfigKey>)
      ensures r.Some? ==> r.value in entries && Some(r.value.GetClass()) == keyType
      ensures r.None? <==> forall k :: k in entries ==> Some(k.GetClass()) != keyType
    {
      if exists k :: k in entries && Some(k.GetClass()) == keyType {
        var k :| k in entries && Some(k.GetClass()) == keyType;
        r := Some(k);
      } else {
        r := None;
      }
    }

    /** `getDefaultValue(key)`: `null` for a `null` or unregistered key. */
    function GetDefaultValue(key: ConfigKey?): (r: Option<Value>)
      reads this
      ensures key == null || key !in entries ==> r.None?
      ensures key != null && key in entries ==> r == Some(entries[key])
    {
      if key != null && key in entries then Some(entries[key]) else None
    }
  }

  class DefaultGlobalConfig {
    var language: Language.Language
    var entries: map<ConfigKey, Option<Value>>

    /** The fields of a config, as the constructor and `clone` set them. */
    constructor (language: Language.Language, entries: map<ConfigKey, Option<Value>>)
      ensures this.language == language && this.entries == entries
    {
      this.language := language;
      this.entries := entries;
    }

    /**
     * `new DefaultGlobalConfig()`: takes `Language.getDefault()` (which must
     * exist), copies the registered entries, then puts `true` under the
     * `CHECK_UPDATES` key given as `checkUpdates`. That put compares the key's
     * own class with `Boolean`, and a key is never a `Boolean`, so construction
     * always ends in an exception.
     */
    static method New(defaults: DefaultValues, languages: Language.LanguageRegistry, checkUpdates: ConfigKey?)
      returns (r: Result<DefaultGlobalConfig>)
      ensures r.Err?
      ensures (languages.GetDefault().Ok? && languages.GetDefault().value != null && checkUpdates != null)
                ==> r == Err(ClassCastException)
      ensures (languages.GetDefault().Err? || languages.GetDefault().value == null || checkUpdates == null)
                ==> r == Err(NullPointerException)
    {
      var lang := languages.GetDefault();
      if lang.Err? || lang.value == null {
        return Err(NullPointerException);
      }
      var config := new DefaultGlobalConfig(lang.value, map k | k in defaults.entries :: Some(defaults.entries[k]));
      if checkUpdates == null {
        return Err(NullPointerException);
      }
      var put := config.SetValue(checkUpdates, Some(JBoolean(true)));
      if put.Err? {
        return Err(put.error);
      }
      r := Ok(config);
    }

    /** `getLanguage()`: never `null`, since the constructor and `setLanguage` refuse it. */
    function GetLanguage(): (l: Language.Language)
      reads this
      ensures l == language
    {
      language
    }

    /** `setLanguage(language)`: `null` is refused. */
    method SetLanguage(language: Language.Language?) returns (r: Result<()>)
      modifies this`language
      ensures language == null ==> r == Err(NullPointerException) && GetLanguage() == old(GetLanguage())
      ensures language != null ==> r == Ok(()) && GetLanguage() == language
    {
      if language == null {
        return Err(NullPointerException);
      }
      this.language := language;
      r := Ok(());
    }

    /** `getValue(key)`: `null` for a `null` key, a key with no entry, or a key set to `null`. */
    function GetValue(key: ConfigKey?): (r: Option<Value>)
      reads this
      ensures key == null || key !in entries ==> r.None?
      ensures key != null && key in entries ==> r == entries[key]
    {
      if key != null && key in entries then entries[key] else None
    }

    /**
     * `setValue(key, value)`: a non-null value whose class is not exactly the
     * class of the key object is refused with a `ClassCastException`.
     */
    method SetValue(key: ConfigKey, value: Option<Value>) returns (r: Result<()>)
      modifies this`entries
      ensures !Accepts(key, value) ==> r == Err(ClassCastException) && entries == old(entries)
      ensures Accepts(key, value) ==> r == Ok(()) && entries == old(entries)[key := value]
      ensures r.Ok? ==> GetValue(key) == value
      ensures forall k: ConfigKey :: old(allocated(k)) && k != key ==> GetValue(k) == old(GetValue(k))
    {
      if value.Some? && key.GetClass() != value.value.Class() {
        return Err(ClassCastException);
      }
      entries := entries[key := value];
      r := Ok(());
    }

    /** `clone()`: a new config with the same language and a new map with the same entries. */
    method Clone() returns (c: DefaultGlobalConfig)
      ensures fresh(c) && c.language == language && c.entries == entries
    {
      c := new DefaultGlobalConfig(language, entries);
    }
  }

  /**
   * A boxed value, such as the `true` a configuration flag holds, is never
   * accepted under a key, whatever the key's value class says.
   */
  lemma BoxedValuesRejected(key: ConfigKey, v: Value)
    requires IsBoxedClass(v.Class())
    ensures !Accepts(key, Some(v))
  {
  }

  /**
   * Keys compare by identity: two keys built from the same name and value
   * class are different map keys, so setting one leaves the other unset.
   */
  method EqualFieldsDistinctKeys(config: DefaultGlobalConfig, name: Option<string>, valueClass: Option<JClass>,
                                 keyClass: KeyClass, value: Option<Value>)
    returns (k1: ConfigKey, k2: ConfigKey)
    modifies config`entries
    ensures k1.GetName() == k2.GetName() && k1.GetValueClass() == k2.GetValueClass() && k1 != k2
    ensures Accepts(k1, value) ==> config.GetValue(k1) == value
    ensures config.GetValue(k2).None?
  {
    k1 := new ConfigKey(name, valueClass, keyClass);
    k2 := new ConfigKey(name, valueClass, keyClass);
    var r := config.SetValue(k1, value);
  }

  /**
   * A clone and its original do not share their map: after cloning, an update
   * of the copy and an update of the original each change only their own entries.
   * Dafny maps are values, so this would hold just as well for a `clone` that
   * shared its map with the original: it is a consequence of modelling the
   * entries as a value, not evidence about the copy the source makes.
   */
  method CloneIsIndependent(original: DefaultGlobalConfig, k1: ConfigKey, v1: Option<Value>,
                            k2: ConfigKey, v2: Option<Value>)
    returns (copy: DefaultGlobalConfig)
    modifies original`entries
    ensures fresh(copy) && copy.language == original.language
    ensures copy.entries == if Accepts(k1, v1) then old(original.entries)[k1 := v1] else old(original.entries)
    ensures original.entries == if Accepts(k2, v2) then old(original.entries)[k2 := v2] else old(original.entries)
  {
    copy := original.Clone();
    var r1 := copy.SetValue(k1, v1);
    var r2 := original.SetValue(k2, v2);
  }
}
